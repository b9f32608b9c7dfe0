/**
 AI conversations: every finished agent run appends a chain of messages below the message it replies
 to, and the history sent to the agent is the list of runs met on the path from the root.
 */
module Conversation {
  import opened Wrappers

  /** Rows are numbered in order of insertion; the numbers stand for their identifiers. */
  datatype Message = Message(conv: nat, run: nat, clientId: string, parent: Option<nat>, position: int)

  datatype Run = Run(conv: nat, completedAt: int, text: string)

  datatype Tables = Tables(messages: seq<Message>, runs: seq<Run>)

  datatype Error = ParentNotFound | DuplicateClientId

  // ---- the queries ----

  predicate IsSibling(m: Message, conv: nat, parent: Option<nat>) {
    m.conv == conv && m.parent == parent
  }

  /** `MAX(position)` over the children of a message, or -1. */
  function MaxPosition(messages: seq<Message>, conv: nat, parent: Option<nat>): int {
    if messages == [] then -1
    else
      var rest, m := MaxPosition(messages[..|messages| - 1], conv, parent), messages[|messages| - 1];
      if IsSibling(m, conv, parent) && m.position > rest then m.position else rest
  }

  /** `NextAIConversationMessagePosition`. */
  function NextPosition(messages: seq<Message>, conv: nat, parent: Option<nat>): int {
    MaxPosition(messages, conv, parent) + 1
  }

  predicate HasClientId(messages: seq<Message>, conv: nat, clientId: string) {
    exists i :: 0 <= i < |messages| && messages[i].conv == conv && messages[i].clientId == clientId
  }

  // ---- persisting a run ----

  /** The chain of new messages: the first below `parent`, each next one an only child. */
  function Chain(first: nat, conv: nat, run: nat, parent: Option<nat>, position: int, ids: seq<string>): seq<Message> {
    if ids == [] then []
    else
      var n := |ids| - 1;
      Chain(first, conv, run, parent, position, ids[..n])
      + [Message(conv, run, ids[n], if n == 0 then parent else Some(first + n - 1), if n == 0 then position else 0)]
  }

  /** No new client id is already taken in the conversation, and none occurs twice. */
  ghost predicate NewClientIds(messages: seq<Message>, conv: nat, ids: seq<string>) {
    && (forall i | 0 <= i < |ids| :: !HasClientId(messages, conv, ids[i]))
    && (forall i, j | 0 <= i < j < |ids| :: ids[i] != ids[j])
  }

  /** A finished run, ready to be written. */
  datatype Finished = Finished(conv: nat, parent: Option<nat>, at: int, text: string, ids: seq<string>)

  function Persisted(t: Tables, f: Finished): Tables {
    Tables(t.messages + Chain(|t.messages|, f.conv, |t.runs|, f.parent, NextPosition(t.messages, f.conv, f.parent),
        f.ids),
           t.runs + [Run(f.conv, f.at, f.text)])
  }

  // ---- client ids ----

  datatype Kind = User | Assistant

  datatype Options = Options(clientId: string, parentClientId: Option<string>, responseClientId: Option<string>)

  /** The id given to the `i`-th new message: the client's own where it supplied one. */
  function ClientIdFor(kinds: seq<Kind>, options: Option<Options>, generated: seq<string>, i: nat): string
    requires i < |kinds| == |generated|
  {
    var id0 := if kinds[i].User? && options.Some? && options.value.clientId != "" then options.value.clientId
               else generated[i];
    if kinds[i].Assistant? && i == |kinds| - 1 && options.Some? && options.value.responseClientId.Some?
       && options.value.responseClientId.value != ""
    then options.value.responseClientId.value else id0
  }

  function ClientIds(kinds: seq<Kind>, options: Option<Options>, generated: seq<string>, n: nat): (ids: seq<string>)
    requires n <= |kinds| == |generated|
    ensures |ids| == n && forall i | 0 <= i < n :: ids[i] == ClientIdFor(kinds, options, generated, i)
  {
    seq(n, i requires 0 <= i < n => ClientIdFor(kinds, options, generated, i))
  }

  class ConversationStore {
    var messages: seq<Message>
    var runs: seq<Run>

    ghost function State(): Tables
      reads this
    {
      Tables(messages, runs)
    }

    constructor ()
      ensures State() == Tables([], []) && Sound(State())
    {
      messages, runs := [], [];
    }

    /** The lookup of the parent message by the id the client knows it by. */
    method FindParent(conv: nat, clientId: string) returns (r: Result<nat, Error>)
      ensures r.Ok? ==> r.value < |messages| && messages[r.value].conv == conv && messages[r.value].clientId == clientId
      ensures r.Err? ==> r == Err(ParentNotFound) && !HasClientId(messages, conv, clientId)
    {
      for i := 0 to |messages|
        invariant forall j | 0 <= j < i :: !(messages[j].conv == conv && messages[j].clientId == clientId)
      {
        if messages[i].conv == conv && messages[i].clientId == clientId {
          return Ok(i);
        }
      }
      return Err(ParentNotFound);
    }

    /**
     The run history sent with a reply to message `parent`; `previousRuns` is the answer of the path
     query. Taking its last element never fails, and that element is the run of the parent itself.
     */
    method RunHistory(parent: nat, previousRuns: seq<nat>) returns (runMessages: seq<string>, latest: Run)
      requires Sound(State()) && ParentsFirst(State()) && parent < |messages|
      requires AnswersPathQuery(State(), parent, previousRuns)
      ensures messages[parent].run < |runs| && latest == runs[messages[parent].run]
      ensures |runMessages| == |previousRuns|
      ensures forall i | 0 <= i < |runMessages| ::
        previousRuns[i] < |runs| && runMessages[i] == runs[previousRuns[i]].text
    {
      PathQueryAnswer(State(), parent, previousRuns);
      latest := runs[previousRuns[|previousRuns| - 1]];
      runMessages := [];
      for i := 0 to |previousRuns|
        invariant |runMessages| == i
        invariant forall j | 0 <= j < i :: runMessages[j] == runs[previousRuns[j]].text
      {
        runMessages := runMessages + [runs[previousRuns[i]].text];
      }
    }

    /** The id of the `i`-th new message, as the loop of the transaction picks it. */
    static method ChooseClientId(kinds: seq<Kind>, options: Option<Options>, generated: seq<string>, i: nat)
      returns (clientID: string)
      requires i < |kinds| == |generated|
      ensures clientID == ClientIdFor(kinds, options, generated, i)
    {
      clientID := generated[i];
      if kinds[i].User? && options.Some? && options.value.clientId != "" {
        clientID := options.value.clientId;
      }
      if kinds[i].Assistant? && i == |kinds| - 1 && options.Some? && options.value.responseClientId.Some?
         && options.value.responseClientId.value != "" {
        clientID := options.value.responseClientId.value;
      }
    }

    /** The transaction that writes a finished run; a duplicate client id rolls it back. */
    method PersistRun(conv: nat, parent: Option<nat>, at: int, text: string, kinds: seq<Kind>,
                      options: Option<Options>, generated: seq<string>) returns (err: Option<Error>)
      requires Sound(State()) && |generated| == |kinds|
      requires GoodParent(State(), conv, parent) && Later(State(), at)
      modifies this
      ensures Sound(State())
      ensures var f := Finished(conv, parent, at, text, ClientIds(kinds, options, generated, |kinds|));
        if NewClientIds(old(messages), conv, f.ids) then err == None && State() == Persisted(old(State()), f)
        else err == Some(DuplicateClientId) && State() == old(State())
    {
      ghost var t, f := State(), Finished(conv, parent, at, text, ClientIds(kinds, options, generated, |kinds|));
      var oldMessages, oldRuns := messages, runs;
      var run := |runs|;
      runs := runs + [Run(conv, at, text)];
      var currentParentID := parent;
      NothingWritten(t, f);
      for i := 0 to |kinds|
        invariant State() == Written(t, f, i) && |messages| == |oldMessages| + i
        invariant currentParentID == WrittenParent(t, f, i)
        invariant NewClientIds(oldMessages, conv, f.ids[..i])
      {
        var clientID := ChooseClientId(kinds, options, generated, i);
        WriteNext(t, f, i);
        ghost var rows := messages;
        assert rows == Written(t, f, i).messages;
        var position := NextPosition(messages, conv, currentParentID);
        if HasClientId(messages, conv, clientID) {
          messages, runs := oldMessages, oldRuns;
          return Some(DuplicateClientId);
        }
        messages := messages + [Message(conv, run, clientID, currentParentID, position)];
        assert messages == Written(t, f, i + 1).messages;
        currentParentID := Some(|messages| - 1);
      }
      AllWritten(t, f);
      PersistKeepsSound(t, f);
      return None;
    }
  }

  // ---- the transaction row by row ----

  /** The tables inside the transaction, with the first `i` messages inserted. */
  ghost function Written(t: Tables, f: Finished, i: nat): Tables
    requires i <= |f.ids|
  {
    var position := NextPosition(t.messages, f.conv, f.parent);
    Tables(t.messages + Chain(|t.messages|, f.conv, |t.runs|, f.parent, position, f.ids[..i]),
           t.runs + [Run(f.conv, f.at, f.text)])
  }

  ghost function WrittenParent(t: Tables, f: Finished, i: nat): Option<nat> {
    if i == 0 then f.parent else Some(|t.messages| + i - 1)
  }

  lemma {:induction false} NothingWritten(t: Tables, f: Finished)
    ensures Written(t, f, 0) == Tables(t.messages, t.runs + [Run(f.conv, f.at, f.text)])
  {
  }

  lemma {:induction false} AllWritten(t: Tables, f: Finished)
    ensures Written(t, f, |f.ids|) == Persisted(t, f)
    ensures f.ids[..|f.ids|] == f.ids
  {
    assert f.ids[..|f.ids|] == f.ids;
  }

  lemma {:induction false} WriteNext(t: Tables, f: Finished, i: nat)
    requires Sound(t) && GoodParent(t, f.conv, f.parent) && i < |f.ids| && NewClientIds(t.messages, f.conv, f.ids[..i])
    ensures var rows, parent := Written(t, f, i).messages, WrittenParent(t, f, i);
      && Written(t, f, i + 1).messages
         == rows + [Message(f.conv, |t.runs|, f.ids[i], parent, NextPosition(rows, f.conv, parent))]
      && (HasClientId(rows, f.conv, f.ids[i]) ==> !NewClientIds(t.messages, f.conv, f.ids))
      && (!HasClientId(rows, f.conv, f.ids[i]) ==> NewClientIds(t.messages, f.conv, f.ids[..i + 1]))
  {
    var before := f.ids[..i];
    ChainIds(t, f.conv, f.parent, before, f.ids[i]);
    assert f.ids[..i + 1] == before + [f.ids[i]];
    assert (before + [f.ids[i]])[..i] == before;
  }

  // ---- what every transaction keeps ----

  /** The number of children a message has among the given rows. */
  function Siblings(messages: seq<Message>, conv: nat, parent: Option<nat>): nat {
    if messages == [] then 0
    else Siblings(messages[..|messages| - 1], conv, parent)
         + (if IsSibling(messages[|messages| - 1], conv, parent) then 1 else 0)
  }

  ghost predicate SoundRow(t: Tables, i: nat)
    requires i < |t.messages|
  {
    var m := t.messages[i];
    && (m.parent.Some? ==> m.parent.value < i && t.messages[m.parent.value].conv == m.conv)
    && m.position == Siblings(t.messages[..i], m.conv, m.parent)
    && m.run < |t.runs| && t.runs[m.run].conv == m.conv
    && (i > 0 && t.messages[i - 1].run == m.run ==> m.parent == Some(i - 1))
    && (i > 0 ==> t.messages[i - 1].run <= m.run)
    && !HasClientId(t.messages[..i], m.conv, m.clientId)
  }

  /** Parents come first, positions count siblings, each run is one parent chain, runs complete in order. */
  ghost predicate Sound(t: Tables) {
    && (forall i: nat | i < |t.messages| :: SoundRow(t, i))
    && (forall i, j | 0 <= i < j < |t.runs| :: t.runs[i].completedAt < t.runs[j].completedAt)
  }

  /** The message replied to exists in the conversation. */
  predicate GoodParent(t: Tables, conv: nat, parent: Option<nat>) {
    parent.Some? ==> parent.value < |t.messages| && t.messages[parent.value].conv == conv
  }

  /** Completion times increase strictly. */
  ghost predicate Later(t: Tables, at: int) {
    forall i | 0 <= i < |t.runs| :: t.runs[i].completedAt < at
  }

  lemma {:induction false} ChainAt(first: nat, conv: nat, run: nat, parent: Option<nat>, position: int,
          ids: seq<string>)
    ensures var c := Chain(first, conv, run, parent, position, ids);
      |c| == |ids| && forall i: nat | i < |c| ::
        c[i] == Message(conv, run, ids[i], if i == 0 then parent else Some(first + i - 1), if i
            == 0 then position else 0)
  {
    if ids != [] {
      ChainAt(first, conv, run, parent, position, ids[..|ids| - 1]);
    }
  }

  // ---- the queries against new rows ----

  lemma {:induction false} NoChildren(messages: seq<Message>, conv: nat, parent: Option<nat>)
    requires forall i | 0 <= i < |messages| :: !IsSibling(messages[i], conv, parent)
    ensures MaxPosition(messages, conv, parent) == -1 && Siblings(messages, conv, parent) == 0
  {
    if messages != [] {
      NoChildren(messages[..|messages| - 1], conv, parent);
    }
  }

  /** A message that has just been inserted has no children yet. */
  lemma {:induction false} NewestHasNoChildren(t: Tables, conv: nat, run: nat, parent: Option<nat>, position: int,
                                               ids: seq<string>)
    requires Sound(t) && GoodParent(t, conv, parent) && ids != []
    ensures var all := t.messages + Chain(|t.messages|, conv, run, parent, position, ids);
      MaxPosition(all, conv, Some(|all| - 1)) == -1 && Siblings(all, conv, Some(|all| - 1)) == 0
  {
    var chain := Chain(|t.messages|, conv, run, parent, position, ids);
    var all := t.messages + chain;
    ChainAt(|t.messages|, conv, run, parent, position, ids);
    forall i: nat | i < |all|
      ensures all[i].parent != Some(|all| - 1)
    {
      if i < |t.messages| {
        assert SoundRow(t, i);
      } else {
        assert all[i] == chain[i - |t.messages|];
      }
    }
    NoChildren(all, conv, Some(|all| - 1));
  }

  lemma {:induction false} ChainHasId(messages: seq<Message>, first: nat, conv: nat, run: nat, parent: Option<nat>,
                                      position: int, ids: seq<string>, id: string)
    ensures HasClientId(messages + Chain(first, conv, run, parent, position, ids), conv, id)
            <==> HasClientId(messages, conv, id) || id in ids
  {
    var chain := Chain(first, conv, run, parent, position, ids);
    var all := messages + chain;
    ChainAt(first, conv, run, parent, position, ids);
    if HasClientId(messages, conv, id) {
      var i :| 0 <= i < |messages| && messages[i].conv == conv && messages[i].clientId == id;
      assert all[i] == messages[i];
    } else if id in ids {
      var i :| 0 <= i < |ids| && ids[i] == id;
      assert all[|messages| + i] == chain[i];
    }
  }

  /** What the transaction's own queries answer after some of its rows are in. */
  lemma {:induction false} ChainIds(t: Tables, conv: nat, parent: Option<nat>, ids: seq<string>, id: string)
    requires Sound(t) && GoodParent(t, conv, parent)
    ensures var position := NextPosition(t.messages, conv, parent);
      var all := t.messages + Chain(|t.messages|, conv, |t.runs|, parent, position, ids);
      && |all| == |t.messages| + |ids|
      && (HasClientId(all, conv, id) <==> HasClientId(t.messages, conv, id) || id in ids)
      && NextPosition(all, conv, if ids == [] then parent else Some(|all| - 1)) == (if ids == [] then position else 0)
  {
    var position := NextPosition(t.messages, conv, parent);
    ChainAt(|t.messages|, conv, |t.runs|, parent, position, ids);
    ChainHasId(t.messages, |t.messages|, conv, |t.runs|, parent, position, ids, id);
    if ids != [] {
      NewestHasNoChildren(t, conv, |t.runs|, parent, position, ids);
    } else {
      assert t.messages + Chain(|t.messages|, conv, |t.runs|, parent, position, ids) == t.messages;
    }
  }

  // ---- positions ----

  /** The positions of the children of a message, in order of insertion. */
  function Positions(messages: seq<Message>, conv: nat, parent: Option<nat>): seq<int> {
    if messages == [] then []
    else
      var m := messages[|messages| - 1];
      Positions(messages[..|messages| - 1], conv, parent) + (if IsSibling(m, conv, parent) then [m.position] else [])
  }

  lemma {:induction false} PositionsCountBelow(t: Tables, n: nat, conv: nat, parent: Option<nat>)
    requires n <= |t.messages| && forall i: nat | i < n :: SoundRow(t, i)
    ensures MaxPosition(t.messages[..n], conv, parent) == Siblings(t.messages[..n], conv, parent) - 1
    ensures Positions(t.messages[..n], conv, parent) == seq(Siblings(t.messages[..n], conv, parent), i => i)
  {
    if n > 0 {
      PositionsCountBelow(t, n - 1, conv, parent);
      assert t.messages[..n][..n - 1] == t.messages[..n - 1];
      assert SoundRow(t, n - 1);
    }
  }

  /** Sibling positions are exactly 0, 1, .., k-1, in order of insertion, and the next one is free. */
  lemma {:induction false} PositionsCount(t: Tables, conv: nat, parent: Option<nat>)
    requires Sound(t)
    ensures Positions(t.messages, conv, parent) == seq(Siblings(t.messages, conv, parent), i => i)
    ensures NextPosition(t.messages, conv, parent) == Siblings(t.messages, conv, parent)
  {
    PositionsCountBelow(t, |t.messages|, conv, parent);
    assert t.messages[..|t.messages|] == t.messages;
  }

  /** The earlier messages with the same parent, in the same conversation. */
  ghost function ElderSiblings(messages: seq<Message>, n: nat, conv: nat, parent: Option<nat>): set<nat>
    requires n <= |messages|
  {
    set j: nat | j < n && messages[j].conv == conv && messages[j].parent == parent
  }

  lemma {:induction false} SiblingsAreCounted(messages: seq<Message>, n: nat, conv: nat, parent: Option<nat>)
    requires n <= |messages|
    ensures Siblings(messages[..n], conv, parent) == |ElderSiblings(messages, n, conv, parent)|
  {
    if n > 0 {
      var m := n - 1;
      SiblingsAreCounted(messages, m, conv, parent);
      OneMoreElder(messages, m, conv, parent);
      assert messages[..n][..m] == messages[..m] && messages[..n][m] == messages[m];
    }
  }

  lemma {:induction false} OneMoreElder(messages: seq<Message>, m: nat, conv: nat, parent: Option<nat>)
    requires m < |messages|
    ensures |ElderSiblings(messages, m + 1, conv, parent)| == |ElderSiblings(messages, m, conv, parent)|
            + (if messages[m].conv == conv && messages[m].parent == parent then 1 else 0)
  {
    var before, after := ElderSiblings(messages, m, conv, parent), ElderSiblings(messages, m + 1, conv, parent);
    var own: set<nat> := if messages[m].conv == conv && messages[m].parent == parent then {m} else {};
    forall j: nat
      ensures j in after <==> j in before || j in own
    {
      IsElder(messages, m + 1, conv, parent, j);
      IsElder(messages, m, conv, parent, j);
    }
    IsElder(messages, m, conv, parent, m);
    assert after == before + own;
  }

  lemma {:induction false} IsElder(messages: seq<Message>, n: nat, conv: nat, parent: Option<nat>, j: nat)
    requires n <= |messages|
    ensures j in ElderSiblings(messages, n, conv, parent)
            <==> j < n && messages[j].conv == conv && messages[j].parent == parent
  {
  }

  /** A message's position is the number of its elder siblings in the conversation. */
  lemma {:induction false} PositionIsTheRank(t: Tables, i: nat)
    requires Sound(t) && i < |t.messages|
    ensures t.messages[i].position == |ElderSiblings(t.messages, i, t.messages[i].conv, t.messages[i].parent)|
  {
    assert SoundRow(t, i);
    SiblingsAreCounted(t.messages, i, t.messages[i].conv, t.messages[i].parent);
  }

  // ---- persisting keeps the tables sound ----

  lemma {:induction false} OldRowStaysSound(t: Tables, f: Finished, i: nat)
    requires Sound(t) && i < |t.messages|
    ensures i < |Persisted(t, f).messages| && SoundRow(Persisted(t, f), i)
  {
    var u := Persisted(t, f);
    assert SoundRow(t, i);
    assert u.messages[..i] == t.messages[..i];
  }

  lemma {:induction false} ChainPrefix(first: nat, conv: nat, run: nat, parent: Option<nat>, position: int,
                                       ids: seq<string>, k: nat)
    requires k <= |ids|
    ensures |Chain(first, conv, run, parent, position, ids)| == |ids|
    ensures Chain(first, conv, run, parent, position, ids)[..k] == Chain(first, conv, run, parent, position, ids[..k])
  {
    ChainAt(first, conv, run, parent, position, ids);
    ChainAt(first, conv, run, parent, position, ids[..k]);
  }

  /** The row written for the `k`-th new message, and the rows before it. */
  lemma {:induction false} NewRow(t: Tables, f: Finished, k: nat)
    requires k < |f.ids|
    ensures var u, n := Persisted(t, f), |t.messages|;
      var position := NextPosition(t.messages, f.conv, f.parent);
      && n + k < |u.messages|
      && u.messages[n + k] == Message(f.conv, |t.runs|, f.ids[k], if k == 0 then f.parent else Some(n + k - 1),
                                      if k == 0 then position else 0)
      && u.messages[..n + k] == t.messages + Chain(n, f.conv, |t.runs|, f.parent, position, f.ids[..k])
  {
    var n, position := |t.messages|, NextPosition(t.messages, f.conv, f.parent);
    ChainAt(n, f.conv, |t.runs|, f.parent, position, f.ids);
    ChainPrefix(n, f.conv, |t.runs|, f.parent, position, f.ids, k);
  }

  lemma {:induction false} NewRowIsSound(t: Tables, f: Finished, k: nat)
    requires Sound(t) && GoodParent(t, f.conv, f.parent) && NewClientIds(t.messages, f.conv, f.ids) && k < |f.ids|
    ensures |t.messages| + k < |Persisted(t, f).messages| && SoundRow(Persisted(t, f), |t.messages| + k)
  {
    var n, position, before := |t.messages|, NextPosition(t.messages, f.conv, f.parent), f.ids[..k];
    NewRow(t, f, k);
    ChainHasId(t.messages, n, f.conv, |t.runs|, f.parent, position, before, f.ids[k]);
    assert f.ids[k] !in before;
    if k == 0 {
      assert Persisted(t, f).messages[..n] == t.messages;
      PositionsCount(t, f.conv, f.parent);
      assert n > 0 ==> SoundRow(t, n - 1);
    } else {
      NewRow(t, f, k - 1);
      NewestHasNoChildren(t, f.conv, |t.runs|, f.parent, position, before);
    }
  }

  lemma {:induction false} PersistKeepsSound(t: Tables, f: Finished)
    requires Sound(t) && GoodParent(t, f.conv, f.parent) && Later(t, f.at) && NewClientIds(t.messages, f.conv, f.ids)
    ensures Sound(Persisted(t, f))
  {
    var u := Persisted(t, f);
    ChainAt(|t.messages|, f.conv, |t.runs|, f.parent, NextPosition(t.messages, f.conv, f.parent), f.ids);
    forall i: nat | i < |u.messages|
      ensures SoundRow(u, i)
    {
      if i < |t.messages| {
        OldRowStaysSound(t, f, i);
      } else {
        NewRowIsSound(t, f, i - |t.messages|);
      }
    }
  }

  // ---- every sequence of transactions ----

  /** One transaction: a run whose client ids are not new leaves the tables alone. */
  ghost function Transaction(t: Tables, f: Finished): Tables {
    if NewClientIds(t.messages, f.conv, f.ids) then Persisted(t, f) else t
  }

  ghost function After(fs: seq<Finished>): Tables {
    if fs == [] then Tables([], []) else Transaction(After(fs[..|fs| - 1]), fs[|fs| - 1])
  }

  /** Each run replies to an existing message of its conversation and completes after those before it. */
  ghost predicate Admissible(fs: seq<Finished>) {
    fs != [] ==>
      var t, f := After(fs[..|fs| - 1]), fs[|fs| - 1];
      Admissible(fs[..|fs| - 1]) && GoodParent(t, f.conv, f.parent) && Later(t, f.at)
  }

  lemma {:induction false} EveryConversationIsSound(fs: seq<Finished>)
    requires Admissible(fs)
    ensures Sound(After(fs))
  {
    if fs != [] {
      var t, f := After(fs[..|fs| - 1]), fs[|fs| - 1];
      EveryConversationIsSound(fs[..|fs| - 1]);
      if NewClientIds(t.messages, f.conv, f.ids) {
        PersistKeepsSound(t, f);
      }
    }
  }

  // ---- ancestor paths ----

  predicate ParentsFirst(t: Tables) {
    forall i | 0 <= i < |t.messages| :: t.messages[i].parent.Some? ==> t.messages[i].parent.value < i
  }

  lemma {:induction false} SoundParentsFirst(t: Tables)
    requires Sound(t)
    ensures ParentsFirst(t)
  {
    forall i: nat | i < |t.messages|
      ensures t.messages[i].parent.Some? ==> t.messages[i].parent.value < i
    {
      assert SoundRow(t, i);
    }
  }

  /** The messages from the root of the conversation down to `m`. */
  function Path(t: Tables, m: nat): (p: seq<nat>)
    requires ParentsFirst(t) && m < |t.messages|
    ensures forall i | 0 <= i < |p| :: p[i] < |t.messages|
    decreases m
  {
    (if t.messages[m].parent.Some? then Path(t, t.messages[m].parent.value) else []) + [m]
  }

  predicate RunOnPath(t: Tables, m: nat, run: nat)
    requires ParentsFirst(t) && m < |t.messages|
  {
    exists i :: 0 <= i < |Path(t, m)| && t.messages[Path(t, m)[i]].run == run
  }

  /**
   What `ListAIConversationRunsForMessagePath` promises: the runs of the messages on the path, each
   once, in order of completion.
   */
  ghost predicate AnswersPathQuery(t: Tables, m: nat, runs: seq<nat>)
    requires ParentsFirst(t) && m < |t.messages|
  {
    && (forall i | 0 <= i < |runs| :: runs[i] < |t.runs|)
    && (forall i, j | 0 <= i < j < |runs| ::
          runs[i] != runs[j] && t.runs[runs[i]].completedAt <= t.runs[runs[j]].completedAt)
    && (forall r: nat :: r in runs <==> RunOnPath(t, m, r))
  }

  /** Does `m` continue the run of its parent? */
  predicate Continues(t: Tables, m: nat)
    requires ParentsFirst(t) && m < |t.messages|
  {
    var x := t.messages[m];
    x.parent.Some? && t.messages[x.parent.value].run == x.run
  }

  /** The runs met on the path, one after the other. */
  function PathRuns(t: Tables, m: nat): seq<nat>
    requires ParentsFirst(t) && m < |t.messages|
    decreases m
  {
    var x := t.messages[m];
    if x.parent.None? then [x.run]
    else if Continues(t, m) then PathRuns(t, x.parent.value)
    else PathRuns(t, x.parent.value) + [x.run]
  }

  ghost predicate Increasing(s: seq<nat>) {
    forall i, j | 0 <= i < j < |s| :: s[i] < s[j]
  }

  lemma {:induction false} PathRunsShape(t: Tables, m: nat)
    requires Sound(t) && ParentsFirst(t) && m < |t.messages|
    ensures var rs := PathRuns(t, m);
      Increasing(rs) && rs != [] && rs[|rs| - 1] == t.messages[m].run && t.messages[m].run < |t.runs|
    decreases m
  {
    assert SoundRow(t, m);
    if t.messages[m].parent.Some? {
      var p := t.messages[m].parent.value;
      PathRunsShape(t, p);
      RunsIncrease(t, p, m);
    }
  }

  lemma {:induction false} RunsIncrease(t: Tables, i: nat, j: nat)
    requires Sound(t) && i <= j < |t.messages|
    ensures t.messages[i].run <= t.messages[j].run
  {
    if i < j {
      RunsIncrease(t, i, j - 1);
      assert SoundRow(t, j);
    }
  }

  lemma {:induction false} PathRunsAreOnPath(t: Tables, m: nat, r: nat)
    requires ParentsFirst(t) && m < |t.messages|
    ensures r in PathRuns(t, m) <==> RunOnPath(t, m, r)
    decreases m
  {
    var x, path := t.messages[m], Path(t, m);
    assert path[|path| - 1] == m;
    if x.parent.Some? {
      var above := Path(t, x.parent.value);
      PathRunsAreOnPath(t, x.parent.value, r);
      PathRunsAreOnPath(t, x.parent.value, x.run);
      assert path == above + [m];
      assert above[|above| - 1] == x.parent.value;
      if RunOnPath(t, x.parent.value, r) {
        var i :| 0 <= i < |above| && t.messages[above[i]].run == r;
        assert path[i] == above[i];
      }
      if RunOnPath(t, m, r) && r != x.run {
        var i :| 0 <= i < |path| && t.messages[path[i]].run == r;
        assert path[i] == above[i];
      }
    }
  }

  lemma {:induction false} IncreasingIsUnique(a: seq<nat>, b: seq<nat>)
    requires Increasing(a) && Increasing(b) && forall x: nat :: x in a <==> x in b
    ensures a == b
  {
    if a != [] {
      assert a[0] in b;
    }
    if b != [] {
      assert b[0] in a;
    }
    if a != [] && b != [] {
      var m, n := |a| - 1, |b| - 1;
      assert a[m] in b && b[n] in a;
      assert a[m] == b[n];
      forall x: nat
        ensures x in a[..m] <==> x in b[..n]
      {
        assert x in a[..m] ==> x in a && x < a[m];
        assert x in b[..n] ==> x in b && x < b[n];
      }
      IncreasingIsUnique(a[..m], b[..n]);
      assert a == a[..m] + [a[m]] && b == b[..n] + [b[n]];
    }
  }

  /** The query has exactly one answer: the runs met on the path, ending with the run of the message itself. */
  lemma {:induction false} PathQueryAnswer(t: Tables, m: nat, runs: seq<nat>)
    requires Sound(t) && ParentsFirst(t) && m < |t.messages| && AnswersPathQuery(t, m, runs)
    ensures runs == PathRuns(t, m)
    ensures runs != [] && runs[|runs| - 1] == t.messages[m].run && t.messages[m].run < |t.runs|
  {
    PathRunsShape(t, m);
    forall i, j | 0 <= i < j < |runs|
      ensures runs[i] < runs[j]
    {
      assert t.runs[runs[i]].completedAt <= t.runs[runs[j]].completedAt;
    }
    forall r: nat
      ensures r in runs <==> r in PathRuns(t, m)
    {
      PathRunsAreOnPath(t, m, r);
    }
    IncreasingIsUnique(runs, PathRuns(t, m));
  }

  // ---- paths cut into whole runs ----

  /** The messages a run wrote among the first `n`. */
  function RunMessages(t: Tables, run: nat, n: nat): seq<nat>
    requires n <= |t.messages|
  {
    if n == 0 then []
    else RunMessages(t, run, n - 1) + (if t.messages[n - 1].run == run then [n - 1] else [])
  }

  /** All messages of several runs, run after run. */
  function AllMessages(t: Tables, runs: seq<nat>): seq<nat> {
    if runs == [] then []
    else AllMessages(t, runs[..|runs| - 1]) + RunMessages(t, runs[|runs| - 1], |t.messages|)
  }

  /** `m` is the last message of its run. */
  predicate EndsRun(t: Tables, m: nat)
    requires m < |t.messages|
  {
    m + 1 < |t.messages| ==> t.messages[m + 1].run != t.messages[m].run
  }

  /** The message that the run of `m` replied to. */
  function RepliedTo(t: Tables, m: nat): (p: Option<nat>)
    requires ParentsFirst(t) && m < |t.messages|
    ensures p.Some? ==> p.value < m
    decreases m
  {
    if Continues(t, m) then RepliedTo(t, t.messages[m].parent.value) else t.messages[m].parent
  }

  /** On the way up from `m`, every run was entered at its last message. */
  predicate AtEndsOnly(t: Tables, m: nat)
    requires ParentsFirst(t) && m < |t.messages|
    decreases m
  {
    EndsRun(t, m) && (RepliedTo(t, m).Some? ==> AtEndsOnly(t, RepliedTo(t, m).value))
  }

  lemma {:induction false} NotYetWritten(t: Tables, run: nat, n: nat)
    requires Sound(t) && n <= |t.messages| && (n > 0 ==> t.messages[n - 1].run < run)
    ensures RunMessages(t, run, n) == []
  {
    if n > 0 {
      RunsIncrease(t, if n > 1 then n - 2 else 0, n - 1);
      NotYetWritten(t, run, n - 1);
    }
  }

  lemma {:induction false} ContinuesPrevious(t: Tables, m: nat)
    requires Sound(t) && ParentsFirst(t) && m < |t.messages| && Continues(t, m)
    ensures m > 0 && t.messages[m].parent == Some(m - 1)
  {
    var p := t.messages[m].parent.value;
    RunsIncrease(t, p, m - 1);
    RunsIncrease(t, m - 1, m);
    assert SoundRow(t, m);
  }

  lemma {:induction false} StartsItsRun(t: Tables, m: nat)
    requires Sound(t) && ParentsFirst(t) && m < |t.messages| && !Continues(t, m)
    ensures RunMessages(t, t.messages[m].run, m) == []
  {
    assert SoundRow(t, m);
    NotYetWritten(t, t.messages[m].run, m);
  }

  lemma {:induction false} RegroupPath(a: seq<nat>, b: seq<nat>, c: seq<nat>)
    ensures (a + b) + c == a + (b + c)
  {
  }

  /** The path to a message is the path to what its run replied to, and then the run's messages so far. */
  lemma {:induction false} PathByRun(t: Tables, m: nat)
    requires Sound(t) && ParentsFirst(t) && m < |t.messages|
    ensures var above, run := RepliedTo(t, m), t.messages[m].run;
      && Path(t, m) == (if above.Some? then Path(t, above.value) else []) + RunMessages(t, run, m + 1)
      && PathRuns(t, m) == (if above.Some? then PathRuns(t, above.value) else []) + [run]
    decreases m
  {
    var run, above := t.messages[m].run, RepliedTo(t, m);
    if Continues(t, m) {
      ContinuesPrevious(t, m);
      PathByRun(t, m - 1);
      assert Path(t, m) == Path(t, m - 1) + [m] && PathRuns(t, m) == PathRuns(t, m - 1);
      assert RunMessages(t, run, m + 1) == RunMessages(t, run, m) + [m];
      RegroupPath(if above.Some? then Path(t, above.value) else [], RunMessages(t, run, m), [m]);
    } else {
      StartsItsRun(t, m);
      assert RunMessages(t, run, m + 1) == [m];
    }
  }

  lemma {:induction false} RunMessagesGrow(t: Tables, run: nat, m: nat, n: nat)
    requires m <= n <= |t.messages|
    ensures |RunMessages(t, run, m)| <= |RunMessages(t, run, n)|
  {
    if m < n {
      RunMessagesGrow(t, run, m, n - 1);
    }
  }

  lemma {:induction false} NothingAfterTheEnd(t: Tables, m: nat, n: nat)
    requires Sound(t) && m < n <= |t.messages| && EndsRun(t, m)
    ensures RunMessages(t, t.messages[m].run, n) == RunMessages(t, t.messages[m].run, m + 1)
  {
    if n > m + 1 {
      NothingAfterTheEnd(t, m, n - 1);
      RunsIncrease(t, m, m + 1);
      RunsIncrease(t, m + 1, n - 1);
    }
  }

  /** All of a run is written up to `m` exactly when `m` ends the run. */
  lemma {:induction false} RunIsCompleteIff(t: Tables, m: nat)
    requires Sound(t) && m < |t.messages|
    ensures var run := t.messages[m].run;
      && |RunMessages(t, run, m + 1)| <= |RunMessages(t, run, |t.messages|)|
      && (|RunMessages(t, run, m + 1)| == |RunMessages(t, run, |t.messages|)| <==> EndsRun(t, m))
      && (EndsRun(t, m) ==> RunMessages(t, run, m + 1) == RunMessages(t, run, |t.messages|))
  {
    var run := t.messages[m].run;
    RunMessagesGrow(t, run, m + 1, |t.messages|);
    if EndsRun(t, m) {
      NothingAfterTheEnd(t, m, |t.messages|);
    } else {
      RunMessagesGrow(t, run, m + 2, |t.messages|);
    }
  }

  lemma {:induction false} WholeRunsBound(t: Tables, m: nat)
    requires Sound(t) && ParentsFirst(t) && m < |t.messages|
    ensures |Path(t, m)| <= |AllMessages(t, PathRuns(t, m))|
    ensures |Path(t, m)| == |AllMessages(t, PathRuns(t, m))| <==> AtEndsOnly(t, m)
    ensures AtEndsOnly(t, m) ==> Path(t, m) == AllMessages(t, PathRuns(t, m))
    decreases m
  {
    var above, runs := RepliedTo(t, m), PathRuns(t, m);
    PathByRun(t, m);
    RunIsCompleteIff(t, m);
    assert runs[..|runs| - 1] == if above.Some? then PathRuns(t, above.value) else [];
    if above.Some? {
      WholeRunsBound(t, above.value);
    }
  }

  /**
   The runs the query returns hold exactly the messages on the path, in order, if and only if every run
   on the way was replied to at its last message; otherwise they hold more messages than the path.
   */
  lemma {:induction false} HistoryIsThePathIff(t: Tables, m: nat, runs: seq<nat>)
    requires Sound(t) && ParentsFirst(t) && m < |t.messages| && AnswersPathQuery(t, m, runs)
    ensures AllMessages(t, runs) == Path(t, m) <==> AtEndsOnly(t, m)
    ensures !AtEndsOnly(t, m) ==> |AllMessages(t, runs)| > |Path(t, m)|
  {
    PathQueryAnswer(t, m, runs);
    WholeRunsBound(t, m);
  }

  /** Every run replied to the last message of an earlier run, or started its conversation. */
  ghost predicate RepliesAtEnds(t: Tables)
    requires ParentsFirst(t)
  {
    forall i: nat | i < |t.messages| && !Continues(t, i) ::
      t.messages[i].parent.Some? ==> EndsRun(t, t.messages[i].parent.value)
  }

  lemma {:induction false} RepliedToEnds(t: Tables, m: nat)
    requires ParentsFirst(t) && m < |t.messages| && RepliesAtEnds(t)
    ensures RepliedTo(t, m).Some? ==> EndsRun(t, RepliedTo(t, m).value)
    decreases m
  {
    if Continues(t, m) {
      RepliedToEnds(t, t.messages[m].parent.value);
    }
  }

  /** Where replies attach to the ends of runs only, the history of a run's last message is its path. */
  lemma {:induction false} HistoryOfAnEnd(t: Tables, m: nat)
    requires ParentsFirst(t) && m < |t.messages| && RepliesAtEnds(t) && EndsRun(t, m)
    ensures AtEndsOnly(t, m)
    decreases m
  {
    RepliedToEnds(t, m);
    if RepliedTo(t, m).Some? {
      HistoryOfAnEnd(t, RepliedTo(t, m).value);
    }
  }

  // ---- what a persisted run leaves ----

  /** The rows of a persisted run: its own row, and one message an id, each below the one before it. */
  lemma {:induction false} PersistedRows(t: Tables, f: Finished)
    ensures var u, n := Persisted(t, f), |t.messages|;
      && u.runs == t.runs + [Run(f.conv, f.at, f.text)]
      && |u.messages| == n + |f.ids| && u.messages[..n] == t.messages
      && forall k: nat | k < |f.ids| ::
           && u.messages[n + k].conv == f.conv && u.messages[n + k].run == |t.runs|
           && u.messages[n + k].clientId == f.ids[k]
           && u.messages[n + k].parent == if k == 0 then f.parent else Some(n + k - 1)
  {
    var n := |t.messages|;
    ChainAt(n, f.conv, |t.runs|, f.parent, NextPosition(t.messages, f.conv, f.parent), f.ids);
  }

  /** The client named its own message. */
  predicate NamesItsMessage(options: Option<Options>) {
    options.Some? && options.value.clientId != ""
  }

  /** The client named the answer it expects. */
  predicate NamesItsAnswer(options: Option<Options>) {
    options.Some? && options.value.responseClientId.Some? && options.value.responseClientId.value != ""
  }

  /** The client's own ids go to its user messages and to a closing assistant message; all others are generated. */
  lemma {:induction false} ChosenIds(kinds: seq<Kind>, options: Option<Options>, generated: seq<string>, i: nat)
    requires i < |kinds| == |generated|
    ensures var id, last := ClientIds(kinds, options, generated, |kinds|)[i], i == |kinds| - 1;
      && (kinds[i] == User && NamesItsMessage(options) ==> id == options.value.clientId)
      && (kinds[i] == User && !NamesItsMessage(options) ==> id == generated[i])
      && (kinds[i] == Assistant && last && NamesItsAnswer(options) ==> Some(id) == options.value.responseClientId)
      && (kinds[i] == Assistant && !(last && NamesItsAnswer(options)) ==> id == generated[i])
  {
  }

  /** After the run is written, the id the client gave names its message and no other of the conversation. */
  lemma {:induction false} ClientFindsItsMessage(t: Tables, f: Finished, kinds: seq<Kind>, options: Option<Options>,
                                                 generated: seq<string>, i: nat)
    requires Sound(t) && GoodParent(t, f.conv, f.parent) && Later(t, f.at) && i < |kinds| == |generated|
    requires f.ids == ClientIds(kinds, options, generated, |kinds|) && NewClientIds(t.messages, f.conv, f.ids)
    requires kinds[i] == User && NamesItsMessage(options)
    ensures var u := Persisted(t, f);
      && |t.messages| + i < |u.messages|
      && forall j: nat | j < |u.messages| ::
           u.messages[j].conv == f.conv && u.messages[j].clientId == options.value.clientId <==> j == |t.messages| + i
  {
    var u, n := Persisted(t, f), |t.messages|;
    PersistedRows(t, f);
    ChosenIds(kinds, options, generated, i);
    PersistKeepsSound(t, f);
    forall j: nat | j < |u.messages|
      ensures u.messages[j].conv == f.conv && u.messages[j].clientId == f.ids[i] <==> j == n + i
    {
      if u.messages[j].conv == f.conv && j != n + i {
        IdsAreUnique(u, if j < n + i then j else n + i, if j < n + i then n + i else j);
      }
    }
  }

  lemma {:induction false} IdsAreUnique(t: Tables, i: nat, j: nat)
    requires Sound(t) && i < j < |t.messages| && t.messages[i].conv == t.messages[j].conv
    ensures t.messages[i].clientId != t.messages[j].clientId
  {
    assert SoundRow(t, j);
    assert t.messages[..j][i] == t.messages[i];
  }

  /** A run with two user messages and an id from the client is never written: both would get that id. */
  lemma {:induction false} TwoUserMessagesAreRefused(messages: seq<Message>, conv: nat, kinds: seq<Kind>,
                                                     options: Option<Options>, generated: seq<string>, i: nat, j: nat)
    requires i < j < |kinds| == |generated| && kinds[i] == User && kinds[j] == User && NamesItsMessage(options)
    ensures !NewClientIds(messages, conv, ClientIds(kinds, options, generated, |kinds|))
  {
    var ids := ClientIds(kinds, options, generated, |kinds|);
    ChosenIds(kinds, options, generated, i);
    ChosenIds(kinds, options, generated, j);
    assert ids[i] == ids[j];
  }

  /** A conversation of one run that wrote two messages. */
  function OneRun(): Tables {
    Tables([Message(0, 0, "q", None, 0), Message(0, 0, "a", Some(0), 0)], [Run(0, 1, "")])
  }

  lemma {:induction false} OneRunIsReachable()
    ensures Admissible([Finished(0, None, 1, "", ["q", "a"])])
    ensures After([Finished(0, None, 1, "", ["q", "a"])]) == OneRun()
  {
    var f := Finished(0, None, 1, "", ["q", "a"]);
    var fs, empty := [f], Tables([], []);
    assert fs[..0] == [] && After(fs[..0]) == empty;
    assert f.ids[0][0] != f.ids[1][0];
    assert NewClientIds(empty.messages, f.conv, f.ids);
    ChainAt(0, 0, 0, None, 0, f.ids);
    assert Persisted(empty, f).messages == OneRun().messages;
  }

  /**
   Replying to the first of its messages is allowed, in a conversation that can come about, and the runs
   sent with the reply hold more messages than the path to it.
   */
  lemma {:induction false} MidRunReplySeesTooMuch()
    ensures Admissible([Finished(0, None, 1, "", ["q", "a"])])
    ensures After([Finished(0, None, 1, "", ["q", "a"])]) == OneRun()
    ensures Sound(OneRun()) && ParentsFirst(OneRun()) && GoodParent(OneRun(), 0, Some(0))
    ensures AnswersPathQuery(OneRun(), 0, [0])
    ensures forall runs | AnswersPathQuery(OneRun(), 0, runs) ::
      |AllMessages(OneRun(), runs)| > |Path(OneRun(), 0)|
  {
    OneRunIsReachable();
    EveryConversationIsSound([Finished(0, None, 1, "", ["q", "a"])]);
    PathOfFirst();
    forall runs | AnswersPathQuery(OneRun(), 0, runs)
      ensures |AllMessages(OneRun(), runs)| > |Path(OneRun(), 0)|
    {
      HistoryIsThePathIff(OneRun(), 0, runs);
    }
  }

  lemma {:induction false} PathOfFirst()
    requires ParentsFirst(OneRun())
    ensures Path(OneRun(), 0) == [0] && AnswersPathQuery(OneRun(), 0, [0]) && !AtEndsOnly(OneRun(), 0)
  {
    var t := OneRun();
    assert Path(t, 0) == [0] && t.messages[Path(t, 0)[0]].run == 0;
    assert RunOnPath(t, 0, 0);
  }
}
