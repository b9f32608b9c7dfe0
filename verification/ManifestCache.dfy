/** The per-user cache of signed manifests: entries are dropped on demand and by a timer each Add starts. */
module ManifestCache {
  import opened Wrappers

  const KIND_VIDEO := "video"
  const KIND_AUDIO := "audio"

  /** `manifestCacheKey`. */
  function CacheKey(branch: string, kind: string): string {
    branch + ":" + kind
  }

  type Core = map<string, map<string, string>>

  /** A sleeping goroutine that will drop an entry. */
  datatype Timer = Timer(user: string, branch: string, kind: string, due: int)

  function Lookup(core: Core, user: string, key: string): Option<string> {
    if user in core && key in core[user] then Some(core[user][key]) else None
  }

  function Dropped(core: Core, user: string, key: string): Core {
    if user !in core then core
    else
      var inner := core[user] - {key};
      if inner == map[] then core - {user} else core[user := inner]
  }

  function Added(core: Core, user: string, key: string, manifest: string): Core {
    core[user := (if user in core then core[user] else map[])[key := manifest]]
  }

  /** No user maps to an empty session. */
  ghost predicate NoEmptySession(core: Core) {
    forall u | u in core :: core[u] != map[]
  }

  /** `time.Sleep` returns at once for a negative span. */
  function DueTime(now: int, span: int): int {
    now + if span < 0 then 0 else span
  }

  lemma {:induction false} AddedHasNoEmptySession(core: Core, user: string, key: string, manifest: string)
    requires NoEmptySession(core)
    ensures NoEmptySession(Added(core, user, key, manifest))
  {
    assert key in Added(core, user, key, manifest)[user];
  }

  lemma {:induction false} DroppedHasNoEmptySession(core: Core, user: string, key: string)
    requires NoEmptySession(core)
    ensures NoEmptySession(Dropped(core, user, key))
  {
  }

  class ManifestCache {
    var core: Core
    var timers: seq<Timer>

    constructor ()
      ensures core == map[] && timers == []
    {
      core, timers := map[], [];
    }

    method Drop(u: string, b: string, kind: string)
      requires NoEmptySession(core)
      modifies this`core
      ensures NoEmptySession(core)
      ensures core == Dropped(old(core), u, CacheKey(b, kind))
    {
      var key := CacheKey(b, kind);
      DroppedHasNoEmptySession(core, u, key);
      if u in core {
        core := core[u := core[u] - {key}];
        if |core[u]| == 0 {
          core := core - {u};
        }
      }
    }

    method DropBranch(u: string, b: string)
      requires NoEmptySession(core)
      modifies this`core
      ensures NoEmptySession(core)
      ensures core == Dropped(Dropped(old(core), u, CacheKey(b, KIND_VIDEO)), u, CacheKey(b, KIND_AUDIO))
    {
      Drop(u, b, KIND_VIDEO);
      Drop(u, b, KIND_AUDIO);
    }

    method Find(u: string, b: string, kind: string) returns (r: Option<string>)
      ensures r == Lookup(core, u, CacheKey(b, kind))
    {
      if u in core && CacheKey(b, kind) in core[u] {
        return Some(core[u][CacheKey(b, kind)]);
      }
      return None;
    }

    method Add(u: string, b: string, kind: string, manifest: string, span: int, now: int)
      requires NoEmptySession(core)
      modifies this
      ensures NoEmptySession(core)
      ensures core == Added(old(core), u, CacheKey(b, kind), manifest)
      ensures timers == old(timers) + [Timer(u, b, kind, DueTime(now, span))]
    {
      var key := CacheKey(b, kind);
      AddedHasNoEmptySession(core, u, key, manifest);
      if u !in core {
        core := core[u := map[]];
      }
      core := core[u := core[u][key := manifest]];
      timers := timers + [Timer(u, b, kind, DueTime(now, span))];
    }
  }

  // ---- keys ----

  predicate IsKind(kind: string) {
    kind == KIND_VIDEO || kind == KIND_AUDIO
  }

  /** For the two kinds in use, the key determines branch and kind. */
  lemma {:induction false} CacheKeyInjective(b: string, k: string, c: string, l: string)
    requires IsKind(k) && IsKind(l) && CacheKey(b, k) == CacheKey(c, l)
    ensures b == c && k == l
  {
    var key := CacheKey(b, k);
    assert k[0] == key[|key| - 5] && l[0] == key[|key| - 5];
    assert b == key[..|key| - 6] && c == key[..|key| - 6];
  }

  /** For arbitrary kinds it does not: a branch id containing a colon is enough. */
  lemma {:induction false} CacheKeyNotInjectiveInGeneral()
    ensures CacheKey("a:b", "c") == CacheKey("a", "b:c") && "a:b" != "a"
  {
  }

  // ---- lookups ----

  lemma {:induction false} LookupAfterDrop(core: Core, user: string, key: string, v: string, k: string)
    ensures Lookup(Dropped(core, user, key), v, k) ==
            if v == user && k == key then None else Lookup(core, v, k)
  {
    if v == user && user in core && k in core[user] && k != key {
      assert k in core[user] - {key};
    }
  }

  lemma {:induction false} LookupAfterAdd(core: Core, user: string, key: string, manifest: string, v: string, k: string)
    ensures Lookup(Added(core, user, key, manifest), v, k) ==
            if v == user && k == key then Some(manifest) else Lookup(core, v, k)
  {
    var inner := (if user in core then core[user] else map[])[key := manifest];
    if v == user && k != key {
      assert k in inner <==> user in core && k in core[user];
    }
  }

  /** Dropping a branch removes its two manifests and nothing else. */
  lemma {:induction false} DropBranchIsExact(core: Core, user: string, b: string, v: string, c: string, kind: string)
    requires IsKind(kind)
    ensures Lookup(Dropped(Dropped(core, user, CacheKey(b, KIND_VIDEO)), user, CacheKey(b, KIND_AUDIO)), v,
         CacheKey(c, kind))
            == if v == user && c == b then None else Lookup(core, v, CacheKey(c, kind))
  {
    var first := Dropped(core, user, CacheKey(b, KIND_VIDEO));
    LookupAfterDrop(core, user, CacheKey(b, KIND_VIDEO), v, CacheKey(c, kind));
    LookupAfterDrop(first, user, CacheKey(b, KIND_AUDIO), v, CacheKey(c, kind));
    if CacheKey(c, kind) == CacheKey(b, KIND_VIDEO) { CacheKeyInjective(c, kind, b, KIND_VIDEO); }
    if CacheKey(c, kind) == CacheKey(b, KIND_AUDIO) { CacheKeyInjective(c, kind, b, KIND_AUDIO); }
  }

  // ---- runs ----

  /** When an entry was signed to expire, when its span was computed and when it was added. */
  datatype Facts = Facts(expiry: int, computed: int, added: int)

  /** Cache, timers, clock, and the facts about each entry. */
  datatype World = World(core: Core, timers: seq<Timer>, now: int, facts: map<(string, string), Facts>)

  datatype Op =
    | Add(user: string, branch: string, kind: string, manifest: string, expiry: int, computed: int)
    | Drop(user: string, branch: string, kind: string)
    | Fire(timer: nat)      // a timer wakes up and drops its entry
    | Tick(ms: nat)         // time passes

  /** Timers wake up no more than `slack` after they are due. */
  predicate Enabled(w: World, op: Op, slack: nat) {
    match op
    case Add(_, _, _, _, _, computed) => computed <= w.now
    case Drop(_, _, _) => true
    case Fire(i) => i < |w.timers| && w.timers[i].due <= w.now
    case Tick(ms) => forall i | 0 <= i < |w.timers| :: w.now + ms <= w.timers[i].due + slack
  }

  function Step(w: World, op: Op): World
    requires op.Fire? ==> op.timer < |w.timers|
  {
    match op
    case Add(u, b, kind, manifest, expiry, computed) =>
      var key := CacheKey(b, kind);
      World(Added(w.core, u, key, manifest),
            w.timers + [Timer(u, b, kind, DueTime(w.now, expiry - computed))],
            w.now, w.facts[(u, key) := Facts(expiry, computed, w.now)])
    case Drop(u, b, kind) =>
      w.(core := Dropped(w.core, u, CacheKey(b, kind)), facts := w.facts - {(u, CacheKey(b, kind))})
    case Fire(i) =>
      var t := w.timers[i];
      w.(core := Dropped(w.core, t.user, CacheKey(t.branch, t.kind)),
         timers := w.timers[..i] + w.timers[i + 1..],
         facts := w.facts - {(t.user, CacheKey(t.branch, t.kind))})
    case Tick(ms) => w.(now := w.now + ms)
  }

  /** The world after more operations, provided each is possible in its turn. */
  function Continue(w: World, ops: seq<Op>, slack: nat): Option<World> {
    if ops == [] then Some(w)
    else
      var n := |ops| - 1;
      match Continue(w, ops[..n], slack)
      case None => None
      case Some(v) => if Enabled(v, ops[n], slack) then Some(Step(v, ops[n])) else None
  }

  function Run(ops: seq<Op>, slack: nat, start: int): Option<World> {
    Continue(World(map[], [], start, map[]), ops, slack)
  }

  /** The time the entry's own timer is due. */
  function Deadline(f: Facts): int {
    DueTime(f.added, f.expiry - f.computed)
  }

  /** The timer drops the entry of that user and key. */
  predicate OnKey(t: Timer, user: string, key: string) {
    t.user == user && CacheKey(t.branch, t.kind) == key
  }

  ghost predicate HasTimer(timers: seq<Timer>, user: string, key: string, due: int) {
    exists i :: 0 <= i < |timers| && OnKey(timers[i], user, key) && timers[i].due == due
  }

  ghost predicate Guarded(w: World, slack: nat) {
    && NoEmptySession(w.core)
    && (forall u, k :: (u, k) in w.facts <==> Lookup(w.core, u, k).Some?)
    && (forall u, k | (u, k) in w.facts ::
          HasTimer(w.timers, u, k, Deadline(w.facts[(u, k)])) && w.facts[(u, k)].computed <= w.facts[(u, k)].added)
    && (forall i | 0 <= i < |w.timers| :: w.now <= w.timers[i].due + slack)
  }

  lemma {:induction false} TimerStays(timers: seq<Timer>, i: nat, user: string, key: string, due: int)
    requires i < |timers| && HasTimer(timers, user, key, due)
    requires !OnKey(timers[i], user, key)
    ensures HasTimer(timers[..i] + timers[i + 1..], user, key, due)
  {
    var rest := timers[..i] + timers[i + 1..];
    var j :| 0 <= j < |timers| && OnKey(timers[j], user, key) && timers[j].due == due;
    assert rest[if j < i then j else j - 1] == timers[j];
  }

  lemma {:induction false} GuardedDrop(w: World, user: string, key: string, slack: nat)
    requires Guarded(w, slack)
    ensures Guarded(w.(core := Dropped(w.core, user, key), facts := w.facts - {(user, key)}), slack)
  {
    var v := w.(core := Dropped(w.core, user, key), facts := w.facts - {(user, key)});
    forall u, k ensures (u, k) in v.facts <==> Lookup(v.core, u, k).Some? {
      LookupAfterDrop(w.core, user, key, u, k);
    }
  }

  lemma {:induction false} GuardedAdd(w: World, op: Op, slack: nat)
    requires Guarded(w, slack) && op.Add? && Enabled(w, op, slack)
    ensures Guarded(Step(w, op), slack)
  {
    var v, key := Step(w, op), CacheKey(op.branch, op.kind);
    forall u, k ensures (u, k) in v.facts <==> Lookup(v.core, u, k).Some? {
    }
    forall u, k | (u, k) in v.facts ensures HasTimer(v.timers, u, k, Deadline(v.facts[(u, k)])) {
      if u == op.user && k == key {
        assert v.timers[|w.timers|] == Timer(op.user, op.branch, op.kind, Deadline(v.facts[(u, k)]));
      } else {
        var due := Deadline(w.facts[(u, k)]);
        var i :| 0 <= i < |w.timers| && OnKey(w.timers[i], u, k) && w.timers[i].due == due;
        assert v.timers[i] == w.timers[i];
      }
    }
  }

  lemma {:induction false} GuardedFire(w: World, i: nat, slack: nat)
    requires Guarded(w, slack) && i < |w.timers|
    ensures Guarded(Step(w, Fire(i)), slack)
  {
    var t, v := w.timers[i], Step(w, Fire(i));
    var key := CacheKey(t.branch, t.kind);
    GuardedDrop(w, t.user, key, slack);
    forall u, k | (u, k) in v.facts ensures HasTimer(v.timers, u, k, Deadline(v.facts[(u, k)])) {
      TimerStays(w.timers, i, u, k, Deadline(w.facts[(u, k)]));
    }
    forall j | 0 <= j < |v.timers| ensures v.now <= v.timers[j].due + slack {
      assert v.timers[j] == w.timers[if j < i then j else j + 1];
    }
  }

  lemma {:induction false} GuardedStep(w: World, op: Op, slack: nat)
    requires Guarded(w, slack) && Enabled(w, op, slack)
    ensures Guarded(Step(w, op), slack)
  {
    match op
    case Add(_, _, _, _, _, _) => GuardedAdd(w, op, slack);
    case Drop(u, b, kind) => GuardedDrop(w, u, CacheKey(b, kind), slack);
    case Fire(i) => GuardedFire(w, i, slack);
    case Tick(_) =>
  }

  lemma {:induction false} GuardedContinue(w: World, ops: seq<Op>, slack: nat)
    requires Guarded(w, slack) && Continue(w, ops, slack).Some?
    ensures Guarded(Continue(w, ops, slack).value, slack)
  {
    if ops != [] {
      var n := |ops| - 1;
      GuardedContinue(w, ops[..n], slack);
      GuardedStep(Continue(w, ops[..n], slack).value, ops[n], slack);
    }
  }

  lemma {:induction false} GuardedRun(ops: seq<Op>, slack: nat, start: int)
    requires Run(ops, slack, start).Some?
    ensures Guarded(Run(ops, slack, start).value, slack)
  {
    GuardedContinue(World(map[], [], start, map[]), ops, slack);
  }

  /**
   Whatever Adds, Drops and timers overlapped: every cached manifest has a pending timer on its own key,
   is never served more than the timers' slack after that timer is due, and no session is empty.
   */
  lemma {:induction false} CachedEntriesExpire(ops: seq<Op>, slack: nat, start: int, user: string, key: string)
    requires Run(ops, slack, start).Some?
    ensures NoEmptySession(Run(ops, slack, start).value.core)
    ensures var w := Run(ops, slack, start).value;
      Lookup(w.core, user, key).Some? ==>
        (user, key) in w.facts
        && HasTimer(w.timers, user, key, Deadline(w.facts[(user, key)]))
        && w.now <= Deadline(w.facts[(user, key)]) + slack
  {
    GuardedRun(ops, slack, start);
    var w := Run(ops, slack, start).value;
    if Lookup(w.core, user, key).Some? {
      assert (user, key) in w.facts;
      var i :| 0 <= i < |w.timers| && OnKey(w.timers[i], user, key)
               && w.timers[i].due == Deadline(w.facts[(user, key)]);
    }
  }

  /** A cached manifest is served past its signing expiry by at most the lag of its Add and the slack. */
  lemma {:induction false} ServedUntil(ops: seq<Op>, slack: nat, start: int, user: string, key: string)
    requires Run(ops, slack, start).Some? && Lookup(Run(ops, slack, start).value.core, user, key).Some?
    ensures var w := Run(ops, slack, start).value;
      && (user, key) in w.facts
      && var f := w.facts[(user, key)];
         f.computed <= f.expiry ==> w.now <= f.expiry + (f.added - f.computed) + slack
  {
    GuardedRun(ops, slack, start);
    CachedEntriesExpire(ops, slack, start, user, key);
  }

  // ---- expiry ----

  /** An Add whose span was computed at the moment of the Add, for a manifest not expired yet. */
  predicate IsPrompt(w: World, op: Op) {
    op.Add? ==> op.computed == w.now && op.computed <= op.expiry
  }

  ghost predicate AllPrompt(ops: seq<Op>, slack: nat, start: int)
    requires Run(ops, slack, start).Some?
  {
    ops != [] ==>
      var n := |ops| - 1;
      AllPrompt(ops[..n], slack, start) && IsPrompt(Run(ops[..n], slack, start).value, ops[n])
  }

  lemma {:induction false} PromptFacts(ops: seq<Op>, slack: nat, start: int, user: string, key: string)
    requires Run(ops, slack, start).Some? && AllPrompt(ops, slack, start)
    requires (user, key) in Run(ops, slack, start).value.facts
    ensures var f := Run(ops, slack, start).value.facts[(user, key)]; f.computed == f.added && f.computed <= f.expiry
  {
    var n := |ops| - 1;
    var w := Run(ops[..n], slack, start).value;
    if (user, key) in w.facts {
      PromptFacts(ops[..n], slack, start, user, key);
    }
  }

  /**
   If every Add of a run is prompt, every cached manifest has a pending timer on its own key due at its
   signing expiry, so none is served past it by more than the timers' slack.
   */
  lemma {:induction false} PromptEntriesExpireInTime(ops: seq<Op>, slack: nat, start: int, user: string, key: string)
    requires Run(ops, slack, start).Some? && AllPrompt(ops, slack, start)
    requires Lookup(Run(ops, slack, start).value.core, user, key).Some?
    ensures var w := Run(ops, slack, start).value;
      && (user, key) in w.facts
      && HasTimer(w.timers, user, key, w.facts[(user, key)].expiry)
      && w.now <= w.facts[(user, key)].expiry + slack
  {
    CachedEntriesExpire(ops, slack, start, user, key);
    PromptFacts(ops, slack, start, user, key);
  }

  /** Some pending timer of the key is due by `time`. */
  ghost predicate TimerBy(timers: seq<Timer>, user: string, key: string, time: int) {
    exists i :: 0 <= i < |timers| && OnKey(timers[i], user, key) && timers[i].due <= time
  }

  /** The operation replaces or drops the entry. */
  predicate Touches(w: World, op: Op, user: string, key: string) {
    match op
    case Add(u, b, kind, _, _, _) => u == user && CacheKey(b, kind) == key
    case Drop(u, b, kind) => u == user && CacheKey(b, kind) == key
    case Fire(i) => i < |w.timers| && OnKey(w.timers[i], user, key)
    case Tick(_) => false
  }

  /** None of the operations replaces or drops the entry. */
  ghost predicate Stays(w: World, ops: seq<Op>, slack: nat, user: string, key: string)
    requires Continue(w, ops, slack).Some?
  {
    ops != [] ==>
      var n := |ops| - 1;
      Stays(w, ops[..n], slack, user, key) && !Touches(Continue(w, ops[..n], slack).value, ops[n], user, key)
  }

  /** The two worlds agree on the entry and on the timers of its key. */
  ghost predicate SameEntry(w: World, v: World, user: string, key: string) {
    && Lookup(v.core, user, key) == Lookup(w.core, user, key)
    && ((user, key) in v.facts <==> (user, key) in w.facts)
    && ((user, key) in w.facts ==> v.facts[(user, key)] == w.facts[(user, key)])
    && (forall due :: HasTimer(v.timers, user, key, due) <==> HasTimer(w.timers, user, key, due))
  }

  lemma {:induction false} TimersWithout(timers: seq<Timer>, i: nat, user: string, key: string, due: int)
    requires i < |timers| && !OnKey(timers[i], user, key)
    ensures HasTimer(timers[..i] + timers[i + 1..], user, key, due) <==> HasTimer(timers, user, key, due)
  {
    var rest := timers[..i] + timers[i + 1..];
    if HasTimer(timers, user, key, due) {
      TimerStays(timers, i, user, key, due);
    }
    if HasTimer(rest, user, key, due) {
      var j :| 0 <= j < |rest| && OnKey(rest[j], user, key) && rest[j].due == due;
      assert timers[if j < i then j else j + 1] == rest[j];
    }
  }

  lemma {:induction false} TimersWith(timers: seq<Timer>, t: Timer, user: string, key: string, due: int)
    ensures HasTimer(timers + [t], user, key, due)
            <==> HasTimer(timers, user, key, due) || (OnKey(t, user, key) && t.due == due)
  {
    var more := timers + [t];
    assert more[|timers|] == t;
    if HasTimer(timers, user, key, due) {
      var j :| 0 <= j < |timers| && OnKey(timers[j], user, key) && timers[j].due == due;
      assert more[j] == timers[j];
    }
  }

  lemma {:induction false} UntouchedStep(w: World, op: Op, slack: nat, user: string, key: string)
    requires Enabled(w, op, slack) && !Touches(w, op, user, key)
    ensures SameEntry(w, Step(w, op), user, key)
  {
    match op
    case Add(u, b, kind, _, expiry, computed) =>
      forall due
        ensures HasTimer(Step(w, op).timers, user, key, due) <==> HasTimer(w.timers, user, key, due)
      {
        TimersWith(w.timers, Timer(u, b, kind, DueTime(w.now, expiry - computed)), user, key, due);
      }
    case Drop(u, b, kind) => LookupAfterDrop(w.core, u, CacheKey(b, kind), user, key);
    case Fire(i) =>
      LookupAfterDrop(w.core, w.timers[i].user, CacheKey(w.timers[i].branch, w.timers[i].kind), user, key);
      forall due
        ensures HasTimer(Step(w, op).timers, user, key, due) <==> HasTimer(w.timers, user, key, due)
      {
        TimersWithout(w.timers, i, user, key, due);
      }
    case Tick(_) =>
  }

  lemma {:induction false} StaysTheSame(w: World, ops: seq<Op>, slack: nat, user: string, key: string)
    requires Continue(w, ops, slack).Some? && Stays(w, ops, slack, user, key)
    ensures SameEntry(w, Continue(w, ops, slack).value, user, key)
  {
    if ops != [] {
      var n := |ops| - 1;
      StaysTheSame(w, ops[..n], slack, user, key);
      UntouchedStep(Continue(w, ops[..n], slack).value, ops[n], slack, user, key);
    }
  }

  lemma {:induction false} ContinueAppend(w: World, a: seq<Op>, b: seq<Op>, slack: nat, user: string, key: string)
    requires Continue(w, a, slack).Some? && Continue(Continue(w, a, slack).value, b, slack).Some?
    requires Stays(w, a, slack, user, key) && Stays(Continue(w, a, slack).value, b, slack, user, key)
    ensures Continue(w, a + b, slack) == Continue(Continue(w, a, slack).value, b, slack)
    ensures Stays(w, a + b, slack, user, key)
  {
    if b == [] {
      assert a + b == a;
    } else {
      var n := |b| - 1;
      assert (a + b)[..|a + b| - 1] == a + b[..n];
      ContinueAppend(w, a, b[..n], slack, user, key);
    }
  }

  lemma {:induction false} OneOp(w: World, op: Op, slack: nat, user: string, key: string)
    requires Enabled(w, op, slack) && !Touches(w, op, user, key)
    ensures Continue(w, [op], slack) == Some(Step(w, op)) && Stays(w, [op], slack, user, key)
  {
    assert [op][..0] == [];
  }

  lemma {:induction false} EarliestTimer(timers: seq<Timer>) returns (i: nat)
    requires timers != []
    ensures i < |timers| && forall j | 0 <= j < |timers| :: timers[i].due <= timers[j].due
  {
    i := 0;
    for k := 0 to |timers|
      invariant i < |timers| && forall j | 0 <= j < k :: timers[i].due <= timers[j].due
    {
      if timers[k].due < timers[i].due {
        i := k;
      }
    }
  }

  /** The entry is still cached more than the timers' slack after its expiry. */
  ghost predicate Outlives(w: World, more: seq<Op>, slack: nat, user: string, key: string)
    requires (user, key) in w.facts
  {
    && Continue(w, more, slack).Some? && Stays(w, more, slack, user, key)
    && Continue(w, more, slack).value.now > w.facts[(user, key)].expiry + slack
  }

  /** Without a timer due by the expiry, time can pass it while the entry is served: other timers fire as they must. */
  lemma {:induction false} Outlast(w: World, user: string, key: string, slack: nat) returns (more: seq<Op>)
    requires Guarded(w, slack) && (user, key) in w.facts
    requires !TimerBy(w.timers, user, key, w.facts[(user, key)].expiry)
    ensures Outlives(w, more, slack, user, key)
    decreases |w.timers|
  {
    var target := w.facts[(user, key)].expiry + slack + 1;
    if w.now >= target {
      return [];
    }
    var due := Deadline(w.facts[(user, key)]);
    assert HasTimer(w.timers, user, key, due);
    var i := EarliestTimer(w.timers);
    if w.timers[i].due + slack >= target {
      more := [Tick(target - w.now)];
      OneOp(w, more[0], slack, user, key);
    } else {
      var wait := Tick(if w.timers[i].due > w.now then w.timers[i].due - w.now else 0);
      var v := Step(w, wait);
      OneOp(w, wait, slack, user, key);
      OneOp(v, Fire(i), slack, user, key);
      UntouchedStep(v, Fire(i), slack, user, key);
      ContinueAppend(w, [wait], [Fire(i)], slack, user, key);
      GuardedContinue(w, [wait] + [Fire(i)], slack);
      var u := Step(v, Fire(i));
      NoTimerBy(w.timers, u.timers, user, key, w.facts[(user, key)].expiry);
      var rest := Outlast(u, user, key, slack);
      more := [wait] + [Fire(i)] + rest;
      ContinueAppend(w, [wait] + [Fire(i)], rest, slack, user, key);
    }
  }

  lemma {:induction false} NoTimerBy(a: seq<Timer>, b: seq<Timer>, user: string, key: string, time: int)
    requires forall due :: HasTimer(b, user, key, due) <==> HasTimer(a, user, key, due)
    ensures TimerBy(a, user, key, time) <==> TimerBy(b, user, key, time)
  {
    if i :| 0 <= i < |a| && OnKey(a[i], user, key) && a[i].due <= time {
      assert HasTimer(b, user, key, a[i].due);
    }
    if i :| 0 <= i < |b| && OnKey(b[i], user, key) && b[i].due <= time {
      assert HasTimer(a, user, key, b[i].due);
    }
  }

  // ---- what is served ----

  /** Operation `j` of the run replaces or drops the entry. */
  ghost predicate TouchesAt(ops: seq<Op>, slack: nat, start: int, j: nat, user: string, key: string)
    requires j < |ops|
  {
    Run(ops[..j], slack, start).Some? && Touches(Run(ops[..j], slack, start).value, ops[j], user, key)
  }

  /** Operation `i` is the last one that touches the entry, and it is an Add. */
  ghost predicate LastWrite(ops: seq<Op>, slack: nat, start: int, i: nat, user: string, key: string) {
    && i < |ops| && ops[i].Add? && ops[i].user == user && CacheKey(ops[i].branch, ops[i].kind) == key
    && forall j: nat | i < j < |ops| :: !TouchesAt(ops, slack, start, j, user, key)
  }

  lemma {:induction false} RunPrefix(ops: seq<Op>, slack: nat, start: int, n: nat)
    requires Run(ops, slack, start).Some? && n <= |ops|
    ensures Run(ops[..n], slack, start).Some?
  {
    if n == |ops| {
      assert ops[..n] == ops;
    } else {
      assert ops[..|ops| - 1][..n] == ops[..n];
      RunPrefix(ops[..|ops| - 1], slack, start, n);
    }
  }

  lemma {:induction false} StepLookup(w: World, op: Op, slack: nat, user: string, key: string)
    requires Enabled(w, op, slack)
    ensures Lookup(Step(w, op).core, user, key) ==
            if !Touches(w, op, user, key) then Lookup(w.core, user, key)
            else if op.Add? then Some(op.manifest) else None
  {
    match op
    case Add(u, b, kind, manifest, _, _) => LookupAfterAdd(w.core, u, CacheKey(b, kind), manifest, user, key);
    case Drop(u, b, kind) => LookupAfterDrop(w.core, u, CacheKey(b, kind), user, key);
    case Fire(i) =>
      var t := w.timers[i];
      LookupAfterDrop(w.core, t.user, CacheKey(t.branch, t.kind), user, key);
    case Tick(_) =>
  }

  /** The last write of a run is that of the run before it, unless the last operation touches the entry. */
  lemma {:induction false} LastWriteStep(ops: seq<Op>, slack: nat, start: int, i: nat, user: string, key: string)
    requires Run(ops, slack, start).Some? && ops != []
    ensures var n := |ops| - 1;
      LastWrite(ops, slack, start, i, user, key) <==>
      if TouchesAt(ops, slack, start, n, user, key) then i == n && ops[n].Add?
      else LastWrite(ops[..n], slack, start, i, user, key)
  {
    var n := |ops| - 1;
    forall j: nat | j < n
      ensures TouchesAt(ops, slack, start, j, user, key) <==> TouchesAt(ops[..n], slack, start, j, user, key)
    {
      assert ops[..n][..j] == ops[..j];
    }
    RunPrefix(ops, slack, start, n);
    if i == n && LastWrite(ops, slack, start, i, user, key) {
      assert TouchesAt(ops, slack, start, n, user, key);
    }
  }

  /**
   In any run a lookup returns the manifest of the last Add of that user and key, provided nothing dropped
   it since; and nothing when there is no such Add.
   */
  lemma {:induction false} ServesTheLastAdd(ops: seq<Op>, slack: nat, start: int, user: string, key: string)
    requires Run(ops, slack, start).Some?
    ensures var found := Lookup(Run(ops, slack, start).value.core, user, key);
      && (forall i: nat | LastWrite(ops, slack, start, i, user, key) :: found == Some(ops[i].manifest))
      && (found.Some? ==> exists i: nat :: LastWrite(ops, slack, start, i, user, key))
  {
    if ops != [] {
      var n := |ops| - 1;
      ServesTheLastAdd(ops[..n], slack, start, user, key);
      StepLookup(Run(ops[..n], slack, start).value, ops[n], slack, user, key);
      var found := Lookup(Run(ops, slack, start).value.core, user, key);
      forall i: nat | LastWrite(ops, slack, start, i, user, key)
        ensures found == Some(ops[i].manifest)
      {
        LastWriteStep(ops, slack, start, i, user, key);
      }
      if found.Some? {
        if TouchesAt(ops, slack, start, n, user, key) {
          LastWriteStep(ops, slack, start, n, user, key);
        } else {
          var i: nat :| LastWrite(ops[..n], slack, start, i, user, key);
          LastWriteStep(ops, slack, start, i, user, key);
        }
      }
    }
  }

  // ---- when an entry outlives its expiry ----

  /**
   In any run, a cached manifest can be served past its expiry by more than the timers' slack if and only
   if no pending timer of its key, its own or an older one, is due by then.
   */
  lemma {:induction false} OutlivesIff(ops: seq<Op>, slack: nat, start: int, user: string, key: string)
    requires Run(ops, slack, start).Some? && (user, key) in Run(ops, slack, start).value.facts
    ensures var w := Run(ops, slack, start).value;
      (exists more :: Outlives(w, more, slack, user, key))
      <==> !TimerBy(w.timers, user, key, w.facts[(user, key)].expiry)
  {
    var w := Run(ops, slack, start).value;
    GuardedRun(ops, slack, start);
    var expiry := w.facts[(user, key)].expiry;
    if !TimerBy(w.timers, user, key, expiry) {
      var more := Outlast(w, user, key, slack);
    }
    if more :| Outlives(w, more, slack, user, key) {
      var v := Continue(w, more, slack).value;
      GuardedContinue(w, more, slack);
      StaysTheSame(w, more, slack, user, key);
      NoTimerBy(w.timers, v.timers, user, key, expiry);
      assert !TimerBy(v.timers, user, key, expiry);
    }
  }

  /** The entry's own timer is due by the signing expiry exactly when the span was not negative and no time passed. */
  lemma {:induction false} DeadlineMeetsExpiry(f: Facts)
    requires f.computed <= f.added
    ensures Deadline(f) <= f.expiry <==> f.computed <= f.expiry && f.added == f.computed
  {
  }

  /**
   What an Add decides, whatever run came before it: the manifest can outlive its expiry if and only if the
   Add is not prompt and no older timer of the key is pending and due by then.
   */
  lemma {:induction false} AddOutlivesIff(ops: seq<Op>, add: Op, slack: nat, start: int)
    requires Run(ops, slack, start).Some? && add.Add? && Enabled(Run(ops, slack, start).value, add, slack)
    ensures var w, key := Run(ops, slack, start).value, CacheKey(add.branch, add.kind);
      && (add.user, key) in Step(w, add).facts
      && ((exists more :: Outlives(Step(w, add), more, slack, add.user, key))
          <==> !IsPrompt(w, add) && !TimerBy(w.timers, add.user, key, add.expiry))
  {
    var w, key := Run(ops, slack, start).value, CacheKey(add.branch, add.kind);
    var all, v := ops + [add], Step(w, add);
    assert all[..|ops|] == ops;
    assert Run(all, slack, start) == Some(v);
    OutlivesIff(all, slack, start, add.user, key);
    var own := Timer(add.user, add.branch, add.kind, Deadline(v.facts[(add.user, key)]));
    DeadlineMeetsExpiry(v.facts[(add.user, key)]);
    assert v.timers == w.timers + [own];
    TimerByWith(w.timers, own, add.user, key, add.expiry);
  }

  lemma {:induction false} TimerByWith(timers: seq<Timer>, t: Timer, user: string, key: string, time: int)
    ensures TimerBy(timers + [t], user, key, time)
            <==> TimerBy(timers, user, key, time) || (OnKey(t, user, key) && t.due <= time)
  {
    var more := timers + [t];
    assert more[|timers|] == t;
    if i :| 0 <= i < |timers| && OnKey(timers[i], user, key) && timers[i].due <= time {
      assert more[i] == timers[i];
    }
  }

  /** A run that serves a manifest past its expiry, for every lag of the first Add and every span. */
  lemma {:induction false} LateAddOutlives(user: string, branch: string, kind: string, manifest: string,
                                           lag: nat, span: nat, slack: nat, start: int)
    requires lag > 0
    ensures var ops := [Tick(lag), Add(user, branch, kind, manifest, start + span, start), Tick(span + slack)];
      && Run(ops, slack, start).Some?
      && var w := Run(ops, slack, start).value;
         Lookup(w.core, user, CacheKey(branch, kind)) == Some(manifest) && w.now == start + span + lag + slack
  {
    var ops := [Tick(lag), Add(user, branch, kind, manifest, start + span, start), Tick(span + slack)];
    assert ops[..3] == ops && ops[..2][..1] == ops[..1] && ops[..1][..0] == [];
    assert ops[..3][..2] == ops[..2];
    var w0 := World(map[], [], start, map[]);
    assert Continue(w0, [], slack) == Some(w0);
    var w1 := Step(w0, ops[0]);
    assert Continue(w0, ops[..1], slack) == Some(w1);
    var w2 := Step(w1, ops[1]);
    assert Continue(w0, ops[..2], slack) == Some(w2);
    assert w2.timers == [Timer(user, branch, kind, start + lag + span)];
    assert Lookup(w2.core, user, CacheKey(branch, kind)) == Some(manifest);
  }
}
