/** Folding the agent's streamed chunks into the parts of one assistant message. */
module ThreadStream {
  import opened Wrappers

  /** The tool invocations the client knows, and the two malformed ones. */
  datatype Call = WebSearch(query: string) | PageFetch(urls: seq<string>) | UnknownCall | MissingCall

  datatype Status = Unspecified | Requested | Complete | Denied | Errored

  /** The optional JSON result; an absent or empty string gives no result. */
  datatype Return = NoReturn | Json(value: string) | MalformedJson

  datatype ToolCall = ToolCall(id: string, call: Call, status: Status, ret: Return)

  datatype Chunk =
    | TextDelta(delta: string)
    | ReasoningDelta(delta: string)
    | ToolDelta(tool: ToolCall)
    | Finished
    | UnhandledBody

  datatype Payload = Payload(call: Call, result: Return, isError: bool)

  datatype Part = Text(text: string) | Reasoning(text: string) | Tool(id: string, payload: Payload)

  /** What the generator updates: the message so far, or the completion status. */
  datatype Update = Content(parts: seq<Part>) | Completed

  datatype StreamError = MissingCallData | UnknownKind | BadJson | UnhandledChunk

  // ---- the incremental fold ----

  function AppendText(content: seq<Part>, delta: string): seq<Part> {
    if content != [] && content[|content| - 1].Text?
    then content[..|content| - 1] + [Text(content[|content| - 1].text + delta)]
    else content + [Text(delta)]
  }

  function AppendReasoning(content: seq<Part>, delta: string): seq<Part> {
    if content != [] && content[|content| - 1].Reasoning?
    then content[..|content| - 1] + [Reasoning(content[|content| - 1].text + delta)]
    else content + [Reasoning(delta)]
  }

  /** The part a tool chunk stands for, or the exception it raises. */
  function ToolPart(tool: ToolCall): Result<Part, StreamError> {
    if tool.call.MissingCall? then Err(MissingCallData)
    else if tool.ret.MalformedJson? then Err(BadJson)
    else if tool.call.UnknownCall? then Err(UnknownKind)
    else Ok(Tool(tool.id, Payload(tool.call, tool.ret, tool.status.Denied? || tool.status.Errored?)))
  }

  /** The exception a chunk raises: its call is looked at first, then its result, then the kind of the call. */
  predicate Raises(c: Chunk, e: StreamError) {
    match e
    case UnhandledChunk => c.UnhandledBody?
    case MissingCallData => c.ToolDelta? && c.tool.call == MissingCall
    case BadJson => c.ToolDelta? && c.tool.call != MissingCall && c.tool.ret == MalformedJson
    case UnknownKind => c.ToolDelta? && c.tool.call == UnknownCall && c.tool.ret != MalformedJson
  }

  /** A tool chunk stands for a part exactly when its call is known and its result parses; refusals are errors. */
  lemma {:induction false} ToolPartMeaning(tool: ToolCall)
    ensures ToolPart(tool).Ok? <==> tool.call !in {MissingCall, UnknownCall} && tool.ret != MalformedJson
    ensures ToolPart(tool).Ok? ==> ToolPart(tool).value.Tool? && ToolPart(tool).value.id == tool.id
    ensures ToolPart(tool).Ok? ==>
      && ToolPart(tool).value.payload.call == tool.call && ToolPart(tool).value.payload.result == tool.ret
      && (ToolPart(tool).value.payload.isError <==> tool.status in {Denied, Errored})
    ensures ToolPart(tool).Err? ==> Raises(ToolDelta(tool), ToolPart(tool).error)
    ensures WellFormed(ToolDelta(tool)) <==> forall e :: !Raises(ToolDelta(tool), e)
  {
    assert ToolPart(tool).Ok? || Raises(ToolDelta(tool), ToolPart(tool).error);
  }

  /** `findIndex` for the tool call with the given id. */
  function IndexOfTool(content: seq<Part>, id: string): (i: int)
    ensures -1 <= i < |content|
    ensures i == -1 ==> forall k | 0 <= k < |content| :: !(content[k].Tool? && content[k].id == id)
    ensures i != -1 ==> content[i].Tool? && content[i].id == id
    ensures i != -1 ==> forall k | 0 <= k < i :: !(content[k].Tool? && content[k].id == id)
  {
    if content == [] then -1
    else
      var n := |content| - 1;
      var i := IndexOfTool(content[..n], id);
      if i != -1 then i
      else if content[n].Tool? && content[n].id == id then n
      else -1
  }

  function AppendToolCall(content: seq<Part>, part: Part): seq<Part>
    requires part.Tool?
  {
    var i := IndexOfTool(content, part.id);
    if i != -1 then content[i := part] else content + [part]
  }

  predicate WellFormed(c: Chunk) {
    !c.UnhandledBody? && (c.ToolDelta? ==> ToolPart(c.tool).Ok?)
  }

  function AppendChunk(content: seq<Part>, c: Chunk): seq<Part>
    requires WellFormed(c)
  {
    match c
    case TextDelta(delta) => AppendText(content, delta)
    case ReasoningDelta(delta) => AppendReasoning(content, delta)
    case ToolDelta(tool) => AppendToolCall(content, ToolPart(tool).value)
    case Finished => content
  }

  /** What is yielded for chunk `i`: the message so far. */
  ghost function UpdateAt(stream: seq<Chunk>, i: nat): Update
    requires i < |stream| && AllWellFormed(stream[..i + 1])
  {
    if stream[i].Finished? then Completed else Content(Message(stream[..i + 1]))
  }

  ghost predicate Answered(stream: seq<Chunk>, updates: seq<Update>, i: nat)
    requires i < |stream| && i < |updates|
  {
    AllWellFormed(stream[..i + 1]) && updates[i] == UpdateAt(stream, i)
  }

  lemma {:induction false} AnswersGrow(stream: seq<Chunk>, before: seq<Update>, updates: seq<Update>)
    requires |updates| == |before| + 1 <= |stream| && updates[..|before|] == before
    requires forall i: nat | i < |before| :: Answered(stream, before, i)
    requires AllWellFormed(stream[..|updates|]) && updates[|before|] == UpdateAt(stream, |before|)
    ensures forall i: nat | i < |updates| :: Answered(stream, updates, i)
  {
    forall i: nat | i < |updates|
      ensures Answered(stream, updates, i)
    {
      if i < |before| {
        assert Answered(stream, before, i) && updates[i] == before[i];
      }
    }
  }

  /** `toThreadStream`: the updates yielded, and the exception that ended the stream, if any. */
  method ToThreadStream(stream: seq<Chunk>) returns (updates: seq<Update>, err: Option<StreamError>)
    ensures err.None? <==> AllWellFormed(stream)
    ensures |updates| <= |stream| && (err.None? <==> |updates| == |stream|)
    ensures AllWellFormed(stream[..|updates|])
    ensures forall i: nat | i < |updates| :: Answered(stream, updates, i)
    ensures err.Some? ==> Raises(stream[|updates|], err.value)
  {
    var content: seq<Part> := [];
    updates := [];
    assert stream[..0] == [];
    for n := 0 to |stream|
      invariant AllWellFormed(stream[..n]) && content == Message(stream[..n])
      invariant |updates| == n && forall i: nat | i < n :: Answered(stream, updates, i)
    {
      var chunk := stream[n];
      ghost var before := updates;
      assert stream[..n + 1] == stream[..n] + [chunk];
      match chunk {
        case TextDelta(delta) =>
          content := AppendText(content, delta);
          updates := updates + [Content(content)];
        case ReasoningDelta(delta) =>
          content := AppendReasoning(content, delta);
          updates := updates + [Content(content)];
        case ToolDelta(tool) =>
          var part := ToolPart(tool);
          if part.Err? {
            return updates, Some(part.error);
          }
          content := AppendToolCall(content, part.value);
          updates := updates + [Content(content)];
        case Finished =>
          updates := updates + [Completed];
        case UnhandledBody =>
          return updates, Some(UnhandledChunk);
      }
      MessageStep(stream[..n], chunk);
      AnswersGrow(stream, before, updates);
    }
    assert stream[..|stream|] == stream;
    return updates, None;
  }

  // ---- the whole-trace specification ----

  ghost predicate AllWellFormed(trace: seq<Chunk>) {
    forall i | 0 <= i < |trace| :: WellFormed(trace[i])
  }

  predicate IsTool(c: Chunk, id: string) {
    c.ToolDelta? && c.tool.id == id
  }

  predicate Mentions(trace: seq<Chunk>, id: string) {
    exists i :: 0 <= i < |trace| && IsTool(trace[i], id)
  }

  /** The payload of the last chunk about a tool call. */
  function Latest(trace: seq<Chunk>, id: string): Payload
    requires Mentions(trace, id) && AllWellFormed(trace)
  {
    var n := |trace| - 1;
    if IsTool(trace[n], id) then ToolPart(trace[n].tool).value.payload else Latest(trace[..n], id)
  }

  /** The chunks that contribute a part or a piece of one: no later chunks of a known tool call, no end marks. */
  function Kept(trace: seq<Chunk>): seq<Chunk> {
    if trace == [] then []
    else
      var n := |trace| - 1;
      var c := trace[n];
      if c.Finished? || (c.ToolDelta? && Mentions(trace[..n], c.tool.id)) then Kept(trace[..n])
      else Kept(trace[..n]) + [c]
  }

  predicate CanPart(c: Chunk, latest: map<string, Payload>) {
    c.TextDelta? || c.ReasoningDelta? || (c.ToolDelta? && c.tool.id in latest)
  }

  /** The part one kept chunk makes by itself; tool payloads come from `latest`. */
  function PartOf(c: Chunk, latest: map<string, Payload>): Part
    requires CanPart(c, latest)
  {
    match c
    case TextDelta(delta) => Text(delta)
    case ReasoningDelta(delta) => Reasoning(delta)
    case ToolDelta(tool) => Tool(tool.id, latest[tool.id])
  }

  ghost predicate Partable(ks: seq<Chunk>, latest: map<string, Payload>) {
    forall i | 0 <= i < |ks| :: CanPart(ks[i], latest)
  }

  /** Merges a text or reasoning part with a following part of its own kind. */
  function Merge(p: Part, rest: seq<Part>): seq<Part> {
    if rest != [] && p.Text? && rest[0].Text? then [Text(p.text + rest[0].text)] + rest[1..]
    else if rest != [] && p.Reasoning? && rest[0].Reasoning? then [Reasoning(p.text + rest[0].text)] + rest[1..]
    else [p] + rest
  }

  /** Maximal runs of text and of reasoning become one part each. */
  function Runs(ks: seq<Chunk>, latest: map<string, Payload>): seq<Part>
    requires Partable(ks, latest)
  {
    if ks == [] then [] else Merge(PartOf(ks[0], latest), Runs(ks[1..], latest))
  }

  ghost function LatestMap(trace: seq<Chunk>): map<string, Payload>
    requires AllWellFormed(trace)
  {
    if trace == [] then map[]
    else
      var n := |trace| - 1;
      var m := LatestMap(trace[..n]);
      if trace[n].ToolDelta? then m[trace[n].tool.id := ToolPart(trace[n].tool).value.payload] else m
  }

  lemma {:induction false} LatestMapMeaning(trace: seq<Chunk>)
    requires AllWellFormed(trace)
    ensures forall id :: id in LatestMap(trace) <==> Mentions(trace, id)
    ensures forall id | id in LatestMap(trace) :: LatestMap(trace)[id] == Latest(trace, id)
    ensures Partable(Kept(trace), LatestMap(trace))
    ensures forall id :: Mentions(Kept(trace), id) <==> Mentions(trace, id)
  {
    if trace != [] {
      var n := |trace| - 1;
      var init, c := trace[..n], trace[n];
      LatestMapMeaning(init);
      assert trace == init + [c];
      forall id ensures Mentions(trace, id) <==> Mentions(init, id) || IsTool(c, id) {
        MentionsAppend(init, c, id);
      }
      forall id ensures Mentions(Kept(trace), id) <==> Mentions(trace, id) {
        MentionsAppend(Kept(init), c, id);
      }
    }
  }

  lemma {:induction false} MentionsAppend(trace: seq<Chunk>, c: Chunk, id: string)
    ensures Mentions(trace + [c], id) <==> Mentions(trace, id) || IsTool(c, id)
  {
    if Mentions(trace, id) {
      var i :| 0 <= i < |trace| && IsTool(trace[i], id);
      assert (trace + [c])[i] == trace[i];
    }
    if IsTool(c, id) {
      assert (trace + [c])[|trace|] == c;
    }
  }

  /** The message a whole trace stands for. */
  ghost function Message(trace: seq<Chunk>): seq<Part>
    requires AllWellFormed(trace)
  {
    LatestMapMeaning(trace);
    Runs(Kept(trace), LatestMap(trace))
  }

  // ---- the fold computes the message ----

  predicate SameKind(p: Part, q: Part) {
    (p.Text? && q.Text?) || (p.Reasoning? && q.Reasoning?)
  }

  /** Adding a part at the end, merging it with the last one when both are text or both reasoning. */
  function Snoc(parts: seq<Part>, p: Part): seq<Part> {
    if parts != [] && SameKind(parts[|parts| - 1], p)
    then parts[..|parts| - 1] + Merge(parts[|parts| - 1], [p])
    else parts + [p]
  }

  /** A part and its successor, merged when they are of one kind. */
  function Join(p: Part, q: Part): seq<Part> {
    if SameKind(p, q) then Merge(p, [q]) else [p, q]
  }

  lemma {:induction false} SnocTail(front: seq<Part>, tail: seq<Part>, q: Part)
    requires tail != []
    ensures Snoc(front + tail, q) == front + Snoc(tail, q)
  {
  }

  lemma {:induction false} MergeIsJoin(p: Part, a: Part, tail: seq<Part>)
    ensures Merge(p, [a] + tail) == Join(p, a) + tail
  {
    var rest := [a] + tail;
    assert rest[0] == a && rest[1..] == tail;
    if !SameKind(p, a) {
      assert [p] + rest == [p, a] + tail;
    }
  }

  lemma {:induction false} MergeSnocOne(p: Part, a: Part, q: Part)
    ensures Merge(p, Snoc([a], q)) == Snoc(Merge(p, [a]), q)
  {
    if SameKind(p, a) && SameKind(a, q) {
      assert p.text + (a.text + q.text) == p.text + a.text + q.text;
    }
  }

  lemma {:induction false} MergeSnoc(p: Part, rest: seq<Part>, q: Part)
    ensures Merge(p, Snoc(rest, q)) == Snoc(Merge(p, rest), q)
  {
    if |rest| == 1 {
      assert rest == [rest[0]];
      MergeSnocOne(p, rest[0], q);
    } else if |rest| > 1 {
      var a, tail := rest[0], rest[1..];
      assert rest == [a] + tail;
      SnocTail([a], tail, q);
      MergeIsJoin(p, a, Snoc(tail, q));
      MergeIsJoin(p, a, tail);
      SnocTail(Join(p, a), tail, q);
    }
  }

  lemma {:induction false} RunsSnoc(ks: seq<Chunk>, c: Chunk, latest: map<string, Payload>)
    requires Partable(ks + [c], latest)
    ensures Partable(ks, latest) && CanPart(c, latest)
    ensures Runs(ks + [c], latest) == Snoc(Runs(ks, latest), PartOf(c, latest))
  {
    assert CanPart((ks + [c])[|ks|], latest);
    assert forall i | 0 <= i < |ks| :: (ks + [c])[i] == ks[i];
    if ks == [] {
      assert ks + [c] == [c] && [c][1..] == [];
    } else {
      assert (ks + [c])[1..] == ks[1..] + [c];
      RunsSnoc(ks[1..], c, latest);
      MergeSnoc(PartOf(ks[0], latest), Runs(ks[1..], latest), PartOf(c, latest));
    }
  }

  /** An id that does not occur has no influence. */
  lemma {:induction false} RunsIgnore(ks: seq<Chunk>, latest: map<string, Payload>, id: string, p: Payload)
    requires Partable(ks, latest) && !Mentions(ks, id)
    ensures Partable(ks, latest[id := p]) && Runs(ks, latest[id := p]) == Runs(ks, latest)
  {
    if ks != [] {
      assert !IsTool(ks[0], id);
      assert forall i | 0 <= i < |ks| - 1 :: ks[1..][i] == ks[i + 1];
      RunsIgnore(ks[1..], latest, id, p);
    }
  }

  function SetPayload(parts: seq<Part>, id: string, p: Payload): (r: seq<Part>)
    ensures |r| == |parts|
    ensures forall i | 0 <= i < |r| :: r[i] == if parts[i].Tool? && parts[i].id == id then Tool(id, p) else parts[i]
  {
    seq(|parts|, i requires 0 <= i < |parts| => if parts[i].Tool? && parts[i].id == id then Tool(id, p) else parts[i])
  }

  lemma {:induction false} MergeSetPayload(x: Part, rest: seq<Part>, id: string, p: Payload)
    ensures Merge(SetPayload([x], id, p)[0], SetPayload(rest, id, p)) == SetPayload(Merge(x, rest), id, p)
  {
    var y, changed := SetPayload([x], id, p)[0], SetPayload(rest, id, p);
    if rest != [] && SameKind(x, rest[0]) {
      assert changed[1..] == SetPayload(rest[1..], id, p);
    } else {
      assert SetPayload([x] + rest, id, p) == [y] + changed;
    }
  }

  lemma {:induction false} RunsUpdate(ks: seq<Chunk>, latest: map<string, Payload>, id: string, p: Payload)
    requires Partable(ks, latest)
    ensures Partable(ks, latest[id := p])
    ensures Runs(ks, latest[id := p]) == SetPayload(Runs(ks, latest), id, p)
  {
    if ks != [] {
      RunsUpdate(ks[1..], latest, id, p);
      MergeSetPayload(PartOf(ks[0], latest), Runs(ks[1..], latest), id, p);
    }
  }

  /** The ids of the tool parts, in order. */
  function ToolIds(parts: seq<Part>): seq<string> {
    if parts == [] then [] else (if parts[0].Tool? then [parts[0].id] else []) + ToolIds(parts[1..])
  }

  function ToolIdsOf(ks: seq<Chunk>): seq<string> {
    if ks == [] then [] else (if ks[0].ToolDelta? then [ks[0].tool.id] else []) + ToolIdsOf(ks[1..])
  }

  lemma {:induction false} RunsToolIds(ks: seq<Chunk>, latest: map<string, Payload>)
    requires Partable(ks, latest)
    ensures ToolIds(Runs(ks, latest)) == ToolIdsOf(ks)
  {
    if ks != [] {
      RunsToolIds(ks[1..], latest);
    }
  }

  lemma {:induction false} ToolIdsAppend(ks: seq<Chunk>, c: Chunk)
    ensures ToolIdsOf(ks + [c]) == ToolIdsOf(ks) + (if c.ToolDelta? then [c.tool.id] else [])
  {
    var own := if c.ToolDelta? then [c.tool.id] else [];
    if ks == [] {
      assert ks + [c] == [c] && [c][1..] == [];
      assert ToolIdsOf([]) + own == own;
    } else {
      var first := if ks[0].ToolDelta? then [ks[0].tool.id] else [];
      assert (ks + [c])[1..] == ks[1..] + [c] && (ks + [c])[0] == ks[0];
      ToolIdsAppend(ks[1..], c);
      assert first + (ToolIdsOf(ks[1..]) + own) == first + ToolIdsOf(ks[1..]) + own;
    }
  }

  ghost predicate Distinct(ids: seq<string>) {
    forall i, j | 0 <= i < j < |ids| :: ids[i] != ids[j]
  }

  lemma {:induction false} MentionsIsToolId(ks: seq<Chunk>, id: string)
    ensures Mentions(ks, id) <==> id in ToolIdsOf(ks)
  {
    if ks != [] {
      var n := |ks| - 1;
      assert ks == ks[..n] + [ks[n]];
      MentionsIsToolId(ks[..n], id);
      MentionsAppend(ks[..n], ks[n], id);
      ToolIdsAppend(ks[..n], ks[n]);
    }
  }

  /** The ids of the tool calls of a trace, each at its first occurrence. */
  function FirstIds(trace: seq<Chunk>): seq<string> {
    if trace == [] then []
    else
      var n := |trace| - 1;
      if trace[n].ToolDelta? && trace[n].tool.id !in FirstIds(trace[..n]) then FirstIds(trace[..n]) + [trace[n].tool.id]
      else FirstIds(trace[..n])
  }

  lemma {:induction false} KeptToolIds(trace: seq<Chunk>)
    ensures ToolIdsOf(Kept(trace)) == FirstIds(trace) && Distinct(FirstIds(trace))
    ensures forall id :: Mentions(trace, id) <==> id in FirstIds(trace)
  {
    if trace != [] {
      var n := |trace| - 1;
      KeptToolIds(trace[..n]);
      ToolIdsAppend(Kept(trace[..n]), trace[n]);
      assert trace == trace[..n] + [trace[n]];
      forall id ensures Mentions(trace, id) <==> id in FirstIds(trace) {
        MentionsAppend(trace[..n], trace[n], id);
      }
    }
  }

  lemma {:induction false} ToolAt(parts: seq<Part>, id: string)
    ensures id in ToolIds(parts) <==> exists k :: 0 <= k < |parts| && parts[k].Tool? && parts[k].id == id
  {
    if parts != [] {
      ToolAt(parts[1..], id);
      if k :| 0 <= k < |parts| && parts[k].Tool? && parts[k].id == id {
        assert k > 0 ==> parts[1..][k - 1] == parts[k];
      }
      if k :| 0 <= k < |parts| - 1 && parts[1..][k].Tool? && parts[1..][k].id == id {
        assert parts[k + 1].Tool? && parts[k + 1].id == id;
      }
    }
  }

  lemma {:induction false} UniqueTool(parts: seq<Part>, i: nat, j: nat)
    requires Distinct(ToolIds(parts)) && i < j < |parts| && parts[i].Tool? && parts[j].Tool?
    ensures parts[i].id != parts[j].id
  {
    var rest := ToolIds(parts[1..]);
    assert forall a, b | 0 <= a < b < |rest| :: rest[a] != rest[b] by {
      var shift := if parts[0].Tool? then 1 else 0;
      assert forall a | 0 <= a < |rest| :: ToolIds(parts)[a + shift] == rest[a];
    }
    if i == 0 {
      assert parts[1..][j - 1] == parts[j];
      ToolAt(parts[1..], parts[j].id);
      assert ToolIds(parts)[0] == parts[0].id;
      var k :| 0 <= k < |rest| && rest[k] == parts[j].id;
      assert ToolIds(parts)[k + 1] == rest[k];
    } else {
      UniqueTool(parts[1..], i - 1, j - 1);
    }
  }

  /** Replacing the one part of a known tool call sets its payload. */
  lemma {:induction false} ReplaceIsSetPayload(parts: seq<Part>, id: string, p: Payload)
    requires Distinct(ToolIds(parts)) && id in ToolIds(parts)
    ensures AppendToolCall(parts, Tool(id, p)) == SetPayload(parts, id, p)
  {
    ToolAt(parts, id);
    var i := IndexOfTool(parts, id);
    forall k | 0 <= k < |parts| && k != i ensures !(parts[k].Tool? && parts[k].id == id) {
      if parts[k].Tool? {
        if i < k { UniqueTool(parts, i, k); } else { UniqueTool(parts, k, i); }
      }
    }
  }

  /** One more chunk: the incremental update of the message is the message of the longer trace. */
  lemma {:induction false} MessageStep(trace: seq<Chunk>, c: Chunk)
    requires AllWellFormed(trace) && WellFormed(c)
    ensures AllWellFormed(trace + [c]) && Message(trace + [c]) == AppendChunk(Message(trace), c)
  {
    var longer := trace + [c];
    assert longer[..|trace|] == trace && longer[|trace|] == c;
    var ks, latest := Kept(trace), LatestMap(trace);
    LatestMapMeaning(trace);
    LatestMapMeaning(longer);
    match c
    case Finished =>
    case TextDelta(delta) => RunsSnoc(ks, c, latest);
    case ReasoningDelta(delta) => RunsSnoc(ks, c, latest);
    case ToolDelta(tool) => ToolStep(trace, c);
  }

  lemma {:induction false} ToolStep(trace: seq<Chunk>, c: Chunk)
    requires AllWellFormed(trace) && WellFormed(c) && c.ToolDelta?
    ensures AllWellFormed(trace + [c]) && Message(trace + [c]) == AppendChunk(Message(trace), c)
  {
    var longer, id, p := trace + [c], c.tool.id, ToolPart(c.tool).value.payload;
    assert longer[..|trace|] == trace && longer[|trace|] == c;
    var ks, latest := Kept(trace), LatestMap(trace);
    LatestMapMeaning(trace);
    LatestMapMeaning(longer);
    KeptToolIds(trace);
    RunsToolIds(ks, latest);
    if Mentions(trace, id) {
      RunsUpdate(ks, latest, id, p);
      ReplaceIsSetPayload(Runs(ks, latest), id, p);
    } else {
      RunsIgnore(ks, latest, id, p);
      RunsSnoc(ks, c, latest[id := p]);
      ToolAt(Runs(ks, latest), id);
    }
  }

  // ---- what the message looks like ----

  ghost predicate NoMergeable(parts: seq<Part>) {
    forall i | 0 <= i < |parts| - 1 :: !SameKind(parts[i], parts[i + 1])
  }

  lemma {:induction false} RunsAreMaximal(ks: seq<Chunk>, latest: map<string, Payload>)
    requires Partable(ks, latest)
    ensures NoMergeable(Runs(ks, latest))
  {
    if ks != [] {
      RunsAreMaximal(ks[1..], latest);
    }
  }

  /** The text, or the reasoning, of one part. */
  function Said(p: Part, reasoning: bool): string {
    if (if reasoning then p.Reasoning? else p.Text?) then p.text else ""
  }

  /** All text, or all reasoning, of the parts. */
  function TextOf(parts: seq<Part>, reasoning: bool): string {
    if parts == [] then "" else Said(parts[0], reasoning) + TextOf(parts[1..], reasoning)
  }

  /** All text deltas, or all reasoning deltas, of a trace. */
  function DeltasOf(trace: seq<Chunk>, reasoning: bool): string {
    if trace == [] then ""
    else
      var c := trace[0];
      (if (if reasoning then c.ReasoningDelta? else c.TextDelta?) then c.delta else "")
          + DeltasOf(trace[1..], reasoning)
  }

  lemma {:induction false} TextCons(p: Part, rest: seq<Part>, reasoning: bool)
    ensures TextOf([p] + rest, reasoning) == Said(p, reasoning) + TextOf(rest, reasoning)
  {
    assert ([p] + rest)[1..] == rest;
  }

  lemma {:induction false} MergeSaid(p: Part, a: Part, reasoning: bool)
    requires SameKind(p, a)
    ensures |Merge(p, [a])| == 1 && Said(Merge(p, [a])[0], reasoning) == Said(p, reasoning) + Said(a, reasoning)
  {
  }

  lemma {:induction false} MergeText(p: Part, rest: seq<Part>, reasoning: bool)
    ensures TextOf(Merge(p, rest), reasoning) == Said(p, reasoning) + TextOf(rest, reasoning)
  {
    if rest != [] && SameKind(p, rest[0]) {
      var merged, tail := Merge(p, [rest[0]])[0], rest[1..];
      assert Merge(p, rest) == [merged] + tail;
      TextCons(merged, tail, reasoning);
      MergeSaid(p, rest[0], reasoning);
      Regroup(Said(p, reasoning), Said(rest[0], reasoning), TextOf(tail, reasoning));
    } else {
      TextCons(p, rest, reasoning);
    }
  }

  lemma {:induction false} Regroup(a: string, b: string, c: string)
    ensures (a + b) + c == a + (b + c)
  {
    assert (a + b) + c == a + (b + c);
  }

  lemma {:induction false} RunsText(ks: seq<Chunk>, latest: map<string, Payload>, reasoning: bool)
    requires Partable(ks, latest)
    ensures TextOf(Runs(ks, latest), reasoning) == DeltasOf(ks, reasoning)
  {
    if ks != [] {
      RunsText(ks[1..], latest, reasoning);
      MergeText(PartOf(ks[0], latest), Runs(ks[1..], latest), reasoning);
    }
  }

  lemma {:induction false} DeltasOne(c: Chunk, reasoning: bool)
    ensures DeltasOf([c], reasoning) == if (if reasoning then c.ReasoningDelta? else c.TextDelta?) then c.delta else ""
  {
    assert [c][1..] == [];
  }

  lemma {:induction false} DeltasAppend(ks: seq<Chunk>, c: Chunk, reasoning: bool)
    ensures DeltasOf(ks + [c], reasoning) == DeltasOf(ks, reasoning) + DeltasOf([c], reasoning)
  {
    if ks == [] {
      assert ks + [c] == [c];
    } else {
      assert (ks + [c])[1..] == ks[1..] + [c];
      DeltasAppend(ks[1..], c, reasoning);
    }
  }

  lemma {:induction false} KeptDeltas(trace: seq<Chunk>, reasoning: bool)
    ensures DeltasOf(Kept(trace), reasoning) == DeltasOf(trace, reasoning)
  {
    if trace != [] {
      var n := |trace| - 1;
      var init, c := trace[..n], trace[n];
      KeptDeltas(init, reasoning);
      DeltasAppend(init, c, reasoning);
      assert trace == init + [c];
      if c.Finished? || (c.ToolDelta? && Mentions(init, c.tool.id)) {
        DeltasOne(c, reasoning);
      } else {
        DeltasAppend(Kept(init), c, reasoning);
      }
    }
  }

  lemma {:induction false} MergeTool(p: Part, rest: seq<Part>, part: Part)
    requires part in Merge(p, rest) && part.Tool?
    ensures part == p || part in rest
  {
  }

  lemma {:induction false} RunsPayload(ks: seq<Chunk>, latest: map<string, Payload>, part: Part)
    requires Partable(ks, latest) && part in Runs(ks, latest) && part.Tool?
    ensures part.id in latest && part.payload == latest[part.id]
  {
    var p, rest := PartOf(ks[0], latest), Runs(ks[1..], latest);
    MergeTool(p, rest, part);
    if part in rest {
      RunsPayload(ks[1..], latest, part);
    }
  }

  // ---- where the parts come from ----

  /** The chunk adds nothing to the message but perhaps a payload. */
  predicate Silent(trace: seq<Chunk>, j: nat)
    requires j < |trace|
  {
    trace[j].Finished? || (trace[j].ToolDelta? && Mentions(trace[..j], trace[j].tool.id))
  }

  /** The chunk continues the part: it is silent, or a delta of the part's own kind. */
  predicate Continues(trace: seq<Chunk>, p: Part, j: nat)
    requires j < |trace|
  {
    Silent(trace, j) || (p.Text? && trace[j].TextDelta?) || (p.Reasoning? && trace[j].ReasoningDelta?)
  }

  /** The chunk opens the part: its first delta, or the first chunk about its call. */
  predicate Opens(trace: seq<Chunk>, p: Part, j: nat)
    requires j < |trace|
  {
    match p
    case Text(_) => trace[j].TextDelta?
    case Reasoning(_) => trace[j].ReasoningDelta?
    case Tool(id, _) => IsTool(trace[j], id) && !Mentions(trace[..j], id)
  }

  /** What the part holds: the deltas from `from` up to `to`, or the latest payload of its call. */
  ghost predicate Holds(trace: seq<Chunk>, p: Part, from: nat, to: nat)
    requires AllWellFormed(trace) && from <= to <= |trace|
  {
    match p
    case Text(text) => text == DeltasOf(trace[from..to], false)
    case Reasoning(text) => text == DeltasOf(trace[from..to], true)
    case Tool(id, payload) => Mentions(trace, id) && payload == Latest(trace, id)
  }

  /** The part is made of the chunks from `from` up to `to`. */
  ghost predicate MadeOf(trace: seq<Chunk>, p: Part, from: nat, to: nat)
    requires AllWellFormed(trace)
  {
    && from < to <= |trace| && Opens(trace, p, from) && Holds(trace, p, from, to)
    && forall j: nat | from < j < to :: Continues(trace, p, j)
  }

  /** Where part `i` begins; `n` after the last part. */
  function StartOf(starts: seq<nat>, n: nat, i: nat): nat {
    if i < |starts| then starts[i] else n
  }

  ghost predicate LaidAt(trace: seq<Chunk>, parts: seq<Part>, starts: seq<nat>, i: nat)
    requires AllWellFormed(trace) && i < |parts| == |starts|
  {
    MadeOf(trace, parts[i], starts[i], StartOf(starts, |trace|, i + 1))
  }

  /** The parts cut the trace at `starts`: nothing comes before the first, and no two neighbours could be merged. */
  ghost predicate Laid(trace: seq<Chunk>, parts: seq<Part>, starts: seq<nat>)
    requires AllWellFormed(trace)
  {
    && |starts| == |parts| && NoMergeable(parts)
    && StartOf(starts, |trace|, 0) <= |trace|
    && (forall j: nat | j < StartOf(starts, |trace|, 0) :: Silent(trace, j))
    && forall i: nat | i < |parts| :: LaidAt(trace, parts, starts, i)
  }

  lemma {:induction false} OpeningIsLoud(trace: seq<Chunk>, p: Part, j: nat)
    requires j < |trace| && Opens(trace, p, j)
    ensures !Silent(trace, j)
  {
  }

  /** Two cuts that agree on a part agree on where the next one begins. */
  lemma {:induction false} SameNextStart(trace: seq<Chunk>, p: seq<Part>, s: seq<nat>, q: seq<Part>, t: seq<nat>,
                                         i: nat)
    requires AllWellFormed(trace) && Laid(trace, p, s) && Laid(trace, q, t)
    requires i < |p| && i < |q| && s[i] == t[i]
    ensures StartOf(s, |trace|, i + 1) >= StartOf(t, |trace|, i + 1)
  {
    var next := StartOf(s, |trace|, i + 1);
    assert LaidAt(trace, p, s, i) && LaidAt(trace, q, t, i);
    if i + 1 < |p| {
      assert LaidAt(trace, p, s, i + 1) && !SameKind(p[i], p[i + 1]);
      OpeningIsLoud(trace, p[i + 1], next);
      assert !Continues(trace, q[i], next);
    }
  }

  lemma {:induction false} SameFirstStart(trace: seq<Chunk>, p: seq<Part>, s: seq<nat>, q: seq<Part>, t: seq<nat>)
    requires AllWellFormed(trace) && Laid(trace, p, s) && Laid(trace, q, t)
    ensures StartOf(s, |trace|, 0) >= StartOf(t, |trace|, 0)
  {
    if StartOf(s, |trace|, 0) < StartOf(t, |trace|, 0) {
      assert LaidAt(trace, p, s, 0);
      OpeningIsLoud(trace, p[0], s[0]);
    }
  }

  lemma {:induction false} SamePart(trace: seq<Chunk>, p: Part, q: Part, from: nat, to: nat)
    requires AllWellFormed(trace) && MadeOf(trace, p, from, to) && MadeOf(trace, q, from, to)
    ensures p == q
  {
  }

  lemma {:induction false} SameUpTo(trace: seq<Chunk>, p: seq<Part>, s: seq<nat>, q: seq<Part>, t: seq<nat>, n: nat)
    requires AllWellFormed(trace) && Laid(trace, p, s) && Laid(trace, q, t) && n <= |p|
    ensures n <= |q| && p[..n] == q[..n] && StartOf(s, |trace|, n) == StartOf(t, |trace|, n)
  {
    if n == 0 {
      SameFirstStart(trace, p, s, q, t);
      SameFirstStart(trace, q, t, p, s);
    } else {
      var i := n - 1;
      SameUpTo(trace, p, s, q, t, i);
      assert LaidAt(trace, p, s, i);
      assert LaidAt(trace, q, t, i);
      SameNextStart(trace, p, s, q, t, i);
      SameNextStart(trace, q, t, p, s, i);
      SamePart(trace, p[i], q[i], s[i], StartOf(s, |trace|, n));
    }
  }

  /** A trace can be cut in one way only. */
  lemma {:induction false} LayoutIsUnique(trace: seq<Chunk>, p: seq<Part>, s: seq<nat>, q: seq<Part>, t: seq<nat>)
    requires AllWellFormed(trace) && Laid(trace, p, s) && Laid(trace, q, t)
    ensures p == q
  {
    SameUpTo(trace, p, s, q, t, |p|);
    SameUpTo(trace, q, t, p, s, |q|);
  }

  // ---- the fold lays the parts out ----

  lemma {:induction false} LatestAppend(trace: seq<Chunk>, c: Chunk, id: string)
    requires AllWellFormed(trace + [c]) && AllWellFormed(trace) && Mentions(trace, id)
    ensures Mentions(trace + [c], id)
    ensures Latest(trace + [c], id) == if IsTool(c, id) then ToolPart(c.tool).value.payload else Latest(trace, id)
  {
    MentionsAppend(trace, c, id);
    assert (trace + [c])[..|trace|] == trace;
  }

  /** The part once the payload carried by `c`, if it is about the part's call, has been set. */
  function Refreshed(p: Part, c: Chunk): Part
    requires WellFormed(c)
  {
    if p.Tool? && IsTool(c, p.id) then Tool(p.id, ToolPart(c.tool).value.payload) else p
  }

  lemma {:induction false} SilentStays(trace: seq<Chunk>, c: Chunk, j: nat)
    requires j < |trace|
    ensures Silent(trace + [c], j) <==> Silent(trace, j)
  {
    assert (trace + [c])[..j] == trace[..j] && (trace + [c])[j] == trace[j];
  }

  lemma {:induction false} OpensStays(trace: seq<Chunk>, c: Chunk, p: Part, j: nat)
    requires j < |trace| && WellFormed(c)
    ensures Opens(trace + [c], Refreshed(p, c), j) <==> Opens(trace, p, j)
  {
    assert (trace + [c])[..j] == trace[..j] && (trace + [c])[j] == trace[j];
  }

  lemma {:induction false} MadeOfStays(trace: seq<Chunk>, c: Chunk, p: Part, from: nat, to: nat)
    requires AllWellFormed(trace) && AllWellFormed(trace + [c]) && WellFormed(c) && MadeOf(trace, p, from, to)
    ensures MadeOf(trace + [c], Refreshed(p, c), from, to)
  {
    var longer := trace + [c];
    OpensStays(trace, c, p, from);
    assert longer[from..to] == trace[from..to];
    if p.Tool? {
      LatestAppend(trace, c, p.id);
    }
    forall j: nat | from < j < to
      ensures Continues(longer, Refreshed(p, c), j)
    {
      assert Continues(trace, p, j);
      SilentStays(trace, c, j);
    }
  }

  /** The last part once the trace goes on with a chunk that continues it. */
  function Extended(p: Part, c: Chunk): Part
    requires WellFormed(c)
  {
    if p.Text? && c.TextDelta? then Text(p.text + c.delta)
    else if p.Reasoning? && c.ReasoningDelta? then Reasoning(p.text + c.delta)
    else Refreshed(p, c)
  }

  lemma {:induction false} MadeOfExtends(trace: seq<Chunk>, c: Chunk, p: Part, from: nat)
    requires AllWellFormed(trace) && AllWellFormed(trace + [c]) && WellFormed(c) && MadeOf(trace, p, from, |trace|)
    requires Continues(trace + [c], p, |trace|)
    ensures MadeOf(trace + [c], Extended(p, c), from, |trace| + 1)
  {
    var longer, q := trace + [c], Extended(p, c);
    MadeOfStays(trace, c, p, from, |trace|);
    assert longer[from..|trace|] == trace[from..] && trace[from..] == trace[from..|trace|];
    assert longer[from..|trace| + 1] == trace[from..] + [c];
    DeltasAppend(trace[from..], c, false);
    DeltasAppend(trace[from..], c, true);
    DeltasOne(c, false);
    DeltasOne(c, true);
    forall j: nat | from < j < |trace| + 1
      ensures Continues(longer, q, j)
    {
      assert j < |trace| ==> Continues(longer, Refreshed(p, c), j);
    }
  }

  /** A new part opened by the last chunk. */
  lemma {:induction false} MadeOfLast(trace: seq<Chunk>, c: Chunk, p: Part)
    requires AllWellFormed(trace + [c]) && WellFormed(c) && Opens(trace + [c], p, |trace|)
    requires p.Text? || p.Reasoning? ==> p.text == c.delta
    requires p.Tool? ==> p.payload == ToolPart(c.tool).value.payload
    ensures MadeOf(trace + [c], p, |trace|, |trace| + 1)
  {
    var longer := trace + [c];
    assert longer[|trace|..|trace| + 1] == [c] && longer[|trace|] == c;
    DeltasOne(c, false);
    DeltasOne(c, true);
    if p.Tool? {
      MentionsAppend(trace, c, p.id);
    }
  }

  /** The part whose stretch of the trace holds chunk `j`. */
  lemma {:induction false} PartAround(trace: seq<Chunk>, parts: seq<Part>, starts: seq<nat>, j: nat) returns (i: nat)
    requires AllWellFormed(trace) && Laid(trace, parts, starts) && StartOf(starts, |trace|, 0) <= j < |trace|
    ensures i < |parts| && starts[i] <= j < StartOf(starts, |trace|, i + 1)
  {
    i := 0;
    while StartOf(starts, |trace|, i + 1) <= j
      invariant i < |parts| && starts[i] <= j
      decreases |parts| - i
    {
      i := i + 1;
    }
  }

  /** A call that was mentioned has its part, at its first chunk. */
  lemma {:induction false} ToolPartAt(trace: seq<Chunk>, parts: seq<Part>, starts: seq<nat>, id: string, j: nat)
    returns (i: nat)
    requires AllWellFormed(trace) && Laid(trace, parts, starts)
    requires j < |trace| && IsTool(trace[j], id) && !Mentions(trace[..j], id)
    ensures i < |parts| && starts[i] == j && parts[i].Tool? && parts[i].id == id
  {
    assert !Silent(trace, j);
    i := PartAround(trace, parts, starts, j);
    assert LaidAt(trace, parts, starts, i);
    assert starts[i] < j ==> Continues(trace, parts[i], j);
  }

  lemma {:induction false} FirstMention(trace: seq<Chunk>, id: string) returns (j: nat)
    requires Mentions(trace, id)
    ensures j < |trace| && IsTool(trace[j], id) && !Mentions(trace[..j], id)
  {
    var n := |trace| - 1;
    if Mentions(trace[..n], id) {
      j := FirstMention(trace[..n], id);
      assert trace[..n][..j] == trace[..j];
    } else {
      assert trace == trace[..n] + [trace[n]];
      MentionsAppend(trace[..n], trace[n], id);
      j := n;
    }
  }

  /** No two parts are about one call. */
  lemma {:induction false} OneToolPart(trace: seq<Chunk>, parts: seq<Part>, starts: seq<nat>, i: nat, k: nat)
    requires AllWellFormed(trace) && Laid(trace, parts, starts) && i < k < |parts|
    requires parts[i].Tool? && parts[k].Tool?
    ensures parts[i].id != parts[k].id
  {
    assert LaidAt(trace, parts, starts, i);
    assert LaidAt(trace, parts, starts, k);
    StartsIncrease(trace, parts, starts, i, k);
    assert trace[..starts[k]][starts[i]] == trace[starts[i]];
    assert Mentions(trace[..starts[k]], parts[i].id);
  }

  lemma {:induction false} StartsIncrease(trace: seq<Chunk>, parts: seq<Part>, starts: seq<nat>, i: nat, k: nat)
    requires AllWellFormed(trace) && Laid(trace, parts, starts) && i < k < |parts|
    ensures starts[i] < starts[k]
  {
    assert LaidAt(trace, parts, starts, k - 1);
    if i < k - 1 {
      StartsIncrease(trace, parts, starts, i, k - 1);
    }
  }

  /** Replacing the part of a known call sets its payload, wherever it stands. */
  lemma {:induction false} ReplaceRefreshes(trace: seq<Chunk>, parts: seq<Part>, starts: seq<nat>, c: Chunk)
    requires AllWellFormed(trace) && Laid(trace, parts, starts) && WellFormed(c) && c.ToolDelta?
    requires Mentions(trace, c.tool.id)
    ensures var after := AppendToolCall(parts, ToolPart(c.tool).value);
      |after| == |parts| && forall k | 0 <= k < |parts| :: after[k] == Refreshed(parts[k], c)
  {
    var id := c.tool.id;
    var first := FirstMention(trace, id);
    var at := ToolPartAt(trace, parts, starts, id, first);
    var i := IndexOfTool(parts, id);
    forall k: nat | k < |parts| && k != i
      ensures Refreshed(parts[k], c) == parts[k]
    {
      if parts[k].Tool? && parts[k].id == id {
        OneToolPart(trace, parts, starts, if i < k then i else k, if i < k then k else i);
      }
    }
  }

  lemma {:induction false} UnknownToolHasNoPart(trace: seq<Chunk>, parts: seq<Part>, starts: seq<nat>, id: string)
    requires AllWellFormed(trace) && Laid(trace, parts, starts) && !Mentions(trace, id)
    ensures forall k | 0 <= k < |parts| :: !(parts[k].Tool? && parts[k].id == id)
  {
    forall k: nat | k < |parts|
      ensures !(parts[k].Tool? && parts[k].id == id)
    {
      assert LaidAt(trace, parts, starts, k);
    }
  }

  /** Parts before the last: each keeps its stretch of the trace. */
  lemma {:induction false} EarlierPartsStay(trace: seq<Chunk>, c: Chunk, parts: seq<Part>, starts: seq<nat>, i: nat)
    requires AllWellFormed(trace) && AllWellFormed(trace + [c]) && WellFormed(c) && Laid(trace, parts, starts)
    requires i < |parts|
    ensures MadeOf(trace + [c], Refreshed(parts[i], c), starts[i], StartOf(starts, |trace|, i + 1))
  {
    assert LaidAt(trace, parts, starts, i);
    MadeOfStays(trace, c, parts[i], starts[i], StartOf(starts, |trace|, i + 1));
  }

  /** The chunk continues the last part, or comes before any part and is silent. */
  lemma {:induction false} LaidContinues(trace: seq<Chunk>, c: Chunk, parts: seq<Part>, starts: seq<nat>,
                                         after: seq<Part>)
    requires AllWellFormed(trace) && AllWellFormed(trace + [c]) && WellFormed(c) && Laid(trace, parts, starts)
    requires |after| == |parts|
    requires if parts == [] then Silent(trace + [c], |trace|)
             else Continues(trace + [c], parts[|parts| - 1], |trace|)
    requires forall i | 0 <= i < |parts| - 1 :: after[i] == Refreshed(parts[i], c)
    requires parts != [] ==> after[|parts| - 1] == Extended(parts[|parts| - 1], c)
    ensures Laid(trace + [c], after, starts)
  {
    var longer, n := trace + [c], |parts| - 1;
    forall j: nat | j < StartOf(starts, |longer|, 0)
      ensures Silent(longer, j)
    {
      if j < |trace| {
        SilentStays(trace, c, j);
      }
    }
    forall i: nat | i < |after|
      ensures LaidAt(longer, after, starts, i)
    {
      if i < n {
        EarlierPartsStay(trace, c, parts, starts, i);
      } else {
        assert LaidAt(trace, parts, starts, n);
        MadeOfExtends(trace, c, parts[n], starts[n]);
      }
    }
    forall i | 0 <= i < |after| - 1
      ensures !SameKind(after[i], after[i + 1])
    {
      assert !SameKind(parts[i], parts[i + 1]);
    }
  }

  /** The chunk opens a new part. */
  lemma {:induction false} LaidOpens(trace: seq<Chunk>, c: Chunk, parts: seq<Part>, starts: seq<nat>, p: Part)
    requires AllWellFormed(trace) && AllWellFormed(trace + [c]) && WellFormed(c) && Laid(trace, parts, starts)
    requires MadeOf(trace + [c], p, |trace|, |trace| + 1)
    requires parts != [] ==> !SameKind(parts[|parts| - 1], p)
    requires forall i | 0 <= i < |parts| :: Refreshed(parts[i], c) == parts[i]
    ensures Laid(trace + [c], parts + [p], starts + [|trace|])
  {
    var longer, after, places := trace + [c], parts + [p], starts + [|trace|];
    forall j: nat | j < StartOf(places, |longer|, 0)
      ensures Silent(longer, j)
    {
      SilentStays(trace, c, j);
    }
    forall i: nat | i < |after|
      ensures LaidAt(longer, after, places, i)
    {
      if i < |parts| {
        EarlierPartsStay(trace, c, parts, starts, i);
        assert StartOf(places, |longer|, i + 1) == StartOf(starts, |trace|, i + 1);
      }
    }
    forall i | 0 <= i < |after| - 1
      ensures !SameKind(after[i], after[i + 1])
    {
      assert i < |parts| - 1 ==> !SameKind(parts[i], parts[i + 1]);
    }
  }

  lemma {:induction false} LaidStep(trace: seq<Chunk>, c: Chunk, parts: seq<Part>, starts: seq<nat>)
    returns (places: seq<nat>)
    requires AllWellFormed(trace) && WellFormed(c) && Laid(trace, parts, starts)
    ensures AllWellFormed(trace + [c]) && Laid(trace + [c], AppendChunk(parts, c), places)
  {
    var longer, after := trace + [c], AppendChunk(parts, c);
    assert longer[..|trace|] == trace && longer[|trace|] == c;
    match c
    case Finished =>
      places := starts;
      LaidContinues(trace, c, parts, starts, after);
    case TextDelta(delta) => places := DeltaStep(trace, c, parts, starts, Text(delta));
    case ReasoningDelta(delta) => places := DeltaStep(trace, c, parts, starts, Reasoning(delta));
    case ToolDelta(tool) =>
      if Mentions(trace, tool.id) {
        places := starts;
        ReplaceRefreshes(trace, parts, starts, c);
        var first := FirstMention(trace, tool.id);
        var _ := ToolPartAt(trace, parts, starts, tool.id, first);
        LaidContinues(trace, c, parts, starts, after);
      } else {
        places := starts + [|trace|];
        UnknownToolHasNoPart(trace, parts, starts, tool.id);
        MadeOfLast(trace, c, ToolPart(tool).value);
        LaidOpens(trace, c, parts, starts, ToolPart(tool).value);
      }
  }

  lemma {:induction false} DeltaStep(trace: seq<Chunk>, c: Chunk, parts: seq<Part>, starts: seq<nat>, p: Part)
    returns (places: seq<nat>)
    requires AllWellFormed(trace) && AllWellFormed(trace + [c]) && WellFormed(c) && Laid(trace, parts, starts)
    requires (c.TextDelta? && p == Text(c.delta)) || (c.ReasoningDelta? && p == Reasoning(c.delta))
    ensures Laid(trace + [c], AppendChunk(parts, c), places)
  {
    assert (trace + [c])[|trace|] == c;
    if parts != [] && SameKind(parts[|parts| - 1], p) {
      places := starts;
      LaidContinues(trace, c, parts, starts, AppendChunk(parts, c));
    } else {
      places := starts + [|trace|];
      MadeOfLast(trace, c, p);
      LaidOpens(trace, c, parts, starts, p);
    }
  }

  /** The message of any trace cuts it into its parts. */
  lemma {:induction false} MessageIsLaid(trace: seq<Chunk>) returns (starts: seq<nat>)
    requires AllWellFormed(trace)
    ensures Laid(trace, Message(trace), starts)
  {
    if trace == [] {
      starts := [];
      LatestMapMeaning([]);
    } else {
      var n := |trace| - 1;
      assert trace == trace[..n] + [trace[n]];
      var before := MessageIsLaid(trace[..n]);
      MessageStep(trace[..n], trace[n]);
      starts := LaidStep(trace[..n], trace[n], Message(trace[..n]), before);
    }
  }

  /** So the layout determines the message: no other list of parts cuts the trace. */
  lemma {:induction false} MessageIsTheOnlyLayout(trace: seq<Chunk>, parts: seq<Part>)
    requires AllWellFormed(trace)
    ensures (exists starts :: Laid(trace, parts, starts)) <==> parts == Message(trace)
  {
    var own := MessageIsLaid(trace);
    if starts :| Laid(trace, parts, starts) {
      LayoutIsUnique(trace, parts, starts, Message(trace), own);
    }
  }

  // ---- what stands before a part ----

  lemma {:induction false} DeltasConcat(a: seq<Chunk>, b: seq<Chunk>, reasoning: bool)
    ensures DeltasOf(a + b, reasoning) == DeltasOf(a, reasoning) + DeltasOf(b, reasoning)
  {
    if b == [] {
      assert a + b == a;
    } else {
      var n := |b| - 1;
      assert a + b == a + b[..n] + [b[n]] && b == b[..n] + [b[n]];
      DeltasConcat(a, b[..n], reasoning);
      DeltasAppend(a + b[..n], b[n], reasoning);
      DeltasAppend(b[..n], b[n], reasoning);
    }
  }

  lemma {:induction false} TextAppend(parts: seq<Part>, p: Part, reasoning: bool)
    ensures TextOf(parts + [p], reasoning) == TextOf(parts, reasoning) + TextOf([p], reasoning)
  {
    var all := parts + [p];
    if parts == [] {
      assert all == [p];
    } else {
      assert all[0] == parts[0] && all[1..] == parts[1..] + [p];
      TextAppend(parts[1..], p, reasoning);
      Regroup(Said(parts[0], reasoning), TextOf(parts[1..], reasoning), TextOf([p], reasoning));
    }
  }

  lemma {:induction false} NoDeltas(trace: seq<Chunk>, reasoning: bool)
    requires forall j | 0 <= j < |trace| :: if reasoning then !trace[j].ReasoningDelta? else !trace[j].TextDelta?
    ensures DeltasOf(trace, reasoning) == ""
  {
    if trace != [] {
      NoDeltas(trace[1..], reasoning);
    }
  }

  lemma {:induction false} PartText(trace: seq<Chunk>, p: Part, from: nat, to: nat, reasoning: bool)
    requires AllWellFormed(trace) && MadeOf(trace, p, from, to)
    ensures TextOf([p], reasoning) == DeltasOf(trace[from..to], reasoning)
  {
    assert [p][1..] == [];
    if !(if reasoning then p.Reasoning? else p.Text?) {
      forall j: nat | j < to - from
        ensures if reasoning then !trace[from..to][j].ReasoningDelta? else !trace[from..to][j].TextDelta?
      {
        assert j > 0 ==> Continues(trace, p, from + j);
      }
      NoDeltas(trace[from..to], reasoning);
    }
  }

  lemma {:induction false} NoTextAtFirst(trace: seq<Chunk>, parts: seq<Part>, starts: seq<nat>, reasoning: bool)
    requires AllWellFormed(trace) && Laid(trace, parts, starts)
    ensures DeltasOf(trace[..StartOf(starts, |trace|, 0)], reasoning) == ""
  {
    var head := trace[..StartOf(starts, |trace|, 0)];
    forall j: nat | j < |head|
      ensures !head[j].TextDelta? && !head[j].ReasoningDelta?
    {
      assert Silent(trace, j);
    }
    NoDeltas(head, reasoning);
  }

  /** One more part says what one more stretch of the trace says. */
  lemma {:induction false} TextSplit(trace: seq<Chunk>, parts: seq<Part>, i: nat, from: nat, to: nat, reasoning: bool)
    requires i < |parts| && from <= to <= |trace|
    requires TextOf([parts[i]], reasoning) == DeltasOf(trace[from..to], reasoning)
    requires TextOf(parts[..i], reasoning) == DeltasOf(trace[..from], reasoning)
    ensures TextOf(parts[..i + 1], reasoning) == DeltasOf(trace[..to], reasoning)
  {
    assert parts[..i + 1] == parts[..i] + [parts[i]];
    TextAppend(parts[..i], parts[i], reasoning);
    assert trace[..to] == trace[..from] + trace[from..to];
    DeltasConcat(trace[..from], trace[from..to], reasoning);
  }

  /** The text and the reasoning standing before part `i` are those that came before the chunk that opened it. */
  lemma {:induction false} TextBefore(trace: seq<Chunk>, parts: seq<Part>, starts: seq<nat>, i: nat, reasoning: bool)
    requires AllWellFormed(trace) && Laid(trace, parts, starts) && i <= |parts|
    ensures StartOf(starts, |trace|, i) <= |trace|
    ensures TextOf(parts[..i], reasoning) == DeltasOf(trace[..StartOf(starts, |trace|, i)], reasoning)
  {
    if i == 0 {
      NoTextAtFirst(trace, parts, starts, reasoning);
    } else {
      var k, from, to := i - 1, starts[i - 1], StartOf(starts, |trace|, i);
      TextBefore(trace, parts, starts, k, reasoning);
      assert LaidAt(trace, parts, starts, k);
      PartText(trace, parts[k], from, to, reasoning);
      TextSplit(trace, parts, k, from, to, reasoning);
    }
  }

  /** Each call stands where its first chunk came: after the text and reasoning before it, before the rest. */
  lemma {:induction false} ToolStandsAtFirst(trace: seq<Chunk>, i: nat, j: nat, reasoning: bool)
    requires AllWellFormed(trace) && i < |Message(trace)| && Message(trace)[i].Tool?
    requires j < |trace| && IsTool(trace[j], Message(trace)[i].id) && !Mentions(trace[..j], Message(trace)[i].id)
    ensures TextOf(Message(trace)[..i], reasoning) == DeltasOf(trace[..j], reasoning)
  {
    var parts, id := Message(trace), Message(trace)[i].id;
    var starts := MessageIsLaid(trace);
    var k := ToolPartAt(trace, parts, starts, id, j);
    if k != i {
      OneToolPart(trace, parts, starts, if i < k then i else k, if i < k then k else i);
    }
    TextBefore(trace, parts, starts, i, reasoning);
  }

  /**
   The message of any trace: text and reasoning concatenate in order, no two neighbours could be
   merged, tool-call ids are distinct and stand in the order of their first chunks, each call carries
   its latest payload, and the text and reasoning before it are those that came before its first chunk.
   */
  lemma {:induction false} MessageShape(trace: seq<Chunk>)
    requires AllWellFormed(trace)
    ensures TextOf(Message(trace), false) == DeltasOf(trace, false)
    ensures TextOf(Message(trace), true) == DeltasOf(trace, true)
    ensures NoMergeable(Message(trace))
    ensures ToolIds(Message(trace)) == FirstIds(trace) && Distinct(FirstIds(trace))
    ensures forall i: nat | i < |Message(trace)| && Message(trace)[i].Tool? ::
      Mentions(trace, Message(trace)[i].id) && Message(trace)[i].payload == Latest(trace, Message(trace)[i].id)
    ensures forall i: nat, j: nat, reasoning: bool | i < |Message(trace)| && Message(trace)[i].Tool? && j < |trace|
      && IsTool(trace[j], Message(trace)[i].id) && !Mentions(trace[..j], Message(trace)[i].id) ::
      TextOf(Message(trace)[..i], reasoning) == DeltasOf(trace[..j], reasoning)
  {
    ShapeOfRuns(trace);
    forall i: nat, j: nat, reasoning: bool | i < |Message(trace)| && Message(trace)[i].Tool? && j < |trace|
      && IsTool(trace[j], Message(trace)[i].id) && !Mentions(trace[..j], Message(trace)[i].id)
      ensures TextOf(Message(trace)[..i], reasoning) == DeltasOf(trace[..j], reasoning)
    {
      ToolStandsAtFirst(trace, i, j, reasoning);
    }
  }

  lemma {:induction false} ShapeOfRuns(trace: seq<Chunk>)
    requires AllWellFormed(trace)
    ensures TextOf(Message(trace), false) == DeltasOf(trace, false)
    ensures TextOf(Message(trace), true) == DeltasOf(trace, true)
    ensures NoMergeable(Message(trace))
    ensures ToolIds(Message(trace)) == FirstIds(trace) && Distinct(FirstIds(trace))
    ensures forall i: nat | i < |Message(trace)| && Message(trace)[i].Tool? ::
      Mentions(trace, Message(trace)[i].id) && Message(trace)[i].payload == Latest(trace, Message(trace)[i].id)
  {
    var ks, latest := Kept(trace), LatestMap(trace);
    LatestMapMeaning(trace);
    RunsText(ks, latest, false);
    RunsText(ks, latest, true);
    KeptDeltas(trace, false);
    KeptDeltas(trace, true);
    RunsAreMaximal(ks, latest);
    RunsToolIds(ks, latest);
    KeptToolIds(trace);
    forall i: nat | i < |Message(trace)| && Message(trace)[i].Tool?
      ensures Mentions(trace, Message(trace)[i].id)
      ensures Message(trace)[i].payload == Latest(trace, Message(trace)[i].id)
    {
      RunsPayload(ks, latest, Message(trace)[i]);
    }
  }
}
