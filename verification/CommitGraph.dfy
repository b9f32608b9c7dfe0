/**
 Project history: commits, their parent edges and the branch tips. A commit request first compares
 its assumed tip with the branch and later writes in one transaction, so requests may overlap.
 */
module CommitGraph {
  import opened Wrappers

  /** Commits are numbered from 1 in order of creation; 0 is the zero UUID, which names no commit. */
  type CommitId = nat

  datatype ParentRow = ParentRow(commit: CommitId, parent: CommitId, position: nat)

  /** Branches are unique by project and name. */
  datatype BranchKey = BranchKey(project: nat, name: string)

  /** The tables: the project of each commit, the parent edges, and the tip of each branch. */
  datatype Repo = Repo(commits: seq<nat>, parents: set<ParentRow>, branches: map<BranchKey, Option<CommitId>>)

  /** A commit request: where, and the tip the client started from, if it names one. */
  datatype Request = Request(branch: BranchKey, previous: Option<CommitId>)

  datatype CheckResult = Passed | NoBranch | Stale(assumed: CommitId, current: CommitId)

  datatype CommitError = UnknownParent

  predicate Exists(repo: Repo, c: CommitId) {
    1 <= c <= |repo.commits|
  }

  function ProjectOf(repo: Repo, c: CommitId): nat
    requires Exists(repo, c)
  {
    repo.commits[c - 1]
  }

  /** A branch without commits prints the zero UUID as its tip. */
  function TipId(tip: Option<CommitId>): CommitId {
    if tip.Some? then tip.value else 0
  }

  /** The stale-tip check. */
  function Check(repo: Repo, r: Request): CheckResult {
    if r.branch !in repo.branches then NoBranch
    else
      var current := TipId(repo.branches[r.branch]);
      if r.previous.Some? && r.previous.value != current then Stale(r.previous.value, current) else Passed
  }

  /** The transaction: commit row, parent edge when a previous commit is named, new tip. */
  function Persist(repo: Repo, r: Request): Result<Repo, CommitError> {
    var id := |repo.commits| + 1;
    if r.previous.Some? && !Exists(repo, r.previous.value) then Err(UnknownParent)
    else Ok(Repo(repo.commits + [r.branch.project],
                 if r.previous.Some? then repo.parents + {ParentRow(id, r.previous.value, 0)} else repo.parents,
                 repo.branches[r.branch := Some(id)]))
  }

  class ProjectStore {
    var commits: seq<nat>
    var parents: set<ParentRow>
    var branches: map<BranchKey, Option<CommitId>>

    ghost function State(): Repo
      reads this
    {
      Repo(commits, parents, branches)
    }

    constructor ()
      ensures State() == Repo([], {}, map[])
    {
      commits, parents, branches := [], {}, map[];
    }

    /** The first half of `CommitEdit`: nothing is written. */
    method CheckTip(branch: BranchKey, previous: Option<CommitId>) returns (r: CheckResult)
      ensures r == Check(State(), Request(branch, previous))
    {
      if branch !in branches {
        return NoBranch;
      }
      var tip := branches[branch];
      if previous.Some? && previous.value != TipId(tip) {
        return Stale(previous.value, TipId(tip));
      }
      return Passed;
    }

    /** The second half of `CommitEdit`; a failing statement rolls the transaction back. */
    method PersistCommit(branch: BranchKey, previous: Option<CommitId>) returns (r: Result<CommitId, CommitError>)
      modifies this
      ensures match Persist(old(State()), Request(branch, previous))
              case Err(e) => r == Err(e) && State() == old(State())
              case Ok(repo) => r == Ok(|old(commits)| + 1) && State() == repo
    {
      var before := commits;
      commits := commits + [branch.project];
      var id := |commits|;
      if previous.Some? {
        if !(1 <= previous.value <= |before|) {
          commits := before;
          return Err(UnknownParent);
        }
        parents := parents + {ParentRow(id, previous.value, 0)};
      }
      branches := branches[branch := Some(id)];
      return Ok(id);
    }
  }

  // ---- what every step keeps ----

  /** Edges lead to earlier commits of the same project, at most one from each; tips belong to their project. */
  ghost predicate SoundRepo(repo: Repo) {
    && (forall e | e in repo.parents ::
          1 <= e.parent < e.commit <= |repo.commits| && e.position == 0
          && ProjectOf(repo, e.parent) == ProjectOf(repo, e.commit))
    && (forall e, f | e in repo.parents && f in repo.parents && e.commit == f.commit :: e == f)
    && (forall b | b in repo.branches && repo.branches[b].Some? ::
          Exists(repo, repo.branches[b].value) && ProjectOf(repo, repo.branches[b].value) == b.project)
  }

  /** The tables and the requests that have passed their check but not written yet. */
  datatype World = World(repo: Repo, pending: seq<Request>)

  datatype Step = CreateBranch(branch: BranchKey) | Begin(request: Request) | Finish(i: nat)

  predicate Enabled(w: World, s: Step) {
    match s
    case CreateBranch(b) => b !in w.repo.branches
    case Begin(_) => true
    case Finish(i) => i < |w.pending|
  }

  function Next(w: World, s: Step): World
    requires Enabled(w, s)
  {
    match s
    case CreateBranch(b) => w.(repo := w.repo.(branches := w.repo.branches[b := None]))
    case Begin(r) => if Check(w.repo, r).Passed? then w.(pending := w.pending + [r]) else w
    case Finish(i) =>
      World(match Persist(w.repo, w.pending[i]) case Ok(repo) => repo case Err(_) => w.repo,
            w.pending[..i] + w.pending[i + 1..])
  }

  function Run(steps: seq<Step>): Option<World> {
    if steps == [] then Some(World(Repo([], {}, map[]), []))
    else
      var n := |steps| - 1;
      match Run(steps[..n])
      case None => None
      case Some(w) => if Enabled(w, steps[n]) then Some(Next(w, steps[n])) else None
  }

  /** A request in flight names a commit of its own project, or the zero UUID. */
  ghost predicate SoundRequest(repo: Repo, r: Request) {
    && r.branch in repo.branches
    && (r.previous.Some? && r.previous.value != 0 ==>
          Exists(repo, r.previous.value) && ProjectOf(repo, r.previous.value) == r.branch.project)
  }

  ghost predicate Inv(w: World) {
    SoundRepo(w.repo) && forall i | 0 <= i < |w.pending| :: SoundRequest(w.repo, w.pending[i])
  }

  lemma {:induction false} PersistSound(repo: Repo, r: Request)
    requires SoundRepo(repo) && SoundRequest(repo, r) && Persist(repo, r).Ok?
    ensures SoundRepo(Persist(repo, r).value)
    ensures forall q | SoundRequest(repo, q) :: SoundRequest(Persist(repo, r).value, q)
  {
  }

  lemma {:induction false} InvStep(w: World, s: Step)
    requires Inv(w) && Enabled(w, s)
    ensures Inv(Next(w, s))
  {
    if s.Finish? && Persist(w.repo, w.pending[s.i]).Ok? {
      PersistSound(w.repo, w.pending[s.i]);
    }
  }

  /** Whatever the interleaving of checks and transactions, the commit graph stays sound. */
  lemma {:induction false} EveryRunIsSound(steps: seq<Step>)
    requires Run(steps).Some?
    ensures Inv(Run(steps).value)
  {
    if steps != [] {
      EveryRunIsSound(steps[..|steps| - 1]);
      InvStep(Run(steps[..|steps| - 1]).value, steps[|steps| - 1]);
    }
  }

  // ---- the history query ----

  /** The rows the recursive query finds at a depth: the tip, then the first parents of the level above. */
  ghost function RowsAt(repo: Repo, tip: Option<CommitId>, depth: nat): set<CommitId> {
    if depth == 0 then (if tip.Some? && Exists(repo, tip.value) then {tip.value} else {})
    else set e | e in repo.parents && e.position == 0 && e.commit in RowsAt(repo, tip, depth - 1) :: e.parent
  }

  ghost predicate HasParent(repo: Repo, c: CommitId) {
    exists e :: e in repo.parents && e.commit == c
  }

  ghost function FirstParent(repo: Repo, c: CommitId): (p: CommitId)
    requires SoundRepo(repo) && HasParent(repo, c)
    ensures ParentRow(c, p, 0) in repo.parents && 1 <= p < c
  {
    var e :| e in repo.parents && e.commit == c;
    e.parent
  }

  /** The first-parent chain of a commit, newest first. */
  ghost function Chain(repo: Repo, c: CommitId): (h: seq<CommitId>)
    requires SoundRepo(repo)
    ensures h != [] && h[0] == c
    decreases c
  {
    if HasParent(repo, c) then [c] + Chain(repo, FirstParent(repo, c)) else [c]
  }

  ghost function History(repo: Repo, tip: Option<CommitId>): seq<CommitId>
    requires SoundRepo(repo)
  {
    if tip.Some? then Chain(repo, tip.value) else []
  }

  lemma {:induction false} ChainMeaning(repo: Repo, c: CommitId)
    requires SoundRepo(repo) && Exists(repo, c)
    ensures |Chain(repo, c)| <= c
    ensures forall i: nat | i < |Chain(repo, c)| ::
      Exists(repo, Chain(repo, c)[i]) && ProjectOf(repo, Chain(repo, c)[i]) == ProjectOf(repo, c)
    ensures forall i, j | 0 <= i < j < |Chain(repo, c)| :: Chain(repo, c)[i] > Chain(repo, c)[j]
    decreases c
  {
    if HasParent(repo, c) {
      ChainMeaning(repo, FirstParent(repo, c));
    }
  }

  lemma {:induction false} RowsOfParent(repo: Repo, c: CommitId, depth: nat)
    requires SoundRepo(repo) && Exists(repo, c)
    ensures RowsAt(repo, Some(c), depth + 1) ==
            if HasParent(repo, c) then RowsAt(repo, Some(FirstParent(repo, c)), depth) else {}
  {
    if depth == 0 {
      if HasParent(repo, c) {
        assert ParentRow(c, FirstParent(repo, c), 0) in repo.parents;
      }
    } else {
      RowsOfParent(repo, c, depth - 1);
    }
  }

  lemma {:induction false} ChainOfParent(repo: Repo, c: CommitId, i: nat)
    requires SoundRepo(repo) && HasParent(repo, c) && i > 0
    ensures var above := Chain(repo, FirstParent(repo, c));
      |Chain(repo, c)| == |above| + 1 && (i < |above| + 1 ==> Chain(repo, c)[i] == above[i - 1])
  {
    assert Chain(repo, c) == [c] + Chain(repo, FirstParent(repo, c));
  }

  /** At each depth the query finds the commit of the chain at that place, and below the chain nothing. */
  lemma {:induction false} QueryFollowsTheChain(repo: Repo, c: CommitId, depth: nat)
    requires SoundRepo(repo) && Exists(repo, c)
    ensures RowsAt(repo, Some(c), depth) == if depth < |Chain(repo, c)| then {Chain(repo, c)[depth]} else {}
    decreases depth
  {
    if depth > 0 {
      RowsOfParent(repo, c, depth - 1);
      if HasParent(repo, c) {
        var p := FirstParent(repo, c);
        QueryFollowsTheChain(repo, p, depth - 1);
        ChainOfParent(repo, c, depth);
      } else {
        assert |Chain(repo, c)| == 1;
      }
    }
  }

  /**
   On every reachable repository the history query of a branch terminates: it finds one commit a depth,
   all of the branch's project, and none from the number of commits on.
   */
  lemma {:induction false} HistoryQueryTerminates(steps: seq<Step>, b: BranchKey)
    requires Run(steps).Some? && b in Run(steps).value.repo.branches
    ensures var repo := Run(steps).value.repo;
      && SoundRepo(repo)
      && var tip := repo.branches[b];
         && |History(repo, tip)| <= |repo.commits|
         && (forall d: nat :: RowsAt(repo, tip, d) == if d < |History(repo, tip)| then {History(repo, tip)[d]} else {})
         && (forall i: nat | i < |History(repo, tip)| ::
               Exists(repo, History(repo, tip)[i]) && ProjectOf(repo, History(repo, tip)[i]) == b.project)
  {
    EveryRunIsSound(steps);
    var repo := Run(steps).value.repo;
    var tip := repo.branches[b];
    if tip.Some? {
      ChainMeaning(repo, tip.value);
      forall d: nat
        ensures RowsAt(repo, tip, d) == if d < |History(repo, tip)| then {History(repo, tip)[d]} else {}
      {
        QueryFollowsTheChain(repo, tip.value, d);
      }
    } else {
      forall d: nat ensures RowsAt(repo, tip, d) == {} { EmptyRows(repo, d); }
    }
  }

  lemma {:induction false} EmptyRows(repo: Repo, d: nat)
    ensures RowsAt(repo, None, d) == {}
  {
    if d > 0 { EmptyRows(repo, d - 1); }
  }

  // ---- what a commit does to the histories ----

  lemma {:induction false} ChainStays(repo: Repo, r: Request, c: CommitId)
    requires SoundRepo(repo) && SoundRequest(repo, r) && Persist(repo, r).Ok? && SoundRepo(Persist(repo, r).value)
    requires Exists(repo, c)
    ensures Chain(Persist(repo, r).value, c) == Chain(repo, c)
    decreases c
  {
    var next := Persist(repo, r).value;
    if HasParent(repo, c) {
      var p := FirstParent(repo, c);
      assert ParentRow(c, p, 0) in next.parents;
      ChainStays(repo, r, p);
    }
    assert HasParent(next, c) <==> HasParent(repo, c);
  }

  /** The new history is the new commit followed by the history of the previous commit the request names. */
  lemma {:induction false} NewHistory(repo: Repo, r: Request)
    requires SoundRepo(repo) && SoundRequest(repo, r) && Persist(repo, r).Ok?
    ensures SoundRepo(Persist(repo, r).value)
    ensures History(Persist(repo, r).value, Persist(repo, r).value.branches[r.branch])
            == [|repo.commits| + 1] + History(repo, r.previous)
  {
    PersistSound(repo, r);
    var next, id := Persist(repo, r).value, |repo.commits| + 1;
    if r.previous.Some? {
      assert ParentRow(id, r.previous.value, 0) in next.parents;
      assert FirstParent(next, id) == r.previous.value;
      ChainStays(repo, r, r.previous.value);
    } else {
      assert !HasParent(next, id);
    }
  }

  /** The whole old history follows the new commit exactly when the request names the tip being replaced. */
  lemma {:induction false} HistoryExtendsIff(repo: Repo, r: Request)
    requires SoundRepo(repo) && SoundRequest(repo, r) && Persist(repo, r).Ok?
    ensures SoundRepo(Persist(repo, r).value)
    ensures History(Persist(repo, r).value, Persist(repo, r).value.branches[r.branch])
              == [|repo.commits| + 1] + History(repo, repo.branches[r.branch])
            <==> r.previous == repo.branches[r.branch]
  {
    NewHistory(repo, r);
    var a, b := History(repo, r.previous), History(repo, repo.branches[r.branch]);
    var id := [|repo.commits| + 1];
    assert (id + a)[1..] == a && (id + b)[1..] == b;
  }

  /** Other branches keep their histories. */
  lemma {:induction false} OtherHistoriesStay(repo: Repo, r: Request, b: BranchKey)
    requires SoundRepo(repo) && SoundRequest(repo, r) && Persist(repo, r).Ok?
    requires b in repo.branches && b != r.branch
    ensures SoundRepo(Persist(repo, r).value)
    ensures History(Persist(repo, r).value, Persist(repo, r).value.branches[b]) == History(repo, repo.branches[b])
  {
    PersistSound(repo, r);
    if repo.branches[b].Some? {
      ChainStays(repo, r, repo.branches[b].value);
    }
  }

  /** A commit that nothing overlaps and that names its previous commit extends the history. */
  lemma {:induction false} UndisturbedCommitExtends(repo: Repo, r: Request)
    requires SoundRepo(repo) && Check(repo, r).Passed? && r.previous.Some? && r.previous.value != 0
    ensures Persist(repo, r).Ok? && SoundRepo(Persist(repo, r).value)
    ensures History(Persist(repo, r).value, Persist(repo, r).value.branches[r.branch])
            == [|repo.commits| + 1] + History(repo, repo.branches[r.branch])
  {
    HistoryExtendsIff(repo, r);
  }

  // ---- which requests go through ----

  /** The request starts from the branch as it is: it names no commit, the tip, or zero when there is no tip. */
  predicate StartsFromTip(repo: Repo, r: Request)
    requires r.branch in repo.branches
  {
    match (r.previous, repo.branches[r.branch])
    case (None, _) => true
    case (Some(p), None) => p == 0
    case (Some(p), Some(tip)) => p == tip
  }

  /** The check passes exactly the requests that start from the branch as it is, and says what is wrong with others. */
  lemma {:induction false} CheckPassesIff(repo: Repo, r: Request)
    ensures Check(repo, r).NoBranch? <==> r.branch !in repo.branches
    ensures Check(repo, r).Passed? <==> r.branch in repo.branches && StartsFromTip(repo, r)
    ensures Check(repo, r).Stale? ==>
      && r.branch in repo.branches && r.previous == Some(Check(repo, r).assumed)
      && Check(repo, r).assumed != Check(repo, r).current
      && (Check(repo, r).current == 0 || repo.branches[r.branch] == Some(Check(repo, r).current))
      && (repo.branches[r.branch].None? ==> Check(repo, r).current == 0)
  {
  }

  /** The transaction is refused exactly when the named commit does not exist. */
  lemma {:induction false} PersistsIff(repo: Repo, r: Request)
    ensures Persist(repo, r).Ok? <==> r.previous.None? || 1 <= r.previous.value <= |repo.commits|
    ensures Persist(repo, r).Ok? ==>
      && Persist(repo, r).value.commits == repo.commits + [r.branch.project]
      && Persist(repo, r).value.branches == repo.branches[r.branch := Some(|repo.commits| + 1)]
      && (forall e :: e in Persist(repo, r).value.parents <==>
            e in repo.parents || (Some(e.parent) == r.previous && e.commit == |repo.commits| + 1 && e.position == 0))
  {
  }

  /**
   From every reachable state, a request on a branch of it that names no commit, or the tip, goes through when
   its transaction follows its check: the new commit is the branch's tip, before the history of what it names.
   */
  lemma {:induction false} CommitGoesThrough(steps: seq<Step>, r: Request)
    requires Run(steps).Some? && r.branch in Run(steps).value.repo.branches
    requires r.previous == None || r.previous == Run(steps).value.repo.branches[r.branch]
    ensures var w := Run(steps).value;
      var done, id := Run(steps + [Begin(r), Finish(|w.pending|)]), |w.repo.commits| + 1;
      && done.Some? && SoundRepo(w.repo) && SoundRepo(done.value.repo) && done.value.pending == w.pending
      && done.value.repo.commits == w.repo.commits + [r.branch.project]
      && done.value.repo.branches == w.repo.branches[r.branch := Some(id)]
      && History(done.value.repo, Some(id)) == [id] + History(w.repo, r.previous)
  {
    var w := Run(steps).value;
    var n := |w.pending|;
    EveryRunIsSound(steps);
    CheckPassesIff(w.repo, r);
    CheckedPrevious(w.repo, r);
    NewHistory(w.repo, r);
    RunOneMore(steps, Begin(r));
    RunOneMore(steps + [Begin(r)], Finish(n));
    assert (w.pending + [r])[..n] + (w.pending + [r])[n + 1..] == w.pending;
    assert steps + [Begin(r)] + [Finish(n)] == steps + [Begin(r), Finish(n)];
  }

  /** Naming the zero id on a branch without commits passes the check, and then the transaction writes nothing. */
  lemma {:induction false} ZeroIdIsLetThroughInVain(steps: seq<Step>, r: Request)
    requires Run(steps).Some? && r.branch in Run(steps).value.repo.branches
    requires Run(steps).value.repo.branches[r.branch].None? && r.previous == Some(0)
    ensures var w := Run(steps).value;
      && Check(w.repo, r).Passed?
      && Run(steps + [Begin(r), Finish(|w.pending|)]) == Some(w)
  {
    var w := Run(steps).value;
    var n := |w.pending|;
    RunOneMore(steps, Begin(r));
    RunOneMore(steps + [Begin(r)], Finish(n));
    assert (w.pending + [r])[..n] + (w.pending + [r])[n + 1..] == w.pending;
    assert steps + [Begin(r)] + [Finish(n)] == steps + [Begin(r), Finish(n)];
  }

  // ---- overlapping commits ----

  lemma {:induction false} RunOneMore(steps: seq<Step>, s: Step)
    requires Run(steps).Some? && Enabled(Run(steps).value, s)
    ensures Run(steps + [s]) == Some(Next(Run(steps).value, s))
  {
    assert (steps + [s])[..|steps|] == steps;
  }

  /** A passed check names a commit that was there, or none. */
  lemma {:induction false} CheckedPrevious(repo: Repo, r: Request)
    requires SoundRepo(repo) && Check(repo, r).Passed?
    ensures SoundRequest(repo, r) && (r.previous.Some? ==> r.previous.value <= |repo.commits|)
  {
  }

  /**
   A commit written late drops what was committed since its check: none of the commits made in between
   is in the branch's history any more.
   */
  lemma {:induction false} LateCommitDropsNewer(seen: Repo, repo: Repo, r: Request, c: CommitId)
    requires SoundRepo(seen) && Check(seen, r).Passed?
    requires SoundRepo(repo) && SoundRequest(repo, r) && Persist(repo, r).Ok?
    requires |seen.commits| < c <= |repo.commits|
    ensures SoundRepo(Persist(repo, r).value)
    ensures c !in History(Persist(repo, r).value, Persist(repo, r).value.branches[r.branch])
  {
    NewHistory(repo, r);
    CheckedPrevious(seen, r);
    if r.previous.Some? {
      NewestFirst(repo, r.previous.value);
    }
  }

  lemma {:induction false} NewestFirst(repo: Repo, c: CommitId)
    requires SoundRepo(repo) && Exists(repo, c)
    ensures forall d | d in Chain(repo, c) :: d <= c
  {
    ChainMeaning(repo, c);
  }

  /** Two checks, then two transactions, on the worlds they lead through. */
  function Overlap(pending: nat, first: Request, second: Request): seq<Step> {
    [Begin(first), Begin(second), Finish(pending), Finish(pending)]
  }

  lemma {:induction false} OverlapRuns(steps: seq<Step>, first: Request, second: Request)
    requires Run(steps).Some?
    requires Check(Run(steps).value.repo, first).Passed? && Check(Run(steps).value.repo, second).Passed?
    requires Persist(Run(steps).value.repo, first).Ok?
    requires Persist(Persist(Run(steps).value.repo, first).value, second).Ok?
    ensures var w := Run(steps).value;
      Run(steps + Overlap(|w.pending|, first, second))
      == Some(w.(repo := Persist(Persist(w.repo, first).value, second).value))
  {
    var w := Run(steps).value;
    var n := |w.pending|;
    var both := w.(pending := w.pending + [first] + [second]);
    var one := World(Persist(w.repo, first).value, w.pending + [second]);
    RunOneMore(steps, Begin(first));
    RunOneMore(steps + [Begin(first)], Begin(second));
    assert Run(steps + [Begin(first)] + [Begin(second)]) == Some(both);
    assert both.pending[..n] + both.pending[n + 1..] == one.pending;
    RunOneMore(steps + [Begin(first)] + [Begin(second)], Finish(n));
    assert one.pending[..n] + one.pending[n + 1..] == w.pending;
    RunOneMore(steps + [Begin(first)] + [Begin(second)] + [Finish(n)], Finish(n));
    assert steps + [Begin(first)] + [Begin(second)] + [Finish(n)] + [Finish(n)]
        == steps + Overlap(n, first, second);
  }

  /**
   From any reachable state, two requests on one branch whose checks overlap: both transactions go
   through, and the commit written first is missing from the branch's history.
   */
  lemma {:induction false} OverlappingCommitIsLost(steps: seq<Step>, first: Request, second: Request)
    requires Run(steps).Some? && first.branch == second.branch
    requires Check(Run(steps).value.repo, first).Passed? && Check(Run(steps).value.repo, second).Passed?
    requires first.previous != Some(0) && second.previous != Some(0)
    ensures var w, b := Run(steps).value, first.branch;
      && var lost := |w.repo.commits| + 1;
      && Run(steps + Overlap(|w.pending|, first, second)).Some?
      && var after := Run(steps + Overlap(|w.pending|, first, second)).value.repo;
      && SoundRepo(after) && SoundRepo(w.repo) && Exists(after, lost) && b in after.branches
      && History(after, after.branches[b]) == [lost + 1] + History(w.repo, second.previous)
      && lost !in History(after, after.branches[b])
  {
    EveryRunIsSound(steps);
    BothPersist(Run(steps).value.repo, first, second);
    OverlapRuns(steps, first, second);
  }

  lemma {:induction false} BothPersist(repo: Repo, first: Request, second: Request)
    requires SoundRepo(repo) && first.branch == second.branch
    requires Check(repo, first).Passed? && Check(repo, second).Passed?
    requires first.previous != Some(0) && second.previous != Some(0)
    ensures Persist(repo, first).Ok? && Persist(Persist(repo, first).value, second).Ok?
    ensures var lost, after := |repo.commits| + 1, Persist(Persist(repo, first).value, second).value;
      && SoundRepo(after) && Exists(after, lost) && second.branch in after.branches
      && History(after, after.branches[second.branch]) == [lost + 1] + History(repo, second.previous)
      && lost !in History(after, after.branches[second.branch])
  {
    CheckedPrevious(repo, first);
    CheckedPrevious(repo, second);
    PersistSound(repo, first);
    var once := Persist(repo, first).value;
    NewHistory(once, second);
    LateCommitDropsNewer(repo, once, second, |repo.commits| + 1);
    if second.previous.Some? {
      ChainStays(repo, first, second.previous.value);
    }
  }
}
