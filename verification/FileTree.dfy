/** The tables of the virtual file system, and the directory forest they form. */
module FileTree {
  import opened Wrappers

  type Id = nat

  datatype Directory = Directory(workspace: Id, name: string, parent: Option<Id>)

  datatype Asset = Asset(workspace: Id, name: string, directory: Option<Id>)

  /** A project using an asset. */
  datatype Use = Use(asset: Id, project: Id)

  datatype Project = Project(workspace: Id, name: string)

  type Directories = map<Id, Directory>

  datatype Tables = Tables(dirs: Directories, assets: map<Id, Asset>, uses: set<Use>, projects: map<Id, Project>)

  // ---- ancestors ----

  /** The directory `n` levels above `x`. */
  function Climb(dirs: Directories, x: Id, n: nat): (r: Option<Id>)
    ensures r.Some? ==> r.value in dirs
    decreases n
  {
    if x !in dirs then None
    else if n == 0 then Some(x)
    else if dirs[x].parent.None? then None
    else Climb(dirs, dirs[x].parent.value, n - 1)
  }

  /** `x` is `d` or a descendant of it. */
  ghost predicate Below(dirs: Directories, x: Id, d: Id) {
    exists n: nat :: Climb(dirs, x, n) == Some(d)
  }

  lemma {:induction false} BelowUnfold(dirs: Directories, x: Id, d: Id)
    requires x in dirs
    ensures Below(dirs, x, d) <==> x == d || (dirs[x].parent.Some? && Below(dirs, dirs[x].parent.value, d))
  {
    if x == d {
      assert Climb(dirs, x, 0) == Some(d);
    }
    if dirs[x].parent.Some? && Below(dirs, dirs[x].parent.value, d) {
      var n: nat :| Climb(dirs, dirs[x].parent.value, n) == Some(d);
      assert Climb(dirs, x, n + 1) == Some(d);
    }
    if Below(dirs, x, d) && x != d {
      var n: nat :| Climb(dirs, x, n) == Some(d);
      assert n > 0 && Climb(dirs, dirs[x].parent.value, n - 1) == Some(d);
    }
  }

  /** Parents exist and lie in the same workspace. */
  ghost predicate Closed(dirs: Directories) {
    forall d | d in dirs && dirs[d].parent.Some? ::
      dirs[d].parent.value in dirs && dirs[dirs[d].parent.value].workspace == dirs[d].workspace
  }

  /** `rank` grows from every parent to its children. */
  ghost predicate Ranks(dirs: Directories, rank: map<Id, nat>) {
    && (forall d | d in dirs :: d in rank)
    && (forall d | d in dirs && dirs[d].parent.Some? ::
          dirs[d].parent.value in rank && rank[dirs[d].parent.value] < rank[d])
  }

  /** Every directory has a finite chain of parents up to a root. */
  ghost predicate Forest(dirs: Directories) {
    Closed(dirs) && exists rank :: Ranks(dirs, rank)
  }

  lemma {:induction false} ClimbRank(dirs: Directories, rank: map<Id, nat>, x: Id, n: nat)
    requires Closed(dirs) && Ranks(dirs, rank) && Climb(dirs, x, n).Some?
    ensures Climb(dirs, x, n).value in dirs && rank[Climb(dirs, x, n).value] + n <= rank[x]
    ensures dirs[Climb(dirs, x, n).value].workspace == dirs[x].workspace
    decreases n
  {
    if n > 0 {
      ClimbRank(dirs, rank, dirs[x].parent.value, n - 1);
    }
  }

  /** The chain of every directory ends at a root after finitely many steps. */
  lemma {:induction false} ChainsAreFinite(dirs: Directories, rank: map<Id, nat>, x: Id)
    requires Closed(dirs) && Ranks(dirs, rank) && x in dirs
    ensures exists n: nat :: n <= rank[x] && Climb(dirs, x, n).Some? && dirs[Climb(dirs, x, n).value].parent.None?
    decreases rank[x]
  {
    if dirs[x].parent.None? {
      assert Climb(dirs, x, 0) == Some(x);
    } else {
      var p := dirs[x].parent.value;
      ChainsAreFinite(dirs, rank, p);
      var n: nat :| n <= rank[p] && Climb(dirs, p, n).Some? && dirs[Climb(dirs, p, n).value].parent.None?;
      assert Climb(dirs, x, n + 1) == Climb(dirs, p, n);
    }
  }

  lemma {:induction false} BelowRank(dirs: Directories, rank: map<Id, nat>, x: Id, d: Id)
    requires Closed(dirs) && Ranks(dirs, rank) && Below(dirs, x, d)
    ensures x in dirs && d in dirs && rank[d] <= rank[x] && (rank[d] == rank[x] ==> x == d)
    ensures dirs[d].workspace == dirs[x].workspace
  {
    var n: nat :| Climb(dirs, x, n) == Some(d);
    ClimbRank(dirs, rank, x, n);
  }

  // ---- moving a directory ----

  function Moved(dirs: Directories, d: Id, parent: Option<Id>): Directories
    requires d in dirs
  {
    dirs[d := dirs[d].(parent := parent)]
  }

  lemma {:induction false} ClimbToMoved(dirs: Directories, d: Id, parent: Option<Id>, x: Id, n: nat)
    requires d in dirs && Climb(dirs, x, n) == Some(d)
    ensures Below(Moved(dirs, d, parent), x, d)
    decreases n
  {
    var moved := Moved(dirs, d, parent);
    if x == d {
      assert Climb(moved, x, 0) == Some(d);
    } else {
      ClimbToMoved(dirs, d, parent, dirs[x].parent.value, n - 1);
      BelowUnfold(moved, x, d);
    }
  }

  lemma {:induction false} MoveKeepsForest(dirs: Directories, d: Id, parent: Option<Id>)
    requires Forest(dirs) && d in dirs
    requires parent.Some? ==> parent.value in dirs && dirs[parent.value].workspace == dirs[d].workspace
    requires parent.Some? ==> !Below(dirs, parent.value, d)
    ensures Forest(Moved(dirs, d, parent))
  {
    var rank :| Ranks(dirs, rank);
    var moved := Moved(dirs, d, parent);
    var lift := if parent.Some? then rank[parent.value] + 1 else 0;
    var raised := map x | x in dirs :: if Below(dirs, x, d) then rank[x] + lift else rank[x];
    forall x | x in moved && moved[x].parent.Some?
      ensures moved[x].parent.value in raised && raised[moved[x].parent.value] < raised[x]
    {
      BelowUnfold(dirs, x, d);
    }
    assert Ranks(moved, raised);
  }

  /** On a valid parent, moving closes a cycle exactly when the parent lies below the moved directory. */
  lemma {:induction false} MoveClosesCycleIff(dirs: Directories, d: Id, parent: Id)
    requires Forest(dirs) && d in dirs && parent in dirs && dirs[parent].workspace == dirs[d].workspace
    ensures Forest(Moved(dirs, d, Some(parent))) <==> !Below(dirs, parent, d)
  {
    if Below(dirs, parent, d) {
      var moved := Moved(dirs, d, Some(parent));
      var n: nat :| Climb(dirs, parent, n) == Some(d);
      ClimbToMoved(dirs, d, Some(parent), parent, n);
      if Forest(moved) {
        var rank :| Ranks(moved, rank);
        BelowRank(moved, rank, parent, d);
      }
    } else {
      MoveKeepsForest(dirs, d, Some(parent));
    }
  }

  lemma {:induction false} NotThere(dirs: Directories, x: Id, y: Id)
    requires x !in dirs
    ensures !Below(dirs, x, y)
  {
  }

  /** What is not below the moved directory keeps its ancestors. */
  lemma {:induction false} MoveLeavesOthers(dirs: Directories, rank: map<Id, nat>, d: Id, parent: Option<Id>, x: Id,
                                            y: Id)
    requires Ranks(dirs, rank) && d in dirs && x in dirs && !Below(dirs, x, d)
    requires forall c | c in dirs && dirs[c].parent.Some? :: dirs[c].parent.value in dirs
    ensures Below(Moved(dirs, d, parent), x, y) <==> Below(dirs, x, y)
    decreases rank[x]
  {
    BelowUnfold(dirs, x, d);
    BelowUnfold(dirs, x, y);
    BelowUnfold(Moved(dirs, d, parent), x, y);
    if dirs[x].parent.Some? {
      MoveLeavesOthers(dirs, rank, d, parent, dirs[x].parent.value, y);
    }
  }

  lemma {:induction false} AncestorsAfterMove(dirs: Directories, rank: map<Id, nat>, d: Id, parent: Option<Id>, x: Id,
                                              y: Id)
    requires Closed(dirs) && Ranks(dirs, rank) && d in dirs && x in dirs && Below(dirs, x, d)
    requires parent.Some? ==> parent.value in dirs && !Below(dirs, parent.value, d)
    ensures Below(Moved(dirs, d, parent), x, y)
            <==> (Below(dirs, x, y) && Below(dirs, y, d)) || (parent.Some? && Below(dirs, parent.value, y))
    decreases rank[x]
  {
    BelowUnfold(dirs, x, d);
    BelowUnfold(dirs, x, y);
    BelowUnfold(Moved(dirs, d, parent), x, y);
    if x == d {
      if parent.Some? {
        MoveLeavesOthers(dirs, rank, d, parent, parent.value, y);
      }
      if Below(dirs, d, y) && Below(dirs, y, d) {
        BelowRank(dirs, rank, d, y);
        BelowRank(dirs, rank, y, d);
      }
    } else {
      AncestorsAfterMove(dirs, rank, d, parent, dirs[x].parent.value, y);
    }
  }

  /**
   The subtree moves as a whole: what was below the directory keeps its ancestors up to it and gets those
   of the new parent; everything else stays where it was.
   */
  lemma {:induction false} MoveTakesTheSubtree(dirs: Directories, d: Id, parent: Option<Id>, x: Id, y: Id)
    requires Forest(dirs) && d in dirs
    requires parent.Some? ==> parent.value in dirs && !Below(dirs, parent.value, d)
    ensures Below(Moved(dirs, d, parent), x, y)
            <==> if Below(dirs, x, d)
                 then (Below(dirs, x, y) && Below(dirs, y, d)) || (parent.Some? && Below(dirs, parent.value, y))
                 else Below(dirs, x, y)
  {
    var rank :| Ranks(dirs, rank);
    if x !in dirs {
      NotThere(dirs, x, y);
      NotThere(dirs, x, d);
      NotThere(Moved(dirs, d, parent), x, y);
    } else if Below(dirs, x, d) {
      AncestorsAfterMove(dirs, rank, d, parent, x, y);
    } else {
      MoveLeavesOthers(dirs, rank, d, parent, x, y);
    }
  }

  // ---- subtrees ----

  ghost function Subtree(dirs: Directories, d: Id): set<Id> {
    set x | x in dirs && Below(dirs, x, d)
  }

  /** A child's subtree is a proper part of its parent's. */
  lemma {:induction false} ChildSubtree(dirs: Directories, d: Id, c: Id)
    requires Forest(dirs) && c in dirs && dirs[c].parent == Some(d)
    ensures Subtree(dirs, c) < Subtree(dirs, d)
    ensures forall x :: Below(dirs, x, c) ==> Below(dirs, x, d) && x != d
  {
    var rank :| Ranks(dirs, rank);
    assert d in dirs && Climb(dirs, c, 1) == Climb(dirs, d, 0) == Some(d);
    forall x | Below(dirs, x, c) ensures Below(dirs, x, d) && x != d {
      var n: nat :| Climb(dirs, x, n) == Some(c);
      ClimbAdd(dirs, x, n, c, 1, d);
      assert Climb(dirs, x, n + 1) == Some(d);
      BelowRank(dirs, rank, x, c);
    }
    assert d in Subtree(dirs, d) by { BelowUnfold(dirs, d, d); }
  }

  lemma {:induction false} ClimbAdd(dirs: Directories, x: Id, n: nat, y: Id, m: nat, z: Id)
    requires Climb(dirs, x, n) == Some(y) && Climb(dirs, y, m) == Some(z)
    ensures Climb(dirs, x, n + m) == Some(z)
    decreases n
  {
    if n > 0 {
      ClimbAdd(dirs, dirs[x].parent.value, n - 1, y, m, z);
    }
  }

  lemma {:induction false} ClimbSplit(dirs: Directories, x: Id, n: nat, y: Id, m: nat, z: Id)
    requires Climb(dirs, x, n) == Some(y) && Climb(dirs, x, n + m) == Some(z)
    ensures Climb(dirs, y, m) == Some(z)
    decreases n
  {
    if n > 0 {
      ClimbSplit(dirs, dirs[x].parent.value, n - 1, y, m, z);
    }
  }

  /** Everything below a directory is the directory itself or below exactly one of its children. */
  lemma {:induction false} BelowAChild(dirs: Directories, d: Id, x: Id)
    requires Forest(dirs) && Below(dirs, x, d) && x != d
    ensures exists c :: c in dirs && dirs[c].parent == Some(d) && Below(dirs, x, c)
  {
    var n: nat :| Climb(dirs, x, n) == Some(d);
    ChildOnPath(dirs, d, x, n);
  }

  lemma {:induction false} ChildOnPath(dirs: Directories, d: Id, x: Id, n: nat)
    requires Climb(dirs, x, n) == Some(d) && n > 0
    ensures exists c :: c in dirs && dirs[c].parent == Some(d) && Below(dirs, x, c)
    decreases n
  {
    if n == 1 {
      assert dirs[x].parent == Some(d) by { assert Climb(dirs, dirs[x].parent.value, 0) == Some(d); }
      BelowUnfold(dirs, x, x);
    } else {
      var p := dirs[x].parent.value;
      ChildOnPath(dirs, d, p, n - 1);
      var c :| c in dirs && dirs[c].parent == Some(d) && Below(dirs, p, c);
      BelowUnfold(dirs, x, c);
    }
  }

  lemma {:induction false} SiblingsAreDisjoint(dirs: Directories, d: Id, a: Id, b: Id, x: Id)
    requires Forest(dirs) && a in dirs && b in dirs && dirs[a].parent == Some(d) && dirs[b].parent == Some(d)
    requires Below(dirs, x, a) && Below(dirs, x, b)
    ensures a == b
  {
    var m: nat :| Climb(dirs, x, m) == Some(a);
    var n: nat :| Climb(dirs, x, n) == Some(b);
    if m < n {
      ClimbSplit(dirs, x, m, a, n - m, b);
      SiblingNotBelow(dirs, d, a, b, n - m);
    } else if n < m {
      ClimbSplit(dirs, x, n, b, m - n, a);
      SiblingNotBelow(dirs, d, b, a, m - n);
    }
  }

  lemma {:induction false} SiblingNotBelow(dirs: Directories, d: Id, a: Id, b: Id, k: nat)
    requires Forest(dirs) && a in dirs && b in dirs && dirs[a].parent == Some(d) && dirs[b].parent == Some(d)
    requires k > 0
    ensures Climb(dirs, a, k) != Some(b)
  {
    var rank :| Ranks(dirs, rank);
    if Climb(dirs, a, k) == Some(b) {
      ClimbRank(dirs, rank, d, k - 1);
    }
  }

  // ---- removing a subtree ----

  ghost function Removed(dirs: Directories, d: Id): Directories {
    map x | x in dirs && !Below(dirs, x, d) :: dirs[x]
  }

  lemma {:induction false} RemoveKeepsForest(dirs: Directories, d: Id)
    requires Forest(dirs)
    ensures Forest(Removed(dirs, d))
  {
    var rank :| Ranks(dirs, rank);
    var left := Removed(dirs, d);
    forall x | x in left && left[x].parent.Some? ensures left[x].parent.value in left {
      BelowUnfold(dirs, x, d);
    }
    assert Ranks(left, rank);
  }

  lemma {:induction false} CreateKeepsForest(dirs: Directories, id: Id, dir: Directory)
    requires Forest(dirs) && id !in dirs
    requires dir.parent.Some? ==> dir.parent.value in dirs && dirs[dir.parent.value].workspace == dir.workspace
    ensures Forest(dirs[id := dir])
  {
    var rank :| Ranks(dirs, rank);
    assert Ranks(dirs[id := dir], rank[id := if dir.parent.Some? then rank[dir.parent.value] + 1 else 0]);
  }

  lemma {:induction false} RenameKeepsForest(dirs: Directories, d: Id, name: string)
    requires Forest(dirs) && d in dirs
    ensures Forest(dirs[d := dirs[d].(name := name)])
  {
    var rank :| Ranks(dirs, rank);
    assert Ranks(dirs[d := dirs[d].(name := name)], rank);
  }
}
