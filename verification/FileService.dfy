/** The file-system handlers, and the two project handlers on the same tables. */
module FileService {
  import opened Wrappers
  import opened FileTree
  import opened FileRules

  ghost predicate NoDuplicates<T>(s: seq<T>) {
    forall i, j | 0 <= i < j < |s| :: s[i] != s[j]
  }

  /** The rows of a query, in some order. */
  method RowsOf(ids: set<Id>) returns (rows: seq<Id>)
    ensures NoDuplicates(rows) && forall x :: x in rows <==> x in ids
  {
    rows := [];
    var todo := ids;
    while todo != {}
      invariant todo <= ids
      invariant NoDuplicates(rows) && forall x :: x in rows <==> x in ids && x !in todo
      decreases todo
    {
      var x :| x in todo;
      rows := rows + [x];
      todo := todo - {x};
    }
  }

  /** The delete error's list: one usage for each project using one of the assets. */
  ghost predicate IsUsage(t: Tables, u: Usage) {
    && Use(u.asset, u.project) in t.uses
    && u.asset in t.assets && t.assets[u.asset].name == u.assetName
    && u.project in t.projects && t.projects[u.project].name == u.projectName
  }

  ghost predicate ListsUsages(t: Tables, assets: set<Id>, usages: seq<Usage>) {
    NoDuplicates(usages) && forall u :: u in usages <==> u.asset in assets && IsUsage(t, u)
  }

  class FileServiceServer {
    var dirs: Directories
    var assets: map<Id, Asset>
    var uses: set<Use>
    var projects: map<Id, Project>

    ghost function State(): Tables
      reads this
    {
      Tables(dirs, assets, uses, projects)
    }

    constructor (projects: map<Id, Project>)
      ensures State() == Tables(map[], map[], {}, projects) && Sound(State())
    {
      dirs, assets, uses := map[], map[], {};
      this.projects := projects;
      EmptyIsSound(projects);
    }

    // ---- shared helpers ----

    /** `uploadParentDirectoryID`. */
    method UploadParentDirectoryID(ws: Id, parent: Option<Id>) returns (err: Option<Error>)
      ensures err == if GoodParent(State(), ws, parent) then None else Some(NotFound)
    {
      if parent.None? {
        return None;
      }
      if parent.value !in dirs {
        return Some(NotFound);
      }
      if dirs[parent.value].workspace != ws {
        return Some(NotFound);
      }
      return None;
    }

    /** `siblingDirectories`. */
    method SiblingDirectories(ws: Id, parent: Option<Id>) returns (rows: seq<Id>)
      ensures forall d :: d in rows <==> d in ChildDirectories(State(), ws, parent)
    {
      if parent.Some? {
        rows := RowsOf(set d | d in dirs && dirs[d].parent == parent);
      } else {
        rows := RowsOf(set d | d in dirs && dirs[d].parent == None && dirs[d].workspace == ws);
      }
    }

    /** `siblingAssets`. */
    method SiblingAssets(ws: Id, directory: Option<Id>) returns (rows: seq<Id>)
      ensures forall a :: a in rows <==> a in ChildAssets(State(), ws, directory)
    {
      if directory.Some? {
        rows := RowsOf(set a | a in assets && assets[a].directory == directory);
      } else {
        rows := RowsOf(set a | a in assets && assets[a].directory == None && assets[a].workspace == ws);
      }
    }

    /** The scan over the sibling directories for a name. */
    method ScanDirectories(ws: Id, parent: Option<Id>, name: string, self: Option<Id>) returns (taken: bool)
      ensures taken == DirectoryNameTaken(State(), ws, parent, name, self)
    {
      var siblings := SiblingDirectories(ws, parent);
      for i := 0 to |siblings|
        invariant forall j | 0 <= j < i ::
          siblings[j] in dirs && (Some(siblings[j]) == self || dirs[siblings[j]].name != name)
      {
        assert siblings[i] in siblings;
        if Some(siblings[i]) != self && dirs[siblings[i]].name == name {
          return true;
        }
      }
      return false;
    }

    /** `ensureUniqueSiblingAssetName` and the scans over the sibling assets. */
    method ScanAssets(ws: Id, directory: Option<Id>, name: string, self: Option<Id>) returns (taken: bool)
      ensures taken == AssetNameTaken(State(), ws, directory, name, self)
    {
      var siblings := SiblingAssets(ws, directory);
      for i := 0 to |siblings|
        invariant forall j | 0 <= j < i ::
          siblings[j] in assets && (Some(siblings[j]) == self || assets[siblings[j]].name != name)
      {
        assert siblings[i] in siblings;
        if Some(siblings[i]) != self && assets[siblings[i]].name == name {
          return true;
        }
      }
      return false;
    }

    /** `assertDirectoryMoveTarget`: climbs from the new parent to the root; the forest makes it end. */
    method AssertDirectoryMoveTarget(ws: Id, d: Id, parent: Option<Id>) returns (err: Option<Error>)
      requires Forest(dirs) && d in dirs
      ensures parent.None? ==> err == None
      ensures parent.Some? && !GoodParent(State(), ws, parent) && parent.value != d ==> err == Some(NotFound)
      ensures parent.Some? && GoodParent(State(), ws, parent) ==>
        err == if Below(dirs, parent.value, d) then Some(InvalidArgument) else None
    {
      ghost var rank :| Ranks(dirs, rank);
      var parentID := parent;
      while parentID.Some?
        invariant parent.None? ==> parentID.None?
        invariant parent.Some? && !GoodParent(State(), ws, parent) ==> parentID == parent
        invariant GoodParent(State(), ws, parent) ==> GoodParent(State(), ws, parentID)
        invariant GoodParent(State(), ws, parent) && parent.Some? ==>
          (Below(dirs, parent.value, d) <==> parentID.Some? && Below(dirs, parentID.value, d))
        decreases if parentID.Some? && parentID.value in dirs then rank[parentID.value] + 1 else 0
      {
        if parentID.value == d {
          BelowUnfold(dirs, d, d);
          return Some(InvalidArgument);
        }
        if parentID.value !in dirs {
          return Some(NotFound);
        }
        if dirs[parentID.value].workspace != ws {
          return Some(NotFound);
        }
        BelowUnfold(dirs, parentID.value, d);
        parentID := dirs[parentID.value].parent;
      }
      return None;
    }

    /** `directoryAssetsRecursive`. */
    method DirectoryAssetsRecursive(d: Id) returns (rows: seq<Id>)
      requires Forest(dirs) && d in dirs
      ensures NoDuplicates(rows) && forall a :: a in rows <==> a in SubtreeAssets(State(), d)
      decreases Subtree(dirs, d)
    {
      rows := RowsOf(set a | a in assets && assets[a].directory == Some(d));
      var children := RowsOf(set c | c in dirs && dirs[c].parent == Some(d));
      BelowUnfold(dirs, d, d);
      for i := 0 to |children|
        invariant NoDuplicates(rows)
        invariant forall a :: a in rows <==> FoundBelow(State(), a, d, children[..i])
      {
        var c := children[i];
        assert c in children;
        ChildSubtree(dirs, d, c);
        var childAssets := DirectoryAssetsRecursive(c);
        ghost var before := rows;
        DisjointParts(State(), d, children, i, before, childAssets);
        rows := rows + childAssets;
        assert children[..i + 1] == children[..i] + [c];
      }
      assert children[..|children|] == children;
      forall a ensures a in rows <==> a in SubtreeAssets(State(), d) {
        if a in assets && assets[a].directory.Some? {
          BelowChildren(dirs, d, children, assets[a].directory.value);
        }
      }
    }

    /** `inUseAssetUsages`. */
    method InUseAssetUsages(rows: seq<Id>) returns (usages: seq<Usage>)
      requires Sound(State()) && NoDuplicates(rows) && forall a | a in rows :: a in assets
      ensures ListsUsages(State(), (set a | a in rows), usages)
    {
      usages := [];
      for i := 0 to |rows|
        invariant ListsUsages(State(), (set a | a in rows[..i]), usages)
      {
        var asset := rows[i];
        assert asset in rows;
        var users := RowsOf(set u | u in uses && u.asset == asset :: u.project);
        for k := 0 to |users|
          invariant NoDuplicates(usages)
          invariant forall u :: u in usages <==>
            IsUsage(State(), u) && (u.asset in rows[..i] || (u.asset == asset && u.project in users[..k]))
        {
          var project := users[k];
          assert project in users;
          var usage := Usage(asset, assets[asset].name, project, projects[project].name);
          assert asset !in rows[..i] && project !in users[..k];
          usages := usages + [usage];
          assert users[..k + 1] == users[..k] + [project];
        }
        assert users[..|users|] == users;
        assert rows[..i + 1] == rows[..i] + [asset];
      }
      assert rows[..|rows|] == rows;
    }

    // ---- handlers ----

    method CreateDirectory(ws: Id, parent: Option<Id>, name: string, id: Id) returns (err: Option<Error>)
      requires Sound(State()) && id !in dirs
      modifies this`dirs
      ensures Sound(State())
      ensures err == Refusal(old(State()), Request.CreateDirectory(ws, parent, name, id))
      ensures State() == After(old(State()), Request.CreateDirectory(ws, parent, name, id))
    {
      RequestKeepsSound(State(), Request.CreateDirectory(ws, parent, name, id));
      err := UploadParentDirectoryID(ws, parent);
      if err.Some? {
        return;
      }
      var taken := ScanDirectories(ws, parent, name, None);
      if taken {
        return Some(AlreadyExists);
      }
      dirs := dirs[id := Directory(ws, name, parent)];
      return None;
    }

    method MoveDirectory(ws: Id, d: Id, parent: Option<Id>) returns (err: Option<Error>)
      requires Sound(State())
      modifies this`dirs
      ensures Sound(State())
      ensures err == Refusal(old(State()), Request.MoveDirectory(ws, d, parent))
      ensures State() == After(old(State()), Request.MoveDirectory(ws, d, parent))
    {
      RequestKeepsSound(State(), Request.MoveDirectory(ws, d, parent));
      if d !in dirs || dirs[d].workspace != ws {
        return Some(NotFound);
      }
      err := UploadParentDirectoryID(ws, parent);
      if err.Some? {
        return;
      }
      err := AssertDirectoryMoveTarget(ws, d, parent);
      if err.Some? {
        return;
      }
      var taken := ScanDirectories(ws, parent, dirs[d].name, Some(d));
      if taken {
        return Some(AlreadyExists);
      }
      dirs := dirs[d := dirs[d].(parent := parent)];
      return None;
    }

    method RenameDirectory(ws: Id, d: Id, name: string) returns (err: Option<Error>)
      requires Sound(State())
      modifies this`dirs
      ensures Sound(State())
      ensures err == Refusal(old(State()), Request.RenameDirectory(ws, d, name))
      ensures State() == After(old(State()), Request.RenameDirectory(ws, d, name))
    {
      RequestKeepsSound(State(), Request.RenameDirectory(ws, d, name));
      if d !in dirs || dirs[d].workspace != ws {
        return Some(NotFound);
      }
      var taken := ScanDirectories(ws, dirs[d].parent, name, Some(d));
      if taken {
        return Some(AlreadyExists);
      }
      dirs := dirs[d := dirs[d].(name := name)];
      return None;
    }

    /** Refused with the exact list of usages when a project uses anything in the subtree. */
    method DeleteDirectory(ws: Id, d: Id) returns (err: Option<Error>)
      requires Sound(State())
      modifies this`dirs, this`assets
      ensures Sound(State())
      ensures State() == After(old(State()), Request.DeleteDirectory(ws, d))
      ensures match Refusal(old(State()), Request.DeleteDirectory(ws, d))
              case None => err == None
              case Some(NotFound) => err == Some(NotFound)
              case Some(_) => err.Some? && err.value.InUse? && err.value.usages != []
                              && ListsUsages(old(State()), SubtreeAssets(old(State()), d), err.value.usages)
    {
      RequestKeepsSound(State(), Request.DeleteDirectory(ws, d));
      if d !in dirs || dirs[d].workspace != ws {
        return Some(NotFound);
      }
      var rows := DirectoryAssetsRecursive(d);
      var usages := InUseAssetUsages(rows);
      assert (set a | a in rows) == SubtreeAssets(State(), d);
      UsagesTell(State(), SubtreeAssets(State(), d), usages);
      if |usages| > 0 {
        return Some(InUse(usages));
      }
      Cascade(d);
      return None;
    }

    /** Deletes the row of a directory; the foreign keys on parent and directory cascade. */
    method Cascade(d: Id)
      requires Forest(dirs) && d in dirs
      modifies this`dirs, this`assets
      ensures State() == Pruned(old(State()), d)
    {
      var gone := SubtreeOf(d);
      var keptAssets := map a | a in assets && !(assets[a].directory.Some? && assets[a].directory.value in gone)
        :: assets[a];
      var keptDirs := map x | x in dirs && x !in gone :: dirs[x];
      CascadeIsPruned(State(), d, gone, keptDirs, keptAssets);
      dirs, assets := keptDirs, keptAssets;
    }

    /** The directories removed with a directory. */
    method SubtreeOf(d: Id) returns (gone: set<Id>)
      requires Forest(dirs) && d in dirs
      ensures gone == Subtree(dirs, d)
      decreases Subtree(dirs, d)
    {
      gone := {d};
      var children := RowsOf(set c | c in dirs && dirs[c].parent == Some(d));
      BelowUnfold(dirs, d, d);
      for i := 0 to |children|
        invariant forall x :: x in gone <==> x == d || (x in dirs && BelowSome(dirs, x, children[..i]))
      {
        assert children[i] in children;
        ChildSubtree(dirs, d, children[i]);
        var part := SubtreeOf(children[i]);
        gone := gone + part;
        assert children[..i + 1] == children[..i] + [children[i]];
      }
      assert children[..|children|] == children;
      forall x | x in dirs ensures x in gone <==> Below(dirs, x, d) {
        BelowChildren(dirs, d, children, x);
      }
    }

    /** `UploadImage`, up to the new row; `isImage` is what content detection answers. */
    method UploadAsset(ws: Id, parent: Option<Id>, name: string, isImage: bool, id: Id) returns (err: Option<Error>)
      requires Sound(State()) && id !in assets
      modifies this`assets
      ensures Sound(State())
      ensures err == Refusal(old(State()), Request.UploadAsset(ws, parent, name, isImage, id))
      ensures State() == After(old(State()), Request.UploadAsset(ws, parent, name, isImage, id))
    {
      RequestKeepsSound(State(), Request.UploadAsset(ws, parent, name, isImage, id));
      err := UploadParentDirectoryID(ws, parent);
      if err.Some? {
        return;
      }
      var taken := ScanAssets(ws, parent, name, None);
      if taken {
        return Some(AlreadyExists);
      }
      if !isImage {
        return Some(InvalidArgument);
      }
      assets := assets[id := Asset(ws, name, parent)];
      return None;
    }

    method MoveAsset(ws: Id, a: Id, parent: Option<Id>) returns (err: Option<Error>)
      requires Sound(State())
      modifies this`assets
      ensures Sound(State())
      ensures err == Refusal(old(State()), Request.MoveAsset(ws, a, parent))
      ensures State() == After(old(State()), Request.MoveAsset(ws, a, parent))
    {
      RequestKeepsSound(State(), Request.MoveAsset(ws, a, parent));
      if a !in assets || assets[a].workspace != ws {
        return Some(NotFound);
      }
      err := UploadParentDirectoryID(ws, parent);
      if err.Some? {
        return;
      }
      var taken := ScanAssets(ws, parent, assets[a].name, Some(a));
      if taken {
        return Some(AlreadyExists);
      }
      assets := assets[a := assets[a].(directory := parent)];
      return None;
    }

    method RenameAsset(ws: Id, a: Id, name: string) returns (err: Option<Error>)
      requires Sound(State())
      modifies this`assets
      ensures Sound(State())
      ensures err == Refusal(old(State()), Request.RenameAsset(ws, a, name))
      ensures State() == After(old(State()), Request.RenameAsset(ws, a, name))
    {
      RequestKeepsSound(State(), Request.RenameAsset(ws, a, name));
      if a !in assets || assets[a].workspace != ws {
        return Some(NotFound);
      }
      var taken := ScanAssets(ws, assets[a].directory, name, Some(a));
      if taken {
        return Some(AlreadyExists);
      }
      assets := assets[a := assets[a].(name := name)];
      return None;
    }

    method DeleteAsset(ws: Id, a: Id) returns (err: Option<Error>)
      requires Sound(State())
      modifies this`assets
      ensures Sound(State())
      ensures State() == After(old(State()), Request.DeleteAsset(ws, a))
      ensures match Refusal(old(State()), Request.DeleteAsset(ws, a))
              case None => err == None
              case Some(NotFound) => err == Some(NotFound)
              case Some(_) => err.Some? && err.value.InUse? && err.value.usages != []
                              && ListsUsages(old(State()), {a}, err.value.usages)
    {
      RequestKeepsSound(State(), Request.DeleteAsset(ws, a));
      if a !in assets || assets[a].workspace != ws {
        return Some(NotFound);
      }
      var usages := InUseAssetUsages([a]);
      assert (set x | x in [a]) == {a};
      UsagesTell(State(), {a}, usages);
      if |usages| > 0 {
        return Some(InUse(usages));
      }
      assets := assets - {a};
      return None;
    }

    // ---- handlers of the project service on the same tables ----

    method AddProjectAsset(p: Id, a: Id) returns (err: Option<Error>)
      requires Sound(State())
      modifies this`uses
      ensures Sound(State())
      ensures err == Refusal(old(State()), Request.AddProjectAsset(p, a))
      ensures State() == After(old(State()), Request.AddProjectAsset(p, a))
    {
      RequestKeepsSound(State(), Request.AddProjectAsset(p, a));
      if p !in projects {
        return Some(NotFound);
      }
      if a !in assets {
        return Some(NotFound);
      }
      if assets[a].workspace != projects[p].workspace {
        return Some(NotFound);
      }
      uses := uses + {Use(a, p)};
      return None;
    }

    method RemoveProjectAsset(p: Id, a: Id) returns (err: Option<Error>)
      requires Sound(State())
      modifies this`uses
      ensures Sound(State())
      ensures err == None
      ensures State() == After(old(State()), Request.RemoveProjectAsset(p, a))
    {
      RequestKeepsSound(State(), Request.RemoveProjectAsset(p, a));
      uses := uses - {Use(a, p)};
      return None;
    }
  }

  // ---- lemmas for the loops ----

  lemma {:induction false} CascadeIsPruned(t: Tables, d: Id, gone: set<Id>, dirs: Directories, assets: map<Id, Asset>)
    requires Forest(t.dirs) && d in t.dirs && gone == Subtree(t.dirs, d)
    requires dirs == map x | x in t.dirs && x !in gone :: t.dirs[x]
    requires assets == map a | a in t.assets && !(t.assets[a].directory.Some? && t.assets[a].directory.value in gone)
                         :: t.assets[a]
    ensures dirs == Removed(t.dirs, d) && assets == t.assets - SubtreeAssets(t, d)
  {
    forall a | a in t.assets && t.assets[a].directory.Some?
      ensures t.assets[a].directory.value in gone <==> Below(t.dirs, t.assets[a].directory.value, d)
    {
      if n: nat :| Climb(t.dirs, t.assets[a].directory.value, n) == Some(d) {
        assert t.assets[a].directory.value in t.dirs;
      }
    }
  }

  /** `x` is in the subtree of one of the listed directories. */
  ghost predicate BelowSome(dirs: Directories, x: Id, roots: seq<Id>) {
    exists i :: 0 <= i < |roots| && Below(dirs, x, roots[i])
  }

  /** An asset in the directory itself or in the subtree of one of the listed children. */
  ghost predicate FoundBelow(t: Tables, a: Id, d: Id, roots: seq<Id>) {
    && a in t.assets && t.assets[a].directory.Some?
    && (t.assets[a].directory == Some(d) || BelowSome(t.dirs, t.assets[a].directory.value, roots))
  }

  lemma {:induction false} Joined<T>(s: seq<T>, t: seq<T>)
    requires NoDuplicates(s) && NoDuplicates(t) && forall x | x in s :: x !in t
    ensures NoDuplicates(s + t)
  {
    forall i, j | 0 <= i < j < |s + t| ensures (s + t)[i] != (s + t)[j] {
      if i < |s| <= j { assert s[i] in s && t[j - |s|] in t; }
    }
  }

  lemma {:induction false} BelowChildren(dirs: Directories, d: Id, children: seq<Id>, x: Id)
    requires Forest(dirs) && d in dirs
    requires forall c :: c in children <==> c in dirs && dirs[c].parent == Some(d)
    ensures Below(dirs, x, d) <==> x == d || BelowSome(dirs, x, children)
  {
    BelowUnfold(dirs, d, d);
    if Below(dirs, x, d) && x != d {
      BelowAChild(dirs, d, x);
      var c :| c in dirs && dirs[c].parent == Some(d) && Below(dirs, x, c);
      assert c in children;
    }
    if i :| 0 <= i < |children| && Below(dirs, x, children[i]) {
      assert children[i] in children;
      ChildSubtree(dirs, d, children[i]);
    }
  }

  /** The assets found in one child's subtree are new, and complete the part done so far. */
  lemma {:induction false} DisjointParts(t: Tables, d: Id, children: seq<Id>, i: nat, before: seq<Id>,
          childAssets: seq<Id>)
    requires Forest(t.dirs) && i < |children| && NoDuplicates(children)
    requires forall c :: c in children <==> c in t.dirs && t.dirs[c].parent == Some(d)
    requires NoDuplicates(before) && NoDuplicates(childAssets)
    requires forall a :: a in before <==> FoundBelow(t, a, d, children[..i])
    requires forall a :: a in childAssets <==> a in SubtreeAssets(t, children[i])
    ensures NoDuplicates(before + childAssets)
    ensures forall a :: a in before + childAssets <==> FoundBelow(t, a, d, children[..i + 1])
  {
    var c := children[i];
    assert c in children;
    ChildSubtree(t.dirs, d, c);
    forall a | a in before && a in childAssets ensures false {
      var x := t.assets[a].directory.value;
      var j :| 0 <= j < i && Below(t.dirs, x, children[..i][j]);
      assert children[j] in children;
      SiblingsAreDisjoint(t.dirs, d, children[j], c, x);
    }
    Joined(before, childAssets);
    forall a ensures a in before + childAssets <==> FoundBelow(t, a, d, children[..i + 1]) {
    }
  }

  /** The list is empty exactly when no project uses any of the assets. */
  lemma {:induction false} UsagesTell(t: Tables, assets: set<Id>, usages: seq<Usage>)
    requires Sound(t) && ListsUsages(t, assets, usages)
    ensures usages != [] <==> exists a :: a in assets && IsUsed(t, a)
  {
    if usages != [] {
      assert usages[0] in usages && Use(usages[0].asset, usages[0].project) in t.uses;
      assert IsUsed(t, usages[0].asset);
    }
    if a :| a in assets && IsUsed(t, a) {
      var u :| u in t.uses && u.asset == a;
      var usage := Usage(a, t.assets[a].name, u.project, t.projects[u.project].name);
      assert u == Use(usage.asset, usage.project);
      assert usage in usages;
    }
  }
}
