/**
 The requests of the virtual file system, row by row: when each goes through, what it is refused with, and
 which rows it changes. Stated on the tables, apart from the rules that compute the answers.
 */
module RequestLaws {
  import opened Wrappers
  import opened FileTree
  import opened FileRules

  // ---- what a request may change ----

  /** Directory `x` becomes `row`; no other directory and no other table changes. */
  predicate OnlyDirectory(t: Tables, n: Tables, x: Id, row: Directory) {
    && n.dirs.Keys == t.dirs.Keys + {x} && n.dirs[x] == row
    && (forall y | y in t.dirs && y != x :: n.dirs[y] == t.dirs[y])
    && n.assets == t.assets && n.uses == t.uses && n.projects == t.projects
  }

  /** Asset `x` becomes `row`; no other asset and no other table changes. */
  predicate OnlyAsset(t: Tables, n: Tables, x: Id, row: Asset) {
    && n.assets.Keys == t.assets.Keys + {x} && n.assets[x] == row
    && (forall y | y in t.assets && y != x :: n.assets[y] == t.assets[y])
    && n.dirs == t.dirs && n.uses == t.uses && n.projects == t.projects
  }

  // ---- what a request asks of the tables ----

  predicate ParentThere(t: Tables, ws: Id, parent: Option<Id>) {
    match parent
    case None => true
    case Some(p) => p in t.dirs && t.dirs[p].workspace == ws
  }

  /** The directory lies in the folder `parent`, or at the root of the workspace. */
  predicate DirectoryIn(t: Tables, ws: Id, parent: Option<Id>, c: Id) {
    c in t.dirs && t.dirs[c].parent == parent && (parent == None ==> t.dirs[c].workspace == ws)
  }

  predicate AssetIn(t: Tables, ws: Id, folder: Option<Id>, a: Id) {
    a in t.assets && t.assets[a].directory == folder && (folder == None ==> t.assets[a].workspace == ws)
  }

  /** No directory of the folder but `self` bears the name. */
  ghost predicate DirectoryNameFree(t: Tables, ws: Id, parent: Option<Id>, name: string, self: Option<Id>) {
    forall c | DirectoryIn(t, ws, parent, c) && Some(c) != self :: t.dirs[c].name != name
  }

  ghost predicate AssetNameFree(t: Tables, ws: Id, folder: Option<Id>, name: string, self: Option<Id>) {
    forall a | AssetIn(t, ws, folder, a) && Some(a) != self :: t.assets[a].name != name
  }

  lemma {:induction false} DirectoryNames(t: Tables, ws: Id, parent: Option<Id>, name: string, self: Option<Id>)
    ensures DirectoryNameTaken(t, ws, parent, name, self) <==> !DirectoryNameFree(t, ws, parent, name, self)
  {
    if c :| DirectoryIn(t, ws, parent, c) && Some(c) != self && t.dirs[c].name == name {
      assert c in ChildDirectories(t, ws, parent);
    }
    if DirectoryNameTaken(t, ws, parent, name, self) {
      var c :| c in ChildDirectories(t, ws, parent) && Some(c) != self && t.dirs[c].name == name;
      assert DirectoryIn(t, ws, parent, c);
    }
  }

  lemma {:induction false} AssetNames(t: Tables, ws: Id, folder: Option<Id>, name: string, self: Option<Id>)
    ensures AssetNameTaken(t, ws, folder, name, self) <==> !AssetNameFree(t, ws, folder, name, self)
  {
    if a :| AssetIn(t, ws, folder, a) && Some(a) != self && t.assets[a].name == name {
      assert a in ChildAssets(t, ws, folder);
    }
    if AssetNameTaken(t, ws, folder, name, self) {
      var a :| a in ChildAssets(t, ws, folder) && Some(a) != self && t.assets[a].name == name;
      assert AssetIn(t, ws, folder, a);
    }
  }

  /** A refused request changes nothing. */
  lemma {:induction false} RefusedChangesNothing(t: Tables, r: Request)
    requires Refusal(t, r).Some?
    ensures After(t, r) == t
  {
  }

  // ---- directories ----

  lemma {:induction false} CreateDirectoryLaw(t: Tables, ws: Id, parent: Option<Id>, name: string, id: Id)
    requires id !in t.dirs
    ensures var refusal, n := Refusal(t, CreateDirectory(ws, parent, name, id)),
                              After(t, CreateDirectory(ws, parent, name, id));
      && (refusal.None? <==> ParentThere(t, ws, parent) && DirectoryNameFree(t, ws, parent, name, None))
      && (refusal == Some(NotFound) <==> !ParentThere(t, ws, parent))
      && (refusal.Some? && refusal != Some(NotFound) ==> refusal == Some(AlreadyExists))
      && (refusal.None? ==> OnlyDirectory(t, n, id, Directory(ws, name, parent)) && DirectoryIn(n, ws, parent, id))
  {
    DirectoryNames(t, ws, parent, name, None);
  }

  /**
   A move that goes through hangs the directory below the new parent, under its old name and in its old
   workspace; it is refused when something is missing, when it would close a cycle, and when the name is taken.
   */
  lemma {:induction false} MoveDirectoryLaw(t: Tables, ws: Id, d: Id, parent: Option<Id>)
    ensures var refusal, n := Refusal(t, MoveDirectory(ws, d, parent)), After(t, MoveDirectory(ws, d, parent));
      var there := d in t.dirs && t.dirs[d].workspace == ws && ParentThere(t, ws, parent);
      && (refusal == Some(NotFound) <==> !there)
      && (refusal == Some(InvalidArgument) <==> there && parent.Some? && Below(t.dirs, parent.value, d))
      && (refusal == None <==> there && !(parent.Some? && Below(t.dirs, parent.value, d))
                               && DirectoryNameFree(t, ws, parent, t.dirs[d].name, Some(d)))
      && (refusal.Some? ==> refusal.value in {NotFound, InvalidArgument, AlreadyExists})
      && (refusal.None? ==> OnlyDirectory(t, n, d, Directory(t.dirs[d].workspace, t.dirs[d].name, parent))
                            && DirectoryIn(n, ws, parent, d))
  {
    if d in t.dirs {
      DirectoryNames(t, ws, parent, t.dirs[d].name, Some(d));
    }
  }

  /** And the whole subtree goes with it: who is below whom after the move. */
  lemma {:induction false} MoveDirectoryMovesTheSubtree(t: Tables, ws: Id, d: Id, parent: Option<Id>, x: Id, y: Id)
    requires Sound(t) && Refusal(t, MoveDirectory(ws, d, parent)).None?
    ensures Below(After(t, MoveDirectory(ws, d, parent)).dirs, x, y)
            <==> if Below(t.dirs, x, d)
                 then (Below(t.dirs, x, y) && Below(t.dirs, y, d)) || (parent.Some? && Below(t.dirs, parent.value, y))
                 else Below(t.dirs, x, y)
  {
    MoveTakesTheSubtree(t.dirs, d, parent, x, y);
  }

  lemma {:induction false} RenameDirectoryLaw(t: Tables, ws: Id, d: Id, name: string)
    ensures var refusal, n := Refusal(t, RenameDirectory(ws, d, name)), After(t, RenameDirectory(ws, d, name));
      var there := d in t.dirs && t.dirs[d].workspace == ws;
      && (refusal == Some(NotFound) <==> !there)
      && (refusal == None <==> there && DirectoryNameFree(t, ws, t.dirs[d].parent, name, Some(d)))
      && (refusal.Some? ==> refusal.value in {NotFound, AlreadyExists})
      && (refusal.None? ==> OnlyDirectory(t, n, d, Directory(t.dirs[d].workspace, name, t.dirs[d].parent)))
  {
    if d in t.dirs {
      DirectoryNames(t, ws, t.dirs[d].parent, name, Some(d));
    }
  }

  /** Some project uses an asset that lies in the directory or anywhere below it. */
  ghost predicate UsedBelow(t: Tables, d: Id) {
    exists u :: u in t.uses && u.asset in t.assets && t.assets[u.asset].directory.Some?
                && Below(t.dirs, t.assets[u.asset].directory.value, d)
  }

  lemma {:induction false} DeleteDirectoryLaw(t: Tables, ws: Id, d: Id)
    ensures var refusal, n := Refusal(t, DeleteDirectory(ws, d)), After(t, DeleteDirectory(ws, d));
      var there := d in t.dirs && t.dirs[d].workspace == ws;
      && (refusal == Some(NotFound) <==> !there)
      && (refusal == None <==> there && !UsedBelow(t, d))
      && (refusal.Some? ==> refusal.value == NotFound || refusal.value.InUse?)
      && (refusal.None? ==>
            && (forall x :: x in n.dirs <==> x in t.dirs && !Below(t.dirs, x, d))
            && (forall x | x in n.dirs :: n.dirs[x] == t.dirs[x])
            && (forall a :: a in n.assets <==> a in t.assets && !(t.assets[a].directory.Some?
                                                                 && Below(t.dirs, t.assets[a].directory.value, d)))
            && (forall a | a in n.assets :: n.assets[a] == t.assets[a])
            && n.uses == t.uses && n.projects == t.projects)
  {
    if a :| a in SubtreeAssets(t, d) && IsUsed(t, a) {
      var u :| u in t.uses && u.asset == a;
    }
    if u :| u in t.uses && u.asset in t.assets && t.assets[u.asset].directory.Some?
            && Below(t.dirs, t.assets[u.asset].directory.value, d) {
      assert u.asset in SubtreeAssets(t, d) && IsUsed(t, u.asset);
    }
  }

  // ---- assets ----

  lemma {:induction false} UploadAssetLaw(t: Tables, ws: Id, parent: Option<Id>, name: string, isImage: bool, id: Id)
    requires id !in t.assets
    ensures var refusal, n := Refusal(t, UploadAsset(ws, parent, name, isImage, id)),
                              After(t, UploadAsset(ws, parent, name, isImage, id));
      && (refusal == Some(NotFound) <==> !ParentThere(t, ws, parent))
      && (refusal == Some(AlreadyExists)
          <==> ParentThere(t, ws, parent) && !AssetNameFree(t, ws, parent, name, None))
      && (refusal.None? <==> ParentThere(t, ws, parent) && AssetNameFree(t, ws, parent, name, None) && isImage)
      && (refusal.Some? ==> refusal.value in {NotFound, AlreadyExists, InvalidArgument})
      && (refusal.None? ==> OnlyAsset(t, n, id, Asset(ws, name, parent)) && AssetIn(n, ws, parent, id))
  {
    AssetNames(t, ws, parent, name, None);
  }

  lemma {:induction false} MoveAssetLaw(t: Tables, ws: Id, a: Id, parent: Option<Id>)
    ensures var refusal, n := Refusal(t, MoveAsset(ws, a, parent)), After(t, MoveAsset(ws, a, parent));
      var there := a in t.assets && t.assets[a].workspace == ws && ParentThere(t, ws, parent);
      && (refusal == Some(NotFound) <==> !there)
      && (refusal == None <==> there && AssetNameFree(t, ws, parent, t.assets[a].name, Some(a)))
      && (refusal.Some? ==> refusal.value in {NotFound, AlreadyExists})
      && (refusal.None? ==> OnlyAsset(t, n, a, Asset(t.assets[a].workspace, t.assets[a].name, parent))
                            && AssetIn(n, ws, parent, a))
  {
    if a in t.assets {
      AssetNames(t, ws, parent, t.assets[a].name, Some(a));
    }
  }

  lemma {:induction false} RenameAssetLaw(t: Tables, ws: Id, a: Id, name: string)
    ensures var refusal, n := Refusal(t, RenameAsset(ws, a, name)), After(t, RenameAsset(ws, a, name));
      var there := a in t.assets && t.assets[a].workspace == ws;
      && (refusal == Some(NotFound) <==> !there)
      && (refusal == None <==> there && AssetNameFree(t, ws, t.assets[a].directory, name, Some(a)))
      && (refusal.Some? ==> refusal.value in {NotFound, AlreadyExists})
      && (refusal.None? ==> OnlyAsset(t, n, a, Asset(t.assets[a].workspace, name, t.assets[a].directory)))
  {
    if a in t.assets {
      AssetNames(t, ws, t.assets[a].directory, name, Some(a));
    }
  }

  lemma {:induction false} DeleteAssetLaw(t: Tables, ws: Id, a: Id)
    ensures var refusal, n := Refusal(t, DeleteAsset(ws, a)), After(t, DeleteAsset(ws, a));
      var there := a in t.assets && t.assets[a].workspace == ws;
      && (refusal == Some(NotFound) <==> !there)
      && (refusal == None <==> there && forall u | u in t.uses :: u.asset != a)
      && (refusal.Some? ==> refusal.value == NotFound || refusal.value.InUse?)
      && (refusal.None? ==>
            && n.assets.Keys == t.assets.Keys - {a} && (forall b | b in n.assets :: n.assets[b] == t.assets[b])
            && n.dirs == t.dirs && n.uses == t.uses && n.projects == t.projects)
  {
    if u :| u in t.uses && u.asset == a {
      assert IsUsed(t, a);
    }
  }

  // ---- projects ----

  lemma {:induction false} ProjectAssetLaws(t: Tables, p: Id, a: Id)
    ensures var refusal, n := Refusal(t, AddProjectAsset(p, a)), After(t, AddProjectAsset(p, a));
      && (refusal.None? <==> p in t.projects && a in t.assets && t.assets[a].workspace == t.projects[p].workspace)
      && (refusal.Some? ==> refusal == Some(NotFound))
      && (refusal.None? ==> n.dirs == t.dirs && n.assets == t.assets && n.projects == t.projects
                            && forall u :: u in n.uses <==> u in t.uses || (u.asset == a && u.project == p))
    ensures var n := After(t, RemoveProjectAsset(p, a));
      && Refusal(t, RemoveProjectAsset(p, a)).None?
      && n.dirs == t.dirs && n.assets == t.assets && n.projects == t.projects
      && forall u :: u in n.uses <==> u in t.uses && !(u.asset == a && u.project == p)
  {
  }
}
