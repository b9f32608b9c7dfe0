/** What each file-system request does to the tables, and what every request keeps. */
module FileRules {
  import opened Wrappers
  import opened FileTree

  datatype Usage = Usage(asset: Id, assetName: string, project: Id, projectName: string)

  datatype Error = NotFound | InvalidArgument | AlreadyExists | InUse(usages: seq<Usage>)

  // ---- siblings ----

  /** The children of a directory, or the root directories of a workspace. */
  function ChildDirectories(t: Tables, ws: Id, parent: Option<Id>): set<Id> {
    set d | d in t.dirs && t.dirs[d].parent == parent && (parent.None? ==> t.dirs[d].workspace == ws)
  }

  function ChildAssets(t: Tables, ws: Id, directory: Option<Id>): set<Id> {
    set a | a in t.assets && t.assets[a].directory == directory && (directory.None? ==> t.assets[a].workspace == ws)
  }

  /** A sibling other than `self` bears the name. */
  ghost predicate DirectoryNameTaken(t: Tables, ws: Id, parent: Option<Id>, name: string, self: Option<Id>) {
    exists d :: d in ChildDirectories(t, ws, parent) && Some(d) != self && t.dirs[d].name == name
  }

  ghost predicate AssetNameTaken(t: Tables, ws: Id, directory: Option<Id>, name: string, self: Option<Id>) {
    exists a :: a in ChildAssets(t, ws, directory) && Some(a) != self && t.assets[a].name == name
  }

  /** A named parent must exist in the workspace. */
  predicate GoodParent(t: Tables, ws: Id, parent: Option<Id>) {
    parent.Some? ==> parent.value in t.dirs && t.dirs[parent.value].workspace == ws
  }

  predicate OwnDirectory(t: Tables, ws: Id, d: Id) {
    d in t.dirs && t.dirs[d].workspace == ws
  }

  predicate OwnAsset(t: Tables, ws: Id, a: Id) {
    a in t.assets && t.assets[a].workspace == ws
  }

  // ---- requests ----

  /**
   Requests of the file-system service, and the two of the project service that touch the same tables.
   `id` is the identifier the database draws for a new row; `isImage` says what the content looks like.
   */
  datatype Request =
    | CreateDirectory(ws: Id, parent: Option<Id>, name: string, id: Id)
    | MoveDirectory(ws: Id, d: Id, parent: Option<Id>)
    | RenameDirectory(ws: Id, d: Id, name: string)
    | DeleteDirectory(ws: Id, d: Id)
    | UploadAsset(ws: Id, parent: Option<Id>, name: string, isImage: bool, id: Id)
    | MoveAsset(ws: Id, a: Id, parent: Option<Id>)
    | RenameAsset(ws: Id, a: Id, name: string)
    | DeleteAsset(ws: Id, a: Id)
    | AddProjectAsset(p: Id, a: Id)
    | RemoveProjectAsset(p: Id, a: Id)

  /** Why a request is refused, apart from the list of usages. */
  ghost function Refusal(t: Tables, r: Request): Option<Error> {
    match r
    case CreateDirectory(ws, parent, name, _) =>
      if !GoodParent(t, ws, parent) then Some(NotFound)
      else if DirectoryNameTaken(t, ws, parent, name, None) then Some(AlreadyExists) else None
    case MoveDirectory(ws, d, parent) =>
      if !OwnDirectory(t, ws, d) || !GoodParent(t, ws, parent) then Some(NotFound)
      else if parent.Some? && Below(t.dirs, parent.value, d) then Some(InvalidArgument)
      else if DirectoryNameTaken(t, ws, parent, t.dirs[d].name, Some(d)) then Some(AlreadyExists) else None
    case RenameDirectory(ws, d, name) =>
      if !OwnDirectory(t, ws, d) then Some(NotFound)
      else if DirectoryNameTaken(t, ws, t.dirs[d].parent, name, Some(d)) then Some(AlreadyExists) else None
    case DeleteDirectory(ws, d) =>
      if !OwnDirectory(t, ws, d) then Some(NotFound)
      else if exists a :: a in SubtreeAssets(t, d) && IsUsed(t, a) then Some(InUse([])) else None
    case UploadAsset(ws, parent, name, isImage, _) =>
      if !GoodParent(t, ws, parent) then Some(NotFound)
      else if AssetNameTaken(t, ws, parent, name, None) then Some(AlreadyExists)
      else if !isImage then Some(InvalidArgument) else None
    case MoveAsset(ws, a, parent) =>
      if !OwnAsset(t, ws, a) || !GoodParent(t, ws, parent) then Some(NotFound)
      else if AssetNameTaken(t, ws, parent, t.assets[a].name, Some(a)) then Some(AlreadyExists) else None
    case RenameAsset(ws, a, name) =>
      if !OwnAsset(t, ws, a) then Some(NotFound)
      else if AssetNameTaken(t, ws, t.assets[a].directory, name, Some(a)) then Some(AlreadyExists) else None
    case DeleteAsset(ws, a) =>
      if !OwnAsset(t, ws, a) then Some(NotFound) else if IsUsed(t, a) then Some(InUse([])) else None
    case AddProjectAsset(p, a) =>
      if p !in t.projects || !OwnAsset(t, t.projects[p].workspace, a) then Some(NotFound) else None
    case RemoveProjectAsset(_, _) => None
  }

  /** The assets anywhere below a directory. */
  ghost function SubtreeAssets(t: Tables, d: Id): set<Id> {
    set a | a in t.assets && t.assets[a].directory.Some? && Below(t.dirs, t.assets[a].directory.value, d)
  }

  ghost predicate IsUsed(t: Tables, a: Id) {
    exists u :: u in t.uses && u.asset == a
  }

  /** Deleting a directory row cascades to everything below it. */
  ghost function Pruned(t: Tables, d: Id): Tables {
    t.(dirs := Removed(t.dirs, d), assets := t.assets - SubtreeAssets(t, d))
  }

  /** The tables after a request; a refused request changes nothing. */
  ghost function After(t: Tables, r: Request): Tables {
    if Refusal(t, r).Some? then t
    else match r
      case CreateDirectory(ws, parent, name, id) => t.(dirs := t.dirs[id := Directory(ws, name, parent)])
      case MoveDirectory(ws, d, parent) => t.(dirs := Moved(t.dirs, d, parent))
      case RenameDirectory(ws, d, name) => t.(dirs := t.dirs[d := t.dirs[d].(name := name)])
      case DeleteDirectory(ws, d) => Pruned(t, d)
      case UploadAsset(ws, parent, name, _, id) => t.(assets := t.assets[id := Asset(ws, name, parent)])
      case MoveAsset(ws, a, parent) => t.(assets := t.assets[a := t.assets[a].(directory := parent)])
      case RenameAsset(ws, a, name) => t.(assets := t.assets[a := t.assets[a].(name := name)])
      case DeleteAsset(ws, a) => t.(assets := t.assets - {a})
      case AddProjectAsset(p, a) => t.(uses := t.uses + {Use(a, p)})
      case RemoveProjectAsset(p, a) => t.(uses := t.uses - {Use(a, p)})
  }

  /** New rows get fresh identifiers. */
  predicate FreshId(t: Tables, r: Request) {
    (r.CreateDirectory? ==> r.id !in t.dirs) && (r.UploadAsset? ==> r.id !in t.assets)
  }

  // ---- what every request keeps ----

  ghost predicate SameFolder(a: Option<Id>, v: Id, b: Option<Id>, w: Id) {
    a == b && v == w
  }

  /** Names are distinct among sibling directories, and among sibling assets. */
  ghost predicate DistinctNames(t: Tables) {
    && (forall c, d | c in t.dirs && d in t.dirs && c != d
                      && SameFolder(t.dirs[c].parent, t.dirs[c].workspace, t.dirs[d].parent, t.dirs[d].workspace) ::
          t.dirs[c].name != t.dirs[d].name)
    && (forall a, b | a in t.assets && b in t.assets && a != b
                      && SameFolder(t.assets[a].directory, t.assets[a].workspace, t.assets[b].directory,
                          t.assets[b].workspace) ::
          t.assets[a].name != t.assets[b].name)
  }

  /** The use is of an asset of the project's own workspace. */
  predicate GoodUse(t: Tables, u: Use) {
    && u.asset in t.assets && u.project in t.projects
    && t.assets[u.asset].workspace == t.projects[u.project].workspace
  }

  ghost predicate GoodPlaces(t: Tables) {
    && (forall a | a in t.assets :: GoodParent(t, t.assets[a].workspace, t.assets[a].directory))
    && (forall u | u in t.uses :: GoodUse(t, u))
  }

  ghost predicate Sound(t: Tables) {
    Forest(t.dirs) && DistinctNames(t) && GoodPlaces(t)
  }

  lemma {:induction false} ForestStep(t: Tables, r: Request)
    requires Sound(t) && FreshId(t, r) && Refusal(t, r).None?
    ensures Forest(After(t, r).dirs)
  {
    match r
    case CreateDirectory(ws, parent, name, id) => CreateKeepsForest(t.dirs, id, Directory(ws, name, parent));
    case MoveDirectory(ws, d, parent) => MoveKeepsForest(t.dirs, d, parent);
    case RenameDirectory(ws, d, name) => RenameKeepsForest(t.dirs, d, name);
    case DeleteDirectory(ws, d) => RemoveKeepsForest(t.dirs, d);
    case _ =>
  }

  /** A row put among siblings that do not bear its name. */
  lemma {:induction false} PutDirectory(t: Tables, x: Id, row: Directory)
    requires DistinctNames(t) && !DirectoryNameTaken(t, row.workspace, row.parent, row.name, Some(x))
    ensures DistinctNames(t.(dirs := t.dirs[x := row]))
  {
    forall c | c in t.dirs && c != x && SameFolder(t.dirs[c].parent, t.dirs[c].workspace, row.parent, row.workspace)
      ensures t.dirs[c].name != row.name
    {
      assert c in ChildDirectories(t, row.workspace, row.parent);
    }
  }

  lemma {:induction false} PutAsset(t: Tables, x: Id, row: Asset)
    requires DistinctNames(t) && !AssetNameTaken(t, row.workspace, row.directory, row.name, Some(x))
    ensures DistinctNames(t.(assets := t.assets[x := row]))
  {
    forall a | a in t.assets && a != x
               && SameFolder(t.assets[a].directory, t.assets[a].workspace, row.directory, row.workspace)
      ensures t.assets[a].name != row.name
    {
      assert a in ChildAssets(t, row.workspace, row.directory);
    }
  }

  lemma {:induction false} NamesStep(t: Tables, r: Request)
    requires Sound(t) && FreshId(t, r) && Refusal(t, r).None?
    ensures DistinctNames(After(t, r))
  {
    match r
    case CreateDirectory(ws, parent, name, id) => PutDirectory(t, id, Directory(ws, name, parent));
    case MoveDirectory(ws, d, parent) => PutDirectory(t, d, t.dirs[d].(parent := parent));
    case RenameDirectory(ws, d, name) => PutDirectory(t, d, t.dirs[d].(name := name));
    case UploadAsset(ws, parent, name, _, id) => PutAsset(t, id, Asset(ws, name, parent));
    case MoveAsset(ws, a, parent) => PutAsset(t, a, t.assets[a].(directory := parent));
    case RenameAsset(ws, a, name) => PutAsset(t, a, t.assets[a].(name := name));
    case _ =>
  }

  lemma {:induction false} PlacesStep(t: Tables, r: Request)
    requires Sound(t) && FreshId(t, r) && Refusal(t, r).None?
    ensures GoodPlaces(After(t, r))
  {
    match r
    case CreateDirectory(ws, parent, name, id) => PutDirectoryPlaces(t, id, Directory(ws, name, parent));
    case MoveDirectory(ws, d, parent) => PutDirectoryPlaces(t, d, t.dirs[d].(parent := parent));
    case RenameDirectory(ws, d, name) => PutDirectoryPlaces(t, d, t.dirs[d].(name := name));
    case DeleteDirectory(_, d) => PrunedPlaces(t, d);
    case UploadAsset(ws, parent, name, _, id) => PutAssetPlaces(t, id, Asset(ws, name, parent));
    case MoveAsset(ws, a, parent) => PutAssetPlaces(t, a, t.assets[a].(directory := parent));
    case RenameAsset(ws, a, name) => PutAssetPlaces(t, a, t.assets[a].(name := name));
    case DeleteAsset(_, _) =>
    case AddProjectAsset(_, _) =>
    case RemoveProjectAsset(_, _) =>
  }

  lemma {:induction false} PutDirectoryPlaces(t: Tables, x: Id, row: Directory)
    requires GoodPlaces(t) && (x in t.dirs ==> row.workspace == t.dirs[x].workspace)
    ensures GoodPlaces(t.(dirs := t.dirs[x := row]))
  {
  }

  lemma {:induction false} PutAssetPlaces(t: Tables, x: Id, row: Asset)
    requires GoodPlaces(t) && (x in t.assets ==> row.workspace == t.assets[x].workspace)
    requires GoodParent(t, row.workspace, row.directory)
    ensures GoodPlaces(t.(assets := t.assets[x := row]))
  {
  }

  lemma {:induction false} PrunedPlaces(t: Tables, d: Id)
    requires Sound(t) && d in t.dirs && forall a | a in SubtreeAssets(t, d) :: !IsUsed(t, a)
    ensures GoodPlaces(Pruned(t, d))
  {
  }

  /** Each request keeps the forest, the distinct names, and every reference. */
  lemma {:induction false} RequestKeepsSound(t: Tables, r: Request)
    requires Sound(t) && FreshId(t, r)
    ensures Sound(After(t, r))
  {
    if Refusal(t, r).None? {
      ForestStep(t, r);
      NamesStep(t, r);
      PlacesStep(t, r);
    }
  }

  /** The tables after a list of requests. */
  ghost function AfterAll(t: Tables, rs: seq<Request>): Tables {
    if rs == [] then t else After(AfterAll(t, rs[..|rs| - 1]), rs[|rs| - 1])
  }

  ghost predicate AllFresh(t: Tables, rs: seq<Request>) {
    forall i | 0 <= i < |rs| :: FreshId(AfterAll(t, rs[..i]), rs[i])
  }

  /** From empty tables on, every sequence of requests keeps the file system sound. */
  lemma {:induction false} EverySequenceIsSound(t: Tables, rs: seq<Request>)
    requires Sound(t) && AllFresh(t, rs)
    ensures Sound(AfterAll(t, rs))
  {
    if rs != [] {
      var n := |rs| - 1;
      FreshPrefix(t, rs);
      EverySequenceIsSound(t, rs[..n]);
      RequestKeepsSound(AfterAll(t, rs[..n]), rs[n]);
    }
  }

  lemma {:induction false} FreshPrefix(t: Tables, rs: seq<Request>)
    requires AllFresh(t, rs) && rs != []
    ensures AllFresh(t, rs[..|rs| - 1]) && FreshId(AfterAll(t, rs[..|rs| - 1]), rs[|rs| - 1])
  {
    var n := |rs| - 1;
    assert FreshId(AfterAll(t, rs[..n]), rs[n]);
    forall i | 0 <= i < n ensures FreshId(AfterAll(t, rs[..n][..i]), rs[..n][i]) {
      assert rs[..n][..i] == rs[..i];
      assert FreshId(AfterAll(t, rs[..i]), rs[i]);
    }
  }

  /** Only taking an asset out of its project undoes a use; until then no request removes the asset. */
  lemma {:induction false} UsedAssetStays(t: Tables, rs: seq<Request>, u: Use)
    requires Sound(t) && AllFresh(t, rs) && u in t.uses
    requires RemoveProjectAsset(u.project, u.asset) !in rs
    ensures u in AfterAll(t, rs).uses && u.asset in AfterAll(t, rs).assets
  {
    EverySequenceIsSound(t, rs);
    if rs != [] {
      var n := |rs| - 1;
      FreshPrefix(t, rs);
      UsedAssetStays(t, rs[..n], u);
      UseStays(AfterAll(t, rs[..n]), rs[n], u);
    }
  }

  lemma {:induction false} UseStays(t: Tables, r: Request, u: Use)
    requires u in t.uses && r != RemoveProjectAsset(u.project, u.asset)
    ensures u in After(t, r).uses
  {
  }

  /** An asset added to a project cannot be deleted; once it is out of every project again it can. */
  lemma {:induction false} AddedAssetIsProtected(t: Tables, p: Id, a: Id)
    requires Sound(t) && Refusal(t, AddProjectAsset(p, a)).None?
    ensures var n, ws := After(t, AddProjectAsset(p, a)), t.assets[a].workspace;
      && (Refusal(n, DeleteAsset(ws, a)) == Some(InUse([])))
      && (Refusal(After(n, RemoveProjectAsset(p, a)), DeleteAsset(ws, a)).None?
          <==> forall u | u in t.uses && u.asset == a :: u.project == p)
  {
    var n := After(t, AddProjectAsset(p, a));
    var m := After(n, RemoveProjectAsset(p, a));
    assert Use(a, p) in n.uses;
    assert m.uses == t.uses - {Use(a, p)};
  }

  lemma {:induction false} EmptyIsSound(projects: map<Id, Project>)
    ensures Sound(Tables(map[], map[], {}, projects))
  {
    assert Ranks(map[], map[]);
  }

  /**
   A delete that goes through leaves a sound file system: just the subtree and its assets are gone, the
   rest is as it was, and every use still has its asset.
   */
  lemma {:induction false} DeleteIsSafe(t: Tables, ws: Id, d: Id)
    requires Sound(t) && Refusal(t, DeleteDirectory(ws, d)).None?
    ensures var n := After(t, DeleteDirectory(ws, d));
      && Sound(n) && n.uses == t.uses && (forall u | u in t.uses :: u.asset in n.assets)
      && (forall x | x in t.dirs :: x in n.dirs <==> !Below(t.dirs, x, d))
      && (forall a | a in t.assets && a !in n.assets :: a in SubtreeAssets(t, d) && !IsUsed(t, a))
      && (forall a | a in n.assets :: a in t.assets && n.assets[a] == t.assets[a] && a !in SubtreeAssets(t, d))
  {
    RequestKeepsSound(t, DeleteDirectory(ws, d));
    assert forall u | u in t.uses :: GoodUse(After(t, DeleteDirectory(ws, d)), u);
  }

  /** The move check on a good parent refuses exactly the moves that would close a cycle. */
  lemma {:induction false} MoveRefusedIffCycle(t: Tables, ws: Id, d: Id, parent: Id)
    requires Sound(t) && OwnDirectory(t, ws, d) && GoodParent(t, ws, Some(parent))
    ensures Refusal(t, MoveDirectory(ws, d, Some(parent))) == Some(InvalidArgument)
            <==> !Forest(Moved(t.dirs, d, Some(parent)))
  {
    MoveClosesCycleIff(t.dirs, d, parent);
  }
}
