/**
 * Installing the transforms of a package's datasets (`installTransformForDataset`
 * of the ingest manager), as its three unit tests pin it down: the requests it
 * sends to Elasticsearch and the updates it writes to the package's saved
 * object, for a given package, list of bundled paths, previous and current
 * installation.
 *
 * The Elasticsearch client and the saved-objects client are the two classes
 * below, each recording what it was asked to do; the asset loader is a
 * function from a bundled path to its text.
 */
module TransformInstall {
  import opened Wrappers

  // ---------------------------------------------------------------------
  // Data
  // ---------------------------------------------------------------------

  /** The asset types an `installed_es` entry can carry; the rest of the enum is not distinguished. */
  datatype AssetType = IngestPipeline | Transform | OtherAssetType(name: string)

  /** One `installed_es` entry: `{ id, type }`. */
  datatype EsAssetRef = EsAssetRef(id: string, assetType: AssetType)

  /** The fields of a registry dataset the install reads. */
  datatype Dataset = Dataset(dsType: string, name: string, ingestPipeline: string, path: string)

  datatype RegistryPackage = RegistryPackage(name: string, version: string, datasets: seq<Dataset>)

  /**
   * A bundled path, as the list of its '/'-separated segments:
   * `{pkg}-{version}`, `dataset`, the dataset's path, `elasticsearch`, the
   * asset kind, the file name.
   */
  type BundledPath = seq<string>

  /** Which text fills the third part of a transform id: both are "default" in every test. */
  datatype IdRule = FromFileName | FromIngestPipeline

  datatype HttpMethod = POST | PUT | DELETE

  /**
   * One call of the cluster client: the endpoint and its parameters. An absent
   * `query` or `body` is `None`; an absent `ignore` is the empty list.
   */
  datatype EngineRequest = EngineRequest(
    endpoint: string,
    httpMethod: HttpMethod,
    path: string,
    query: Option<string>,
    body: Option<string>,
    ignore: seq<int>)

  /** One `savedObjectsClient.update(type, id, { installed_es })` call. */
  datatype SavedObjectUpdate = SavedObjectUpdate(savedObjectType: string, id: string, installedEs: seq<EsAssetRef>)

  /** A transform to create: its id and the text of its definition. */
  datatype TransformInstallation = TransformInstallation(installationName: string, content: string)

  /** A bundled transform path together with the dataset it belongs to. */
  datatype Target = Target(path: BundledPath, dataset: Dataset)

  const TransportRequest := "transport.request"
  const PackagesSavedObjectType := "epm-packages"

  // ---------------------------------------------------------------------
  // Targets: which bundled paths become transforms, under which ids
  // ---------------------------------------------------------------------

  /** `{pkg}-{version}/dataset/{dataset}/elasticsearch/transform/{file}`. */
  predicate IsDatasetTransformPath(p: BundledPath) {
    |p| == 6 && p[1] == "dataset" && p[3] == "elasticsearch" && p[4] == "transform"
  }

  /** The first dataset whose `path` is `segment`. */
  function FindDataset(datasets: seq<Dataset>, segment: string): (r: Option<Dataset>)
    ensures r.None? <==> forall d | d in datasets :: d.path != segment
    ensures r.Some? ==> r.value in datasets && r.value.path == segment
  {
    if datasets == [] then None
    else if datasets[0].path == segment then Some(datasets[0])
    else FindDataset(datasets[1..], segment)
  }

  /** The target a single path yields: none for a non-transform path or an unknown dataset. */
  function TargetOf(datasets: seq<Dataset>, p: BundledPath): (r: Option<Target>)
    ensures r.Some? <==> IsDatasetTransformPath(p) && exists d | d in datasets :: d.path == p[2]
    ensures r.Some? ==> r.value.path == p && r.value.dataset in datasets && r.value.dataset.path == p[2]
  {
    if IsDatasetTransformPath(p) then
      match FindDataset(datasets, p[2])
      case Some(d) => Some(Target(p, d))
      case None => None
    else None
  }

  /** The transforms to install, in bundled-path order. */
  function Targets(datasets: seq<Dataset>, paths: seq<BundledPath>): (ts: seq<Target>)
    ensures |ts| <= |paths|
    ensures forall t | t in ts ::
      && t.path in paths
      && IsDatasetTransformPath(t.path)
      && t.dataset in datasets
      && t.dataset.path == t.path[2]
  {
    if paths == [] then []
    else
      (match TargetOf(datasets, paths[0]) case Some(t) => [t] case None => [])
      + Targets(datasets, paths[1..])
  }

  /** Every transform path whose dataset is declared yields a target. */
  lemma {:induction false} TargetsCoverTransformPaths(datasets: seq<Dataset>, paths: seq<BundledPath>, p: BundledPath)
    requires p in paths && IsDatasetTransformPath(p) && FindDataset(datasets, p[2]).Some?
    ensures Target(p, FindDataset(datasets, p[2]).value) in Targets(datasets, paths)
  {
    if paths[0] != p {
      TargetsCoverTransformPaths(datasets, paths[1..], p);
    }
  }

  /** Targets follow the order of the bundled paths. */
  lemma {:induction false} TargetsAppend(datasets: seq<Dataset>, a: seq<BundledPath>, b: seq<BundledPath>)
    ensures Targets(datasets, a + b) == Targets(datasets, a) + Targets(datasets, b)
  {
    if a == [] {
      assert a + b == b;
    } else {
      assert (a + b)[1..] == a[1..] + b;
      TargetsAppend(datasets, a[1..], b);
    }
  }

  /** A file name without its `.json` extension. */
  function FileStem(fileName: string): string {
    if |fileName| >= 5 && fileName[|fileName| - 5..] == ".json" then fileName[..|fileName| - 5] else fileName
  }

  /**
   * `{dataset.type}-{dataset.name}-{default}-{package.version}`: the id starts
   * with the dataset type and ends with the package version, each set off by a dash.
   */
  function TransformId(t: Target, version: string, rule: IdRule): (id: string)
    requires IsDatasetTransformPath(t.path)
    ensures |id| > |t.dataset.dsType| + |version|
    ensures id[..|t.dataset.dsType| + 1] == t.dataset.dsType + "-"
    ensures id[|id| - |version| - 1..] == "-" + version
  {
    var middle := match rule
      case FromFileName => FileStem(t.path[5])
      case FromIngestPipeline => t.dataset.ingestPipeline;
    t.dataset.dsType + "-" + t.dataset.name + "-" + middle + "-" + version
  }

  /**
   * A package version is part of every transform id: installing the same
   * target at another version never reuses the old id, which is why an upgrade
   * removes the old transform rather than overwriting it.
   */
  lemma TransformIdCarriesVersion(t: Target, v1: string, v2: string, rule: IdRule)
    requires IsDatasetTransformPath(t.path) && v1 != v2
    ensures TransformId(t, v1, rule) != TransformId(t, v2, rule)
  {
    var a, b := TransformId(t, v1, rule), TransformId(t, v2, rule);
    if |v1| == |v2| && |a| == |b| {
      assert a[|a| - |v1| - 1..] == "-" + v1;
      assert b[|b| - |v2| - 1..] == "-" + v2;
      assert ("-" + v1)[1..] == v1 && ("-" + v2)[1..] == v2;
    } else if |v1| == |v2| {
    } else {
      assert |a| - |v1| == |b| - |v2|;
    }
  }

  /** The `{ id, type: transform }` refs of the targets, in order. */
  function TargetRefs(targets: seq<Target>, version: string, rule: IdRule): (refs: seq<EsAssetRef>)
    requires forall t | t in targets :: IsDatasetTransformPath(t.path)
    ensures |refs| == |targets|
    ensures forall j | 0 <= j < |targets| :: refs[j] == EsAssetRef(TransformId(targets[j], version, rule), Transform)
  {
    if targets == [] then []
    else [EsAssetRef(TransformId(targets[0], version, rule), Transform)] + TargetRefs(targets[1..], version, rule)
  }

  /** What is created for each target: its id and the text of its bundled file. */
  function Installations(targets: seq<Target>, version: string, rule: IdRule, asset: BundledPath -> string)
    : (items: seq<TransformInstallation>)
    requires forall t | t in targets :: IsDatasetTransformPath(t.path)
    ensures |items| == |targets|
    ensures forall j | 0 <= j < |targets| ::
      items[j] == TransformInstallation(TransformId(targets[j], version, rule), asset(targets[j].path))
  {
    if targets == [] then []
    else
      [TransformInstallation(TransformId(targets[0], version, rule), asset(targets[0].path))]
      + Installations(targets[1..], version, rule, asset)
  }

  // ---------------------------------------------------------------------
  // Engine requests
  // ---------------------------------------------------------------------

  /** The `_transform/` prefix every request path starts with: 11 characters. */
  const TransformPrefix := "_transform/"

  /**
   * Force-stop a transform, tolerating one that is already gone (404). The
   * transform's id can be read back from the path.
   */
  function StopRequest(id: string): (r: EngineRequest)
    ensures r.httpMethod == POST && r.query == Some("force=true") && r.ignore == [404] && r.body.None?
    ensures |r.path| == 11 + |id| + 6 && r.path[..11] == TransformPrefix
    ensures r.path[11..11 + |id|] == id && r.path[11 + |id|..] == "/_stop"
  {
    EngineRequest(TransportRequest, POST, TransformPrefix + id + "/_stop", Some("force=true"), None, [404])
  }

  /** Force-delete a transform, tolerating one that is already gone (404); the path names it. */
  function DeleteRequest(id: string): (r: EngineRequest)
    ensures r.httpMethod == DELETE && r.query == Some("force=true") && r.ignore == [404] && r.body.None?
    ensures |r.path| == 11 + |id| && r.path[..11] == TransformPrefix && r.path[11..] == id
  {
    EngineRequest(TransportRequest, DELETE, TransformPrefix + id, Some("force=true"), None, [404])
  }

  /**
   * Create a transform from its definition, with validation deferred; no
   * error is ignored. The path names the transform.
   */
  function CreateRequest(item: TransformInstallation): (r: EngineRequest)
    ensures r.httpMethod == PUT && r.query == Some("defer_validation=true") && r.ignore == [] && r.body == Some(item.content)
    ensures |r.path| == 11 + |item.installationName|
    ensures r.path[..11] == TransformPrefix && r.path[11..] == item.installationName
  {
    EngineRequest(TransportRequest, PUT, TransformPrefix + item.installationName, Some("defer_validation=true"), Some(item.content), [])
  }

  /** Start a created transform; no error is ignored. The path names the transform. */
  function StartRequest(item: TransformInstallation): (r: EngineRequest)
    ensures r.httpMethod == POST && r.ignore == [] && r.body.None? && r.query.None?
    ensures |r.path| == 11 + |item.installationName| + 7 && r.path[..11] == TransformPrefix
    ensures r.path[11..11 + |item.installationName|] == item.installationName
    ensures r.path[11 + |item.installationName|..] == "/_start"
  {
    EngineRequest(TransportRequest, POST, TransformPrefix + item.installationName + "/_start", None, None, [])
  }

  /** Prior transforms are taken in the previous installation's order. */
  lemma {:induction false} PriorTransformsAppend(a: seq<EsAssetRef>, b: seq<EsAssetRef>)
    ensures PriorTransforms(a + b) == PriorTransforms(a) + PriorTransforms(b)
  {
    if a == [] {
      assert a + b == b;
    } else {
      assert (a + b)[1..] == a[1..] + b;
      PriorTransformsAppend(a[1..], b);
    }
  }

  /** The transform-type entries of the previous installation, in order. */
  function PriorTransforms(previous: seq<EsAssetRef>): (prior: seq<EsAssetRef>)
    ensures |prior| <= |previous|
    ensures forall r :: r in prior <==> r in previous && r.assetType == Transform
  {
    if previous == [] then []
    else
      (if previous[0].assetType == Transform then [previous[0]] else [])
      + PriorTransforms(previous[1..])
  }

  /** Stop, then delete, each prior transform, one after the other. */
  function TeardownRequests(prior: seq<EsAssetRef>): (reqs: seq<EngineRequest>)
    ensures |reqs| == 2 * |prior|
  {
    if prior == [] then []
    else [StopRequest(prior[0].id), DeleteRequest(prior[0].id)] + TeardownRequests(prior[1..])
  }

  /** One PUT per item, none tolerating an error. */
  function CreateRequests(items: seq<TransformInstallation>): (reqs: seq<EngineRequest>)
    ensures |reqs| == |items|
  {
    if items == [] then [] else [CreateRequest(items[0])] + CreateRequests(items[1..])
  }

  /** One POST `_start` per item, none tolerating an error. */
  function StartRequests(items: seq<TransformInstallation>): (reqs: seq<EngineRequest>)
    ensures |reqs| == |items|
  {
    if items == [] then [] else [StartRequest(items[0])] + StartRequests(items[1..])
  }

  /** Everything sent to the cluster: all teardowns, then all creates, then all starts. */
  function InstallRequests(prior: seq<EsAssetRef>, items: seq<TransformInstallation>): (reqs: seq<EngineRequest>)
    ensures |reqs| == 2 * |prior| + 2 * |items|
  {
    TeardownRequests(prior) + CreateRequests(items) + StartRequests(items)
  }

  /** Every teardown request goes through `transport.request` and tolerates a 404. */
  lemma {:induction false} TeardownKinds(prior: seq<EsAssetRef>)
    ensures forall q | q in TeardownRequests(prior) :: q.endpoint == TransportRequest && q.ignore == [404]
  {
    if prior != [] {
      TeardownKinds(prior[1..]);
    }
  }

  /** Every create is a PUT and every start a POST, through `transport.request`, none tolerating an error. */
  lemma {:induction false} CreateAndStartKinds(items: seq<TransformInstallation>)
    ensures forall q | q in CreateRequests(items) :: q.endpoint == TransportRequest && q.httpMethod == PUT && q.ignore == []
    ensures forall q | q in StartRequests(items) :: q.endpoint == TransportRequest && q.httpMethod == POST && q.ignore == []
  {
    if items != [] {
      CreateAndStartKinds(items[1..]);
    }
  }

  lemma {:induction false} TeardownAt(prior: seq<EsAssetRef>, k: nat)
    requires k < |prior|
    ensures |TeardownRequests(prior)| == 2 * |prior|
    ensures TeardownRequests(prior)[2 * k] == StopRequest(prior[k].id)
    ensures TeardownRequests(prior)[2 * k + 1] == DeleteRequest(prior[k].id)
  {
    if k > 0 {
      TeardownAt(prior[1..], k - 1);
    } else if |prior| > 1 {
      TeardownAt(prior[1..], 0);
    }
  }

  lemma {:induction false} CreateAndStartAt(items: seq<TransformInstallation>, j: nat)
    requires j < |items|
    ensures |CreateRequests(items)| == |items| && |StartRequests(items)| == |items|
    ensures CreateRequests(items)[j] == CreateRequest(items[j])
    ensures StartRequests(items)[j] == StartRequest(items[j])
  {
    if j > 0 {
      CreateAndStartAt(items[1..], j - 1);
    } else if |items| > 1 {
      CreateAndStartAt(items[1..], 0);
    }
  }

  /**
   * The request log, position by position: for the k-th prior transform a
   * stop at 2k and a delete at 2k + 1; after all of them the creates, in
   * target order; after all creates the starts, in the same order.
   */
  lemma InstallRequestsLayout(prior: seq<EsAssetRef>, items: seq<TransformInstallation>)
    ensures var reqs := InstallRequests(prior, items);
      && |reqs| == 2 * |prior| + 2 * |items|
      && (forall k | 0 <= k < |prior| ::
            reqs[2 * k] == StopRequest(prior[k].id) && reqs[2 * k + 1] == DeleteRequest(prior[k].id))
      && (forall j | 0 <= j < |items| ::
            && reqs[2 * |prior| + j] == CreateRequest(items[j])
            && reqs[2 * |prior| + |items| + j] == StartRequest(items[j]))
  {
    var reqs := InstallRequests(prior, items);
    if prior == [] {
      assert |TeardownRequests(prior)| == 0;
    } else {
      TeardownAt(prior, 0);
    }
    if items == [] {
      assert |CreateRequests(items)| == 0 && |StartRequests(items)| == 0;
    } else {
      CreateAndStartAt(items, 0);
    }
    forall k | 0 <= k < |prior|
      ensures reqs[2 * k] == StopRequest(prior[k].id) && reqs[2 * k + 1] == DeleteRequest(prior[k].id)
    {
      TeardownAt(prior, k);
    }
    forall j | 0 <= j < |items|
      ensures && reqs[2 * |prior| + j] == CreateRequest(items[j])
              && reqs[2 * |prior| + |items| + j] == StartRequest(items[j])
    {
      CreateAndStartAt(items, j);
    }
  }

  lemma {:induction false} TeardownAppend(a: seq<EsAssetRef>, b: seq<EsAssetRef>)
    ensures TeardownRequests(a + b) == TeardownRequests(a) + TeardownRequests(b)
  {
    if a == [] {
      assert a + b == b;
    } else {
      assert (a + b)[1..] == a[1..] + b;
      TeardownAppend(a[1..], b);
    }
  }

  lemma {:induction false} CreateAppend(a: seq<TransformInstallation>, b: seq<TransformInstallation>)
    ensures CreateRequests(a + b) == CreateRequests(a) + CreateRequests(b)
  {
    if a == [] {
      assert a + b == b;
    } else {
      assert (a + b)[1..] == a[1..] + b;
      CreateAppend(a[1..], b);
      assert CreateRequests(a + b) == [CreateRequest(a[0])] + CreateRequests(a[1..] + b);
    }
  }

  lemma {:induction false} StartAppend(a: seq<TransformInstallation>, b: seq<TransformInstallation>)
    ensures StartRequests(a + b) == StartRequests(a) + StartRequests(b)
  {
    if a == [] {
      assert a + b == b;
    } else {
      assert (a + b)[1..] == a[1..] + b;
      StartAppend(a[1..], b);
      assert StartRequests(a + b) == [StartRequest(a[0])] + StartRequests(a[1..] + b);
    }
  }

  // ---------------------------------------------------------------------
  // Saved-object updates
  // ---------------------------------------------------------------------

  /**
   * The ids dropped from the saved list: those of the prior transforms, less,
   * when `keepReinstalled` holds, the ones that are installed again.
   */
  function RemovedIds(prior: seq<EsAssetRef>, newRefs: seq<EsAssetRef>, keepReinstalled: bool): (removed: set<string>)
    ensures forall id | id in removed :: exists r | r in prior :: r.id == id
    ensures forall r | r in prior && r !in newRefs :: r.id in removed
    ensures !keepReinstalled ==> forall r | r in prior :: r.id in removed
    ensures keepReinstalled ==>
      forall id | id in removed :: exists r | r in prior && r !in newRefs :: r.id == id
  {
    set r | r in prior && (!keepReinstalled || r !in newRefs) :: r.id
  }

  /**
   * The two readings part ways on a prior transform that is installed again:
   * with `keepReinstalled` its id stays, without it the id is removed.
   */
  lemma ReinstalledRemovedUnlessKept(r: EsAssetRef)
    ensures RemovedIds([r], [r], true) == {}
    ensures RemovedIds([r], [r], false) == {r.id}
  {
  }

  /** The entries of an `installed_es` list whose id is not among the removed ids, in order. */
  function Pruned(installedEs: seq<EsAssetRef>, removed: set<string>): (kept: seq<EsAssetRef>)
    ensures |kept| <= |installedEs|
  {
    if installedEs == [] then []
    else
      (if installedEs[0].id in removed then [] else [installedEs[0]])
      + Pruned(installedEs[1..], removed)
  }

  /** Pruning keeps exactly the entries whose id is not removed. */
  lemma {:induction false} PrunedMembers(installedEs: seq<EsAssetRef>, removed: set<string>)
    ensures forall r :: r in Pruned(installedEs, removed) <==> r in installedEs && r.id !in removed
  {
    if installedEs != [] {
      PrunedMembers(installedEs[1..], removed);
    }
  }

  /** Pruning keeps the order of what it keeps. */
  lemma {:induction false} PrunedAppend(a: seq<EsAssetRef>, b: seq<EsAssetRef>, removed: set<string>)
    ensures Pruned(a + b, removed) == Pruned(a, removed) + Pruned(b, removed)
  {
    if a == [] {
      assert a + b == b;
    } else {
      assert (a + b)[1..] == a[1..] + b;
      PrunedAppend(a[1..], b, removed);
    }
  }

  /** A list none of whose ids is removed comes through pruning unchanged. */
  lemma {:induction false} PrunedKeepsAll(installedEs: seq<EsAssetRef>, removed: set<string>)
    requires forall r | r in installedEs :: r.id !in removed
    ensures Pruned(installedEs, removed) == installedEs
  {
    if installedEs != [] {
      PrunedKeepsAll(installedEs[1..], removed);
    }
  }

  /**
   * The updates, in order: when there is something to install, the saved list
   * with the new refs appended; then, when there were prior transforms, the
   * current installation's list without the removed ids.
   */
  function InstallUpdates(
    pkgName: string,
    saved: seq<EsAssetRef>,
    current: seq<EsAssetRef>,
    prior: seq<EsAssetRef>,
    newRefs: seq<EsAssetRef>,
    keepReinstalled: bool)
    : (updates: seq<SavedObjectUpdate>)
    ensures |updates| <= 2
    ensures forall u | u in updates :: u.savedObjectType == PackagesSavedObjectType && u.id == pkgName
    ensures |updates| == (if newRefs == [] then 0 else 1) + (if prior == [] then 0 else 1)
    ensures newRefs != [] ==> updates[0].installedEs == saved + newRefs
    ensures prior != [] ==>
      updates[|updates| - 1].installedEs == Pruned(current, RemovedIds(prior, newRefs, keepReinstalled))
  {
    var appended :=
      if newRefs == [] then []
      else [SavedObjectUpdate(PackagesSavedObjectType, pkgName, saved + newRefs)];
    var pruned :=
      if prior == [] then []
      else [SavedObjectUpdate(PackagesSavedObjectType, pkgName, Pruned(current, RemovedIds(prior, newRefs, keepReinstalled)))];
    appended + pruned
  }

  /**
   * After the install, no removed id is left in the pruned list, and every
   * other current entry is; with `keepReinstalled`, that includes the entries
   * of prior transforms that were installed again.
   */
  lemma PrunedDropsExactlyRemoved(current: seq<EsAssetRef>, prior: seq<EsAssetRef>, newRefs: seq<EsAssetRef>, keepReinstalled: bool)
    ensures var kept := Pruned(current, RemovedIds(prior, newRefs, keepReinstalled));
      && (forall r | r in kept :: r in current)
      && (forall r | r in prior && (!keepReinstalled || r !in newRefs) :: r !in kept)
      && (forall r | r in current && (forall q | q in prior :: q.id != r.id) :: r in kept)
      && (keepReinstalled ==>
            forall r | r in current && (forall q | q in prior && q !in newRefs :: q.id != r.id) :: r in kept)
  {
    PrunedMembers(current, RemovedIds(prior, newRefs, keepReinstalled));
  }

  // ---------------------------------------------------------------------
  // The cluster client and the saved-objects client
  // ---------------------------------------------------------------------

  /** `callCluster`, recording each request it is given. */
  class ClusterClient {
    var requests: seq<EngineRequest>

    constructor ()
      ensures requests == []
    {
      requests := [];
    }

    method Call(request: EngineRequest)
      modifies this
      ensures requests == old(requests) + [request]
    {
      requests := requests + [request];
    }
  }

  /**
   * The `epm-packages` saved objects: each package's `installed_es` list,
   * and the log of the updates written to them.
   */
  class PackageStore {
    var installedEs: map<string, seq<EsAssetRef>>
    var updates: seq<SavedObjectUpdate>

    constructor (initial: map<string, seq<EsAssetRef>>)
      ensures installedEs == initial && updates == []
    {
      installedEs := initial;
      updates := [];
    }

    /** `getInstallationObject(...).attributes.installed_es`. */
    method SavedInstalledEs(pkgName: string) returns (refs: seq<EsAssetRef>)
      requires pkgName in installedEs
      ensures refs == installedEs[pkgName]
    {
      refs := installedEs[pkgName];
    }

    /** `update('epm-packages', pkgName, { installed_es })`. */
    method UpdateInstalledEs(pkgName: string, refs: seq<EsAssetRef>)
      modifies this
      ensures updates == old(updates) + [SavedObjectUpdate(PackagesSavedObjectType, pkgName, refs)]
      ensures installedEs == old(installedEs)[pkgName := refs]
    {
      updates := updates + [SavedObjectUpdate(PackagesSavedObjectType, pkgName, refs)];
      installedEs := installedEs[pkgName := refs];
    }
  }

  // ---------------------------------------------------------------------
  // installTransformForDataset
  // ---------------------------------------------------------------------

  /** The saved list once every update has been written: the last update's list, if there is one. */
  function FinalInstalledEs(saved: seq<EsAssetRef>, updates: seq<SavedObjectUpdate>): seq<EsAssetRef>
  {
    if updates == [] then saved else updates[|updates| - 1].installedEs
  }

  /**
   * The requests the install sends to the cluster: all through
   * `transport.request`, two for each prior transform and two for each target.
   */
  function ExpectedRequests(
    pkg: RegistryPackage, paths: seq<BundledPath>, previous: seq<EsAssetRef>,
    asset: BundledPath -> string, rule: IdRule)
    : (reqs: seq<EngineRequest>)
    ensures |reqs| == 2 * |PriorTransforms(previous)| + 2 * |Targets(pkg.datasets, paths)|
    ensures forall q | q in reqs :: q.endpoint == TransportRequest
  {
    var prior := PriorTransforms(previous);
    var items := Installations(Targets(pkg.datasets, paths), pkg.version, rule, asset);
    TeardownKinds(prior);
    CreateAndStartKinds(items);
    InstallRequests(prior, items)
  }

  /**
   * The updates the install writes, given the saved list it reads and the
   * current installation's list: at most two, all to the package's own saved
   * object, and none at all exactly when there is nothing to tear down and
   * nothing to install.
   */
  function ExpectedUpdates(
    pkg: RegistryPackage, paths: seq<BundledPath>, previous: seq<EsAssetRef>,
    current: seq<EsAssetRef>, saved: seq<EsAssetRef>, rule: IdRule, keepReinstalled: bool)
    : (updates: seq<SavedObjectUpdate>)
    ensures |updates| <= 2
    ensures forall u | u in updates :: u.savedObjectType == PackagesSavedObjectType && u.id == pkg.name
    ensures updates == [] <==> PriorTransforms(previous) == [] && Targets(pkg.datasets, paths) == []
  {
    InstallUpdates(pkg.name, saved, current, PriorTransforms(previous),
                   TargetRefs(Targets(pkg.datasets, paths), pkg.version, rule), keepReinstalled)
  }

  /**
   * Install the package's bundled transforms: tear down the transforms of
   * the previous installation, create and then start one transform per
   * target, and record the change in the package's saved object.
   * `previous` and `current` are what the two `getInstallation` lookups
   * answer; `asset` is the asset loader.
   */
  method InstallTransformForDataset(
    pkg: RegistryPackage,
    paths: seq<BundledPath>,
    previous: seq<EsAssetRef>,
    current: seq<EsAssetRef>,
    asset: BundledPath -> string,
    rule: IdRule,
    keepReinstalled: bool,
    cluster: ClusterClient,
    store: PackageStore)
    requires pkg.name in store.installedEs
    modifies cluster, store
    ensures cluster.requests == old(cluster.requests) + ExpectedRequests(pkg, paths, previous, asset, rule)
    ensures store.updates == old(store.updates)
      + ExpectedUpdates(pkg, paths, previous, current, old(store.installedEs[pkg.name]), rule, keepReinstalled)
    ensures store.installedEs == old(store.installedEs)[pkg.name := FinalInstalledEs(
      old(store.installedEs[pkg.name]),
      ExpectedUpdates(pkg, paths, previous, current, old(store.installedEs[pkg.name]), rule, keepReinstalled))]
  {
    var prior := PriorTransforms(previous);
    DeleteTransforms(cluster, prior);
    var targets := Targets(pkg.datasets, paths);
    var newRefs := TargetRefs(targets, pkg.version, rule);
    var items := Installations(targets, pkg.version, rule, asset);
    var saved := store.SavedInstalledEs(pkg.name);
    CreateTransforms(cluster, items);
    StartTransforms(cluster, items);
    AppendAssociates(old(cluster.requests), TeardownRequests(prior), CreateRequests(items), StartRequests(items));

    RecordInstalledEs(store, pkg.name, saved, current, prior, newRefs, keepReinstalled);
  }

  lemma AppendAssociates(log: seq<EngineRequest>, a: seq<EngineRequest>, b: seq<EngineRequest>, c: seq<EngineRequest>)
    ensures log + a + b + c == log + (a + b + c)
  {
  }

  /** The saved-object side of the install: the append update, then the pruning update. */
  method RecordInstalledEs(
    store: PackageStore,
    pkgName: string,
    saved: seq<EsAssetRef>,
    current: seq<EsAssetRef>,
    prior: seq<EsAssetRef>,
    newRefs: seq<EsAssetRef>,
    keepReinstalled: bool)
    requires pkgName in store.installedEs && store.installedEs[pkgName] == saved
    modifies store
    ensures store.updates == old(store.updates) + InstallUpdates(pkgName, saved, current, prior, newRefs, keepReinstalled)
    ensures store.installedEs == old(store.installedEs)[pkgName := FinalInstalledEs(
      saved, InstallUpdates(pkgName, saved, current, prior, newRefs, keepReinstalled))]
  {
    if |newRefs| > 0 {
      store.UpdateInstalledEs(pkgName, saved + newRefs);
    }
    if |prior| > 0 {
      store.UpdateInstalledEs(pkgName, Pruned(current, RemovedIds(prior, newRefs, keepReinstalled)));
    }
  }

  /** Stop and then delete each prior transform, tolerating ones already gone. */
  method DeleteTransforms(cluster: ClusterClient, prior: seq<EsAssetRef>)
    modifies cluster
    ensures cluster.requests == old(cluster.requests) + TeardownRequests(prior)
  {
    var i := 0;
    while i < |prior|
      invariant 0 <= i <= |prior|
      invariant cluster.requests == old(cluster.requests) + TeardownRequests(prior[..i])
    {
      cluster.Call(StopRequest(prior[i].id));
      cluster.Call(DeleteRequest(prior[i].id));
      assert prior[..i + 1] == prior[..i] + [prior[i]];
      TeardownAppend(prior[..i], [prior[i]]);
      i := i + 1;
    }
    assert prior[..i] == prior;
  }

  /** Create every transform, with validation deferred. */
  method CreateTransforms(cluster: ClusterClient, items: seq<TransformInstallation>)
    modifies cluster
    ensures cluster.requests == old(cluster.requests) + CreateRequests(items)
  {
    var j := 0;
    while j < |items|
      invariant 0 <= j <= |items|
      invariant cluster.requests == old(cluster.requests) + CreateRequests(items[..j])
    {
      cluster.Call(CreateRequest(items[j]));
      assert items[..j + 1] == items[..j] + [items[j]];
      CreateAppend(items[..j], [items[j]]);
      j := j + 1;
    }
    assert items[..j] == items;
  }

  /** Start every created transform. */
  method StartTransforms(cluster: ClusterClient, items: seq<TransformInstallation>)
    modifies cluster
    ensures cluster.requests == old(cluster.requests) + StartRequests(items)
  {
    var j := 0;
    while j < |items|
      invariant 0 <= j <= |items|
      invariant cluster.requests == old(cluster.requests) + StartRequests(items[..j])
    {
      cluster.Call(StartRequest(items[j]));
      assert items[..j + 1] == items[..j] + [items[j]];
      StartAppend(items[..j], [items[j]]);
      j := j + 1;
    }
    assert items[..j] == items;
  }
}
