/**
 * The three scenarios of the transform install tests, as exact values of the
 * request log and of the update log. Each holds for both id rules and for
 * both answers to whether a reinstalled transform is kept, since the tests
 * do not tell those apart.
 */
module TransformScenarios {
  import opened Wrappers
  import opened TransformInstall

  const Content := "{\"content\": \"data\"}"

  /** The asset loader of the tests: every bundled file reads as the same text. */
  function TestAsset(p: BundledPath): string { Content }

  const Metadata := Dataset("metrics", "endpoint.metadata", "default", "metadata")
  const MetadataCurrent := Dataset("metrics", "endpoint.metadata_current", "default", "metadata_current")

  const PolicyPipelinePath: BundledPath :=
    ["endpoint-0.16.0-dev.0", "dataset", "policy", "elasticsearch", "ingest_pipeline", "default.json"]
  const MetadataPath: BundledPath :=
    ["endpoint-0.16.0-dev.0", "dataset", "metadata", "elasticsearch", "transform", "default.json"]
  const MetadataCurrentPath: BundledPath :=
    ["endpoint-0.16.0-dev.0", "dataset", "metadata_current", "elasticsearch", "transform", "default.json"]

  const PolicyPipeline := EsAssetRef("metrics-endpoint.policy-0.16.0-dev.0", IngestPipeline)
  const OldMetadataCurrent := EsAssetRef("metrics-endpoint.metadata_current-default-0.15.0-dev.0", Transform)
  const NewMetadataCurrent := EsAssetRef("metrics-endpoint.metadata_current-default-0.16.0-dev.0", Transform)
  const NewMetadata := EsAssetRef("metrics-endpoint.metadata-default-0.16.0-dev.0", Transform)
  /** The third test's previous installation writes `metadata-current` with a dash. */
  const DashedOldMetadataCurrent := EsAssetRef("metrics-endpoint.metadata-current-default-0.15.0-dev.0", Transform)

  /**
   * The set-up every test shares: a fresh recording cluster client and a
   * saved-objects client holding only this package's saved list, then one
   * install. What the two clients recorded is exactly the expected logs.
   */
  method RunInstall(
    pkg: RegistryPackage, paths: seq<BundledPath>, previous: seq<EsAssetRef>, current: seq<EsAssetRef>,
    saved: seq<EsAssetRef>, asset: BundledPath -> string, rule: IdRule, keepReinstalled: bool)
    returns (requests: seq<EngineRequest>, updates: seq<SavedObjectUpdate>)
    ensures requests == ExpectedRequests(pkg, paths, previous, asset, rule)
    ensures updates == ExpectedUpdates(pkg, paths, previous, current, saved, rule, keepReinstalled)
  {
    var cluster := new ClusterClient();
    var store := new PackageStore(map[pkg.name := saved]);
    InstallTransformForDataset(pkg, paths, previous, current, asset, rule, keepReinstalled, cluster, store);
    requests := cluster.requests;
    updates := store.updates;
  }

  // ---------------------------------------------------------------------
  // Small steps
  // ---------------------------------------------------------------------

  lemma DefaultStem()
    ensures FileStem("default.json") == "default"
  {
    assert "default.json"[7..] == ".json";
    assert "default.json"[..7] == "default";
  }

  lemma TeardownOne(r: EsAssetRef)
    ensures TeardownRequests([r]) == [StopRequest(r.id), DeleteRequest(r.id)]
  {
    assert [r][1..] == [];
  }

  lemma CreateAndStartOne(a: TransformInstallation)
    ensures CreateRequests([a]) == [CreateRequest(a)]
    ensures StartRequests([a]) == [StartRequest(a)]
  {
    assert [a][1..] == [];
  }

  lemma CreateAndStartTwo(a: TransformInstallation, b: TransformInstallation)
    ensures CreateRequests([a, b]) == [CreateRequest(a), CreateRequest(b)]
    ensures StartRequests([a, b]) == [StartRequest(a), StartRequest(b)]
  {
    CreateAndStartOne(a);
    CreateAndStartOne(b);
    CreateAppend([a], [b]);
    StartAppend([a], [b]);
    assert [a] + [b] == [a, b];
  }

  lemma TargetsOne(datasets: seq<Dataset>, p: BundledPath)
    ensures Targets(datasets, [p]) == match TargetOf(datasets, p) case Some(t) => [t] case None => []
  {
    assert [p][1..] == [];
  }

  lemma MetadataIdHead()
    ensures "metrics" + "-" + "endpoint.metadata" + "-" + "default" == "metrics-endpoint.metadata-default"
  {
    assert "metrics" + "-" + "endpoint.metadata" == "metrics-endpoint.metadata";
  }

  lemma MetadataIdSpelled()
    ensures "metrics" + "-" + "endpoint.metadata" + "-" + "default" + "-" + "0.16.0-dev.0" == NewMetadata.id
  {
    MetadataIdHead();
    assert "metrics-endpoint.metadata-default" + "-" + "0.16.0-dev.0" == NewMetadata.id;
  }

  lemma MetadataCurrentIdHead()
    ensures "metrics" + "-" + "endpoint.metadata_current" + "-" + "default" == "metrics-endpoint.metadata_current-default"
  {
    assert "metrics" + "-" + "endpoint.metadata_current" == "metrics-endpoint.metadata_current";
  }

  lemma MetadataCurrentIdSpelled()
    ensures "metrics" + "-" + "endpoint.metadata_current" + "-" + "default" + "-" + "0.16.0-dev.0" == NewMetadataCurrent.id
  {
    MetadataCurrentIdHead();
    assert "metrics-endpoint.metadata_current-default" + "-" + "0.16.0-dev.0" == NewMetadataCurrent.id;
  }

  /** The two id rules agree on every test path: `{type}-{name}-default-{version}`. */
  lemma TestTransformIds(rule: IdRule)
    ensures TransformId(Target(MetadataPath, Metadata), "0.16.0-dev.0", rule) == NewMetadata.id
    ensures TransformId(Target(MetadataCurrentPath, MetadataCurrent), "0.16.0-dev.0", rule) == NewMetadataCurrent.id
  {
    DefaultStem();
    MetadataIdSpelled();
    MetadataCurrentIdSpelled();
  }

  lemma PolicyPathIsNoTransform()
    ensures !IsDatasetTransformPath(PolicyPipelinePath)
  {
    assert PolicyPipelinePath[4] == "ingest_pipeline";
    assert "ingest_pipeline"[0] != "transform"[0];
  }

  lemma MetadataTarget(datasets: seq<Dataset>)
    requires datasets == [Metadata, MetadataCurrent]
    ensures TargetOf(datasets, MetadataPath) == Some(Target(MetadataPath, Metadata))
  {
    assert FindDataset(datasets, "metadata") == Some(Metadata);
  }

  lemma MetadataCurrentTarget(datasets: seq<Dataset>)
    requires datasets == [Metadata, MetadataCurrent] || datasets == [MetadataCurrent]
    ensures TargetOf(datasets, MetadataCurrentPath) == Some(Target(MetadataCurrentPath, MetadataCurrent))
  {
    assert "metadata" != "metadata_current" by {
      assert |"metadata"| != |"metadata_current"|;
    }
    if datasets == [Metadata, MetadataCurrent] {
      assert datasets[1..] == [MetadataCurrent];
    }
    assert FindDataset(datasets, "metadata_current") == Some(MetadataCurrent);
  }

  lemma TargetsOfTwo(datasets: seq<Dataset>, p1: BundledPath, p2: BundledPath, t1: Target, t2: Target)
    requires TargetOf(datasets, p1) == Some(t1) && TargetOf(datasets, p2) == Some(t2)
    ensures Targets(datasets, [p1, p2]) == [t1, t2]
  {
    assert [p1, p2][1..] == [p2];
    TargetsOne(datasets, p2);
  }

  lemma TargetsOfThree(datasets: seq<Dataset>, p0: BundledPath, p1: BundledPath, p2: BundledPath, t1: Target, t2: Target)
    requires TargetOf(datasets, p0) == None
    requires TargetOf(datasets, p1) == Some(t1) && TargetOf(datasets, p2) == Some(t2)
    ensures Targets(datasets, [p0, p1, p2]) == [t1, t2]
  {
    assert [p0, p1, p2][1..] == [p1, p2];
    TargetsOfTwo(datasets, p1, p2, t1, t2);
  }

  /** Of the first test's three paths, the pipeline file yields nothing and each transform file one target. */
  lemma TestTargets(datasets: seq<Dataset>)
    requires datasets == [Metadata, MetadataCurrent]
    ensures Targets(datasets, [PolicyPipelinePath, MetadataPath, MetadataCurrentPath])
         == [Target(MetadataPath, Metadata), Target(MetadataCurrentPath, MetadataCurrent)]
  {
    PolicyPathIsNoTransform();
    MetadataTarget(datasets);
    MetadataCurrentTarget(datasets);
    TargetsOfThree(datasets, PolicyPipelinePath, MetadataPath, MetadataCurrentPath,
                   Target(MetadataPath, Metadata), Target(MetadataCurrentPath, MetadataCurrent));
  }

  lemma PriorOfFirstTest()
    ensures PriorTransforms([PolicyPipeline, OldMetadataCurrent]) == [OldMetadataCurrent]
  {
    assert [PolicyPipeline, OldMetadataCurrent][1..] == [OldMetadataCurrent];
    assert [OldMetadataCurrent][1..] == [];
  }

  lemma RemovedOfFirstTest(keepReinstalled: bool)
    ensures RemovedIds([OldMetadataCurrent], [NewMetadata, NewMetadataCurrent], keepReinstalled)
         == {OldMetadataCurrent.id}
  {
    assert OldMetadataCurrent.id[45] != NewMetadataCurrent.id[45];
    assert |OldMetadataCurrent.id| != |NewMetadata.id|;
  }

  lemma FirstTestIdsDiffer()
    ensures PolicyPipeline.id != OldMetadataCurrent.id
    ensures NewMetadataCurrent.id != OldMetadataCurrent.id
    ensures NewMetadata.id != OldMetadataCurrent.id
  {
    assert |PolicyPipeline.id| != |OldMetadataCurrent.id|;
    assert OldMetadataCurrent.id[45] != NewMetadataCurrent.id[45];
    assert |OldMetadataCurrent.id| != |NewMetadata.id|;
  }

  lemma PrunedDropsSecond(a: EsAssetRef, b: EsAssetRef, c: EsAssetRef, d: EsAssetRef, removed: set<string>)
    requires b.id in removed && a.id !in removed && c.id !in removed && d.id !in removed
    ensures Pruned([a, b, c, d], removed) == [a, c, d]
  {
    assert Pruned([c, d], removed) == [c, d] by {
      PrunedKeepsAll([c, d], removed);
    }
    assert Pruned([b, c, d], removed) == [c, d] by {
      assert [b, c, d][1..] == [c, d];
    }
    assert [a, b, c, d][1..] == [b, c, d];
  }

  /** Pruning the first test's current list of the 0.15 id. */
  lemma PrunedOfFirstTest(removed: set<string>)
    requires removed == {OldMetadataCurrent.id}
    ensures Pruned([PolicyPipeline, OldMetadataCurrent, NewMetadataCurrent, NewMetadata], removed)
         == [PolicyPipeline, NewMetadataCurrent, NewMetadata]
  {
    FirstTestIdsDiffer();
    PrunedDropsSecond(PolicyPipeline, OldMetadataCurrent, NewMetadataCurrent, NewMetadata, removed);
  }

  /** Two targets give two installations and two refs, in order. */
  lemma ItemsOfTwo(t1: Target, t2: Target, version: string, rule: IdRule, asset: BundledPath -> string)
    requires IsDatasetTransformPath(t1.path) && IsDatasetTransformPath(t2.path)
    ensures Installations([t1, t2], version, rule, asset) == [
      TransformInstallation(TransformId(t1, version, rule), asset(t1.path)),
      TransformInstallation(TransformId(t2, version, rule), asset(t2.path))]
    ensures TargetRefs([t1, t2], version, rule) == [
      EsAssetRef(TransformId(t1, version, rule), Transform),
      EsAssetRef(TransformId(t2, version, rule), Transform)]
  {
  }

  lemma ItemsOfOne(t: Target, version: string, rule: IdRule, asset: BundledPath -> string)
    requires IsDatasetTransformPath(t.path)
    ensures Installations([t], version, rule, asset) == [TransformInstallation(TransformId(t, version, rule), asset(t.path))]
    ensures TargetRefs([t], version, rule) == [EsAssetRef(TransformId(t, version, rule), Transform)]
  {
  }

  /** One prior transform and two new ones: stop, delete, create, create, start, start. */
  lemma RequestsOfOneAndTwo(p: EsAssetRef, a: TransformInstallation, b: TransformInstallation)
    ensures InstallRequests([p], [a, b]) == [
      StopRequest(p.id), DeleteRequest(p.id), CreateRequest(a), CreateRequest(b), StartRequest(a), StartRequest(b)]
  {
    TeardownOne(p);
    CreateAndStartTwo(a, b);
  }

  const FirstTestPackage := RegistryPackage("endpoint", "0.16.0-dev.0", [Metadata, MetadataCurrent])
  const FirstTestPaths := [PolicyPipelinePath, MetadataPath, MetadataCurrentPath]
  const FirstTestPrevious := [PolicyPipeline, OldMetadataCurrent]
  const FirstTestCurrent := [PolicyPipeline, OldMetadataCurrent, NewMetadataCurrent, NewMetadata]

  lemma FirstTestTargets(rule: IdRule)
    ensures Targets(FirstTestPackage.datasets, FirstTestPaths)
         == [Target(MetadataPath, Metadata), Target(MetadataCurrentPath, MetadataCurrent)]
    ensures Installations(Targets(FirstTestPackage.datasets, FirstTestPaths), "0.16.0-dev.0", rule, TestAsset)
         == [TransformInstallation(NewMetadata.id, Content), TransformInstallation(NewMetadataCurrent.id, Content)]
    ensures TargetRefs(Targets(FirstTestPackage.datasets, FirstTestPaths), "0.16.0-dev.0", rule)
         == [NewMetadata, NewMetadataCurrent]
  {
    TestTargets(FirstTestPackage.datasets);
    TestTransformIds(rule);
    ItemsOfTwo(Target(MetadataPath, Metadata), Target(MetadataCurrentPath, MetadataCurrent), "0.16.0-dev.0", rule, TestAsset);
  }

  lemma PairsJoin(a: EsAssetRef, b: EsAssetRef, c: EsAssetRef, d: EsAssetRef)
    ensures [a, b] + [c, d] == [a, b, c, d]
  {
  }

  /** With something to install and something installed before, both updates are written. */
  lemma UpdatesOfBoth(
    pkgName: string, saved: seq<EsAssetRef>, current: seq<EsAssetRef>,
    prior: seq<EsAssetRef>, newRefs: seq<EsAssetRef>, keepReinstalled: bool)
    requires prior != [] && newRefs != []
    ensures InstallUpdates(pkgName, saved, current, prior, newRefs, keepReinstalled) == [
      SavedObjectUpdate("epm-packages", pkgName, saved + newRefs),
      SavedObjectUpdate("epm-packages", pkgName, Pruned(current, RemovedIds(prior, newRefs, keepReinstalled)))]
  {
  }

  /**
   * First test (`can install new versions and removes older version`), the
   * cluster side: the 0.15 transform is stopped and deleted, then the two
   * 0.16 transforms are created, then both are started.
   */
  lemma CanInstallNewVersionsAndRemoveOlderRequests(rule: IdRule)
    ensures ExpectedRequests(FirstTestPackage, FirstTestPaths, FirstTestPrevious, TestAsset, rule) == [
      EngineRequest("transport.request", POST,
        "_transform/" + "metrics-endpoint.metadata_current-default-0.15.0-dev.0" + "/_stop",
        Some("force=true"), None, [404]),
      EngineRequest("transport.request", DELETE,
        "_transform/" + "metrics-endpoint.metadata_current-default-0.15.0-dev.0",
        Some("force=true"), None, [404]),
      EngineRequest("transport.request", PUT,
        "_transform/" + "metrics-endpoint.metadata-default-0.16.0-dev.0",
        Some("defer_validation=true"), Some("{\"content\": \"data\"}"), []),
      EngineRequest("transport.request", PUT,
        "_transform/" + "metrics-endpoint.metadata_current-default-0.16.0-dev.0",
        Some("defer_validation=true"), Some("{\"content\": \"data\"}"), []),
      EngineRequest("transport.request", POST,
        "_transform/" + "metrics-endpoint.metadata-default-0.16.0-dev.0" + "/_start", None, None, []),
      EngineRequest("transport.request", POST,
        "_transform/" + "metrics-endpoint.metadata_current-default-0.16.0-dev.0" + "/_start", None, None, [])]
  {
    FirstTestTargets(rule);
    PriorOfFirstTest();
    RequestsOfOneAndTwo(OldMetadataCurrent,
      TransformInstallation(NewMetadata.id, Content), TransformInstallation(NewMetadataCurrent.id, Content));
  }

  /**
   * First test, the saved-object side: the saved list first gains the two
   * new refs, then is rewritten from the current installation without the
   * 0.15 ref.
   */
  lemma CanInstallNewVersionsAndRemoveOlderUpdates(rule: IdRule, keepReinstalled: bool)
    ensures ExpectedUpdates(FirstTestPackage, FirstTestPaths, FirstTestPrevious, FirstTestCurrent, FirstTestPrevious,
                            rule, keepReinstalled) == [
      SavedObjectUpdate("epm-packages", "endpoint", [PolicyPipeline, OldMetadataCurrent, NewMetadata, NewMetadataCurrent]),
      SavedObjectUpdate("epm-packages", "endpoint", [PolicyPipeline, NewMetadataCurrent, NewMetadata])]
  {
    FirstTestTargets(rule);
    PriorOfFirstTest();
    var removed := RemovedIds([OldMetadataCurrent], [NewMetadata, NewMetadataCurrent], keepReinstalled);
    RemovedOfFirstTest(keepReinstalled);
    PrunedOfFirstTest(removed);
    UpdatesOfBoth("endpoint", FirstTestPrevious, FirstTestCurrent, [OldMetadataCurrent],
                  [NewMetadata, NewMetadataCurrent], keepReinstalled);
    PairsJoin(PolicyPipeline, OldMetadataCurrent, NewMetadata, NewMetadataCurrent);
  }

  /**
   * Second test (`can install new version and when no older version`):
   * nothing to tear down, so the metadata_current transform is created and
   * started, and the saved list, empty before, gets its ref in one update.
   * The current installation plays no part.
   */
  lemma CanInstallNewVersionWithNoOlder(current: seq<EsAssetRef>, rule: IdRule, keepReinstalled: bool)
    ensures
      var pkg := RegistryPackage("endpoint", "0.16.0-dev.0", [MetadataCurrent]);
      && ExpectedRequests(pkg, [MetadataCurrentPath], [], TestAsset, rule) == [
           EngineRequest("transport.request", PUT,
             "_transform/" + "metrics-endpoint.metadata_current-default-0.16.0-dev.0",
             Some("defer_validation=true"), Some("{\"content\": \"data\"}"), []),
           EngineRequest("transport.request", POST,
             "_transform/" + "metrics-endpoint.metadata_current-default-0.16.0-dev.0" + "/_start", None, None, [])]
      && ExpectedUpdates(pkg, [MetadataCurrentPath], [], current, [], rule, keepReinstalled) == [
           SavedObjectUpdate("epm-packages", "endpoint",
             [EsAssetRef("metrics-endpoint.metadata_current-default-0.16.0-dev.0", Transform)])]
  {
    var datasets := [MetadataCurrent];
    var t := Target(MetadataCurrentPath, MetadataCurrent);
    MetadataCurrentTarget(datasets);
    TargetsOne(datasets, MetadataCurrentPath);
    TestTransformIds(rule);
    ItemsOfOne(t, "0.16.0-dev.0", rule, TestAsset);
    CreateAndStartOne(TransformInstallation(NewMetadataCurrent.id, Content));
    assert PriorTransforms([]) == [];
    assert [] + [NewMetadataCurrent] == [NewMetadataCurrent];
  }

  /**
   * Third test (`can removes older version when no new install in package`):
   * no transform path is bundled, so the one prior transform is stopped and
   * deleted and the saved list is rewritten as the current installation's,
   * which is empty.
   */
  lemma CanRemoveOlderWhenNoNewInstall(rule: IdRule, keepReinstalled: bool)
    ensures
      var pkg := RegistryPackage("endpoint", "0.16.0-dev.0", [Metadata, MetadataCurrent]);
      && ExpectedRequests(pkg, [], [DashedOldMetadataCurrent], TestAsset, rule) == [
           EngineRequest("transport.request", POST,
             "_transform/" + "metrics-endpoint.metadata-current-default-0.15.0-dev.0" + "/_stop",
             Some("force=true"), None, [404]),
           EngineRequest("transport.request", DELETE,
             "_transform/" + "metrics-endpoint.metadata-current-default-0.15.0-dev.0",
             Some("force=true"), None, [404])]
      && ExpectedUpdates(pkg, [], [DashedOldMetadataCurrent], [], [], rule, keepReinstalled) == [
           SavedObjectUpdate("epm-packages", "endpoint", [])]
  {
    assert PriorTransforms([DashedOldMetadataCurrent]) == [DashedOldMetadataCurrent] by {
      assert [DashedOldMetadataCurrent][1..] == [];
    }
    TeardownOne(DashedOldMetadataCurrent);
  }
}
