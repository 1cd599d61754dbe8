/** `updateMap(updates)` (map/update.js lines 35-273): load and back up the three
    stored sources, classify the batch and the schema drift into a history, merge
    the verified updates into the index, rebuild the index, both collections and
    their layer statistics, write the five output files and append the history.
    A refused write takes the failure path, which reports the required files found
    nowhere. Everything the pipeline cannot see is a field of `Env`. */
module Pipeline {
  import opened JsValues
  import opened Seqs
  import opened Records
  import opened Diff
  import opened HistoryLog
  import opened Index
  import opened LayerStats
  import opened Backup

  /** `master-index.json`: `{ id, features, length }`. */
  datatype IndexData = IndexData(id: string, features: map<string, IndexFeature>, length: int)

  /** A feature collection as written: `{ id, features, layers }`. */
  datatype CollectionOut = CollectionOut(id: string, features: seq<Feature>, layers: seq<LayerOut>)

  /** The code and services the pipeline calls but does not define. */
  datatype Env = Env(
    validate: Update -> Verdict,                    // History.validator, with its errors
    decodeIndex: string -> Option<IndexData>,       // JSON.parse of master-index.json
    decodeCollection: string -> Option<Collection>, // JSON.parse of a source collection
    baseDecls: seq<LayerDecl>,                      // FeatureCollection.getBaseLayers()
    masterDecls: seq<LayerDecl>,                    // FeatureCollection.getMasterLayers()
    baseSample: Feature,                            // new BaseCollectionFeature()
    masterSample: Feature,                          // new MasterCollectionFeature()
    toBase: IndexFeature -> Feature,                // new BaseCollectionFeature(parcel)
    toMaster: IndexFeature -> Feature,              // new MasterCollectionFeature(parcel)
    toIndex: IndexFeature -> IndexFeature,          // new MasterIndexFeature(parcel)
    generateBins: seq<Value> -> BinResult,          // Layer.generateBins
    buildFormulas: LayerView -> Formulas,           // Layer.buildLayerFormulas
    encodeIndex: IndexData -> string,               // JSON.stringify
    encodeCollection: CollectionOut -> string,
    encodeHistory: HistoryOut -> string,
    accepts: Path -> bool,                          // whether a write or append succeeds
    errorMessage: Path -> string)                   // err.message of a refused write

  function IndexParser(env: Env): string -> bool
  {
    s => env.decodeIndex(s).Some?
  }

  function CollectionParser(env: Env): string -> bool
  {
    s => env.decodeCollection(s).Some?
  }

  /** The three sources as loaded. */
  datatype Sources = Sources(index: IndexData, base: Collection, master: Collection)

  datatype Loads = Loads(result: Result<Sources>, files: map<Path, string>)

  /** Lines 40-50: the three loads in order; the first failure ends the run. */
  function LoadAll(files: map<Path, string>, env: Env): Loads
  {
    var i := Load(files, MasterIndexDir, "master-index.json", IndexParser(env));
    if i.result.Err? then Loads(Err(i.result.error), i.files)
    else
      var b := Load(i.files, BaseSourceDir, "base-source.json", CollectionParser(env));
      if b.result.Err? then Loads(Err(b.result.error), b.files)
      else
        var m := Load(b.files, MasterSourceDir, "master-source.json", CollectionParser(env));
        if m.result.Err? then Loads(Err(m.result.error), m.files)
        else
          Loads(Ok(Sources(env.decodeIndex(i.result.value).value, env.decodeCollection(b.result.value).value,
                           env.decodeCollection(m.result.value).value)), m.files)
  }

  predicate InSourceDir(p: Path)
  {
    p.dir == MasterIndexDir || p.dir == BaseSourceDir || p.dir == MasterSourceDir
  }

  /** Loading touches nothing outside the three source directories: the production
      copies under `src/map` and the history are left as they were. */
  lemma LoadAllKeepsOtherFiles(files: map<Path, string>, env: Env, p: Path)
    requires !InSourceDir(p)
    ensures var l := LoadAll(files, env);
      (p in l.files <==> p in files) && (p in files ==> l.files[p] == files[p])
  {
    var i := Load(files, MasterIndexDir, "master-index.json", IndexParser(env));
    LoadTouchesOnly(files, MasterIndexDir, "master-index.json", IndexParser(env), p);
    var b := Load(i.files, BaseSourceDir, "base-source.json", CollectionParser(env));
    LoadTouchesOnly(i.files, BaseSourceDir, "base-source.json", CollectionParser(env), p);
    LoadTouchesOnly(b.files, MasterSourceDir, "master-source.json", CollectionParser(env), p);
  }

  /** With all three primaries present and readable, the run works on exactly their
      contents, and afterwards each backup holds its primary's content. */
  lemma LoadAllRotatesPrimaries(files: map<Path, string>, env: Env)
    requires Path(MasterIndexDir, "master-index.json") in files
    requires Path(BaseSourceDir, "base-source.json") in files
    requires Path(MasterSourceDir, "master-source.json") in files
    requires env.decodeIndex(files[Path(MasterIndexDir, "master-index.json")]).Some?
    requires env.decodeCollection(files[Path(BaseSourceDir, "base-source.json")]).Some?
    requires env.decodeCollection(files[Path(MasterSourceDir, "master-source.json")]).Some?
    ensures var l := LoadAll(files, env);
      && l.result == Ok(Sources(env.decodeIndex(files[Path(MasterIndexDir, "master-index.json")]).value,
                                env.decodeCollection(files[Path(BaseSourceDir, "base-source.json")]).value,
                                env.decodeCollection(files[Path(MasterSourceDir, "master-source.json")]).value))
      && Path(MasterIndexDir, "master-index.backup.json") in l.files
      && l.files[Path(MasterIndexDir, "master-index.backup.json")] == files[Path(MasterIndexDir, "master-index.json")]
      && Path(BaseSourceDir, "base-source.backup.json") in l.files
      && l.files[Path(BaseSourceDir, "base-source.backup.json")] == files[Path(BaseSourceDir, "base-source.json")]
      && Path(MasterSourceDir, "master-source.backup.json") in l.files
      && l.files[Path(MasterSourceDir, "master-source.backup.json")] == files[Path(MasterSourceDir, "master-source.json")]
      && Path(MasterIndexDir, "master-index.json") !in l.files
      && Path(BaseSourceDir, "base-source.json") !in l.files
      && Path(MasterSourceDir, "master-source.json") !in l.files
  {
    BackupNamesOfTheSources();
    assert EndsWithJson("master-index.json") && EndsWithJson("base-source.json") && EndsWithJson("master-source.json");
    assert |MasterIndexDir| == 16 && |BaseSourceDir| == 15 && |MasterSourceDir| == 17;
    var pi, bi := Path(MasterIndexDir, "master-index.json"), Path(MasterIndexDir, "master-index.backup.json");
    var pb, bb := Path(BaseSourceDir, "base-source.json"), Path(BaseSourceDir, "base-source.backup.json");
    var pm, bm := Path(MasterSourceDir, "master-source.json"), Path(MasterSourceDir, "master-source.backup.json");
    LoadRotatesPrimary(files, MasterIndexDir, "master-index.json", IndexParser(env));
    LoadTouchesOnly(files, MasterIndexDir, "master-index.json", IndexParser(env), pb);
    LoadTouchesOnly(files, MasterIndexDir, "master-index.json", IndexParser(env), pm);
    var i := Load(files, MasterIndexDir, "master-index.json", IndexParser(env));
    LoadRotatesPrimary(i.files, BaseSourceDir, "base-source.json", CollectionParser(env));
    LoadTouchesOnly(i.files, BaseSourceDir, "base-source.json", CollectionParser(env), pm);
    LoadTouchesOnly(i.files, BaseSourceDir, "base-source.json", CollectionParser(env), pi);
    LoadTouchesOnly(i.files, BaseSourceDir, "base-source.json", CollectionParser(env), bi);
    var b := Load(i.files, BaseSourceDir, "base-source.json", CollectionParser(env));
    LoadRotatesPrimary(b.files, MasterSourceDir, "master-source.json", CollectionParser(env));
    LoadTouchesOnly(b.files, MasterSourceDir, "master-source.json", CollectionParser(env), pi);
    LoadTouchesOnly(b.files, MasterSourceDir, "master-source.json", CollectionParser(env), bi);
    LoadTouchesOnly(b.files, MasterSourceDir, "master-source.json", CollectionParser(env), pb);
    LoadTouchesOnly(b.files, MasterSourceDir, "master-source.json", CollectionParser(env), bb);
  }

  /** The history of a run before any failure. */
  function ChangeHistory(sources: Sources, updates: seq<Update>, env: Env): (h: HistoryOut)
    ensures h.failure == []
    ensures |h.verifiedProps| + |h.rejectedProps| == |updates|
  {
    ClassificationPartition(updates, sources.index.features.Keys, env.validate);
    HistoryOut(sources.index.id, sources.base.id, sources.master.id,
               VerifiedLog(updates, sources.index.features.Keys, env.validate),
               RejectedLog(updates, sources.index.features.Keys, env.validate),
               LayerChangeLog(DiffLayers(sources.base.layers, env.baseDecls), DiffLayers(sources.master.layers, env.masterDecls)),
               PropertyChangeLog(DiffFeatureProperties(FirstFeature(sources.base), Some(env.baseSample)),
                                 DiffFeatureProperties(FirstFeature(sources.master), Some(env.masterSample))),
               [])
  }

  /** The failure item of lines 262-265. */
  function FailureEntry(message: string, missing: seq<Missing>): HistoryEntry
  {
    HistoryEntry("FAIL", "FAILURE IN UPDATE PROCESS", "LOG FAILURE, ENSURE BACKUPS", FailureReport(message, missing), None)
  }

  /** The index features in `Object.entries` order. */
  function Ordered(features: map<string, IndexFeature>, order: seq<string>): seq<IndexFeature>
    requires forall i :: 0 <= i < |order| ==> order[i] in features
  {
    seq(|order|, i requires 0 <= i < |order| => features[order[i]])
  }

  function Projected(parcels: seq<IndexFeature>, project: IndexFeature -> Feature): seq<Feature>
  {
    seq(|parcels|, i requires 0 <= i < |parcels| => project(parcels[i]))
  }

  /** `NEW_MASTER_INDEX.features[parcel.parcelNum] = new MasterIndexFeature(parcel)`
      for each parcel in order: a later parcel with the same `parcelNum` replaces an
      earlier one. */
  function IndexOf(parcels: seq<IndexFeature>, make: IndexFeature -> IndexFeature): map<string, IndexFeature>
  {
    if parcels == [] then map[]
    else
      var last := parcels[|parcels| - 1];
      IndexOf(parcels[..|parcels| - 1], make)[ParcelKey(last.fields) := make(last)]
  }

  /** Every parcel's number is a key of the rebuilt index, and every key holds the
      rebuilt feature of a parcel with that number. */
  lemma {:induction false} IndexOfKeys(parcels: seq<IndexFeature>, make: IndexFeature -> IndexFeature)
    ensures forall i :: 0 <= i < |parcels| ==> ParcelKey(parcels[i].fields) in IndexOf(parcels, make)
    ensures forall k :: k in IndexOf(parcels, make) ==>
      exists i :: 0 <= i < |parcels| && ParcelKey(parcels[i].fields) == k && IndexOf(parcels, make)[k] == make(parcels[i])
  {
    if parcels != [] {
      var init, last := parcels[..|parcels| - 1], parcels[|parcels| - 1];
      IndexOfKeys(init, make);
      var r := IndexOf(parcels, make);
      forall i | 0 <= i < |parcels| ensures ParcelKey(parcels[i].fields) in r {
        if i < |init| {
          assert parcels[i] == init[i];
        }
      }
      forall k | k in r
        ensures exists i :: 0 <= i < |parcels| && ParcelKey(parcels[i].fields) == k && r[k] == make(parcels[i])
      {
        if k == ParcelKey(last.fields) {
          assert r[k] == make(parcels[|parcels| - 1]);
        } else {
          var i :| 0 <= i < |init| && ParcelKey(init[i].fields) == k && IndexOf(init, make)[k] == make(init[i]);
          assert parcels[i] == init[i];
        }
      }
    }
  }

  /** An index whose every feature is stored under its own `parcelNum`. */
  predicate KeyedByParcelNum(features: map<string, IndexFeature>)
  {
    forall k :: k in features ==> ParcelKey(features[k].fields) == k
  }

  /** Merging keeps every feature's own fields, so an index keyed by parcel number
      stays so. */
  lemma MergeKeepsKeying(features: map<string, IndexFeature>, updates: seq<Update>, validate: Update -> Verdict)
    requires KeyedByParcelNum(features)
    ensures KeyedByParcelNum(MergedVerified(features, updates, validate))
  {
  }

  /** Visiting an index keyed by parcel number in enumeration order meets each parcel
      under its own key. */
  lemma OrderedParcelKeys(features: map<string, IndexFeature>, order: seq<string>)
    requires KeyedByParcelNum(features) && Enumerates(order, features.Keys)
    ensures forall i :: 0 <= i < |order| ==> ParcelKey(Ordered(features, order)[i].fields) == order[i]
  {
    var parcels := Ordered(features, order);
    forall i | 0 <= i < |order| ensures ParcelKey(parcels[i].fields) == order[i] {
      assert parcels[i] == features[order[i]];
    }
  }

  /** Rebuilding an index keyed by parcel number, in any enumeration order, gives
      back the same keys, each holding its own parcel rebuilt, and `length` is then
      the number of features. */
  lemma {:induction false} RebuiltIndexKeepsKeys(features: map<string, IndexFeature>, order: seq<string>,
                                                 make: IndexFeature -> IndexFeature)
    requires KeyedByParcelNum(features) && Enumerates(order, features.Keys)
    ensures var r := IndexOf(Ordered(features, order), make);
      r.Keys == features.Keys && (forall k :: k in features ==> r[k] == make(features[k])) && |order| == |r|
  {
    var parcels := Ordered(features, order);
    var r := IndexOf(parcels, make);
    IndexOfKeys(parcels, make);
    OrderedParcelKeys(features, order);
    forall k | k in r ensures k in features && r[k] == make(features[k]) {
      var i :| 0 <= i < |parcels| && ParcelKey(parcels[i].fields) == k && r[k] == make(parcels[i]);
    }
    forall k | k in features ensures k in r {
      var j :| 0 <= j < |order| && order[j] == k;
    }
    EnumerationSize(order, features.Keys);
  }

  /** Two index entries whose parcels carry the same `parcelNum` collapse into one,
      while `length` counts both. */
  lemma LengthCountsCollapsedParcels(make: IndexFeature -> IndexFeature)
    ensures var a := IndexFeature(map["parcelNum" := Str("7")], map[]);
      var b := IndexFeature(map["parcelNum" := Str("7")], map["owner" := Str("X")]);
      |IndexOf([a, b], make)| == 1
  {
    var a := IndexFeature(map["parcelNum" := Str("7")], map[]);
    var b := IndexFeature(map["parcelNum" := Str("7")], map["owner" := Str("X")]);
    assert [a, b][..1] == [a];
    assert [a][..0] == [];
    assert ParcelKey(a.fields) == "7" && ParcelKey(b.fields) == "7";
    assert IndexOf([a], make) == map["7" := make(a)];
    assert IndexOf([a, b], make) == map["7" := make(b)];
  }

  /** What the regeneration gives a collection's layers: the declared layers in
      order, the statistics of every parcel's value, range bins over the ascending
      expansion, and formulas built from the finished layer. */
  ghost predicate LayersRebuilt(layers: seq<LayerOut>, decls: seq<LayerDecl>, parcels: seq<IndexFeature>,
                                exemptStructural: bool, env: Env)
  {
    && |layers| == |decls|
    && forall j :: 0 <= j < |decls| ==>
      && layers[j].view.decl == decls[j]
      && layers[j].view.stats == Accumulate(EmptyStats, decls[j], Column(parcels, decls[j].key), exemptStructural)
      && (decls[j].dataType == Range ==>
            exists e :: IsExpansionOf(e, layers[j].view.stats.tally) && layers[j].view.bins == env.generateBins(e).bins
                        && layers[j].view.binCounts == env.generateBins(e).counts)
      && (decls[j].dataType != Range ==> layers[j].view.bins == [] && layers[j].view.binCounts == [])
      && layers[j].formulas == env.buildFormulas(layers[j].view)
  }

  const HistoryPath := Path(HistoryDir, "history.jsonl")

  /** Lines 223-227: the five `writeJsonFile` calls, in order. */
  function OutputWrites(index: IndexData, base: CollectionOut, master: CollectionOut, env: Env): (w: seq<Write>)
    ensures |w| == 5
  {
    [ Write(Path(MasterIndexDir, "master-index.json"), env.encodeIndex(index)),
      Write(Path(MasterSourceDir, "master-source.json"), env.encodeCollection(master)),
      Write(Path(MapSourceDir, "master-source.json"), env.encodeCollection(master)),
      Write(Path(BaseSourceDir, "base-source.json"), env.encodeCollection(base)),
      Write(Path(MapSourceDir, "base-source.json"), env.encodeCollection(base)) ]
  }

  /** The five outputs go to five different files, none of them the history. */
  lemma OutputPathsDistinct(index: IndexData, base: CollectionOut, master: CollectionOut, env: Env)
    ensures var w := OutputWrites(index, base, master, env);
      (forall i, j :: 0 <= i < j < |w| ==> w[i].path != w[j].path)
      && forall i :: 0 <= i < |w| ==> w[i].path != HistoryPath
  {
  }

  /** The history file's content before a run, empty when there is none. */
  function HistoryText(files: map<Path, string>): string
  {
    if HistoryPath in files then files[HistoryPath] else ""
  }

  /** `appendJsonLine(history, historyDir, 'history.jsonl')`, whose failure is only
      reported on the console. */
  ghost predicate Appended(files: map<Path, string>, before: map<Path, string>, h: HistoryOut, env: Env)
  {
    if env.accepts(HistoryPath) then HistoryPath in files && files[HistoryPath] == HistoryText(before) + env.encodeHistory(h) + "\n"
    else (HistoryPath in files <==> HistoryPath in before) && HistoryText(files) == HistoryText(before)
  }

  datatype RunResult =
    | Skipped
    | LoadFailed(error: LoadError)
    | Published(loaded: Sources, order: seq<string>, index: IndexData, base: CollectionOut, master: CollectionOut,
                history: HistoryOut)
    | Failed(loaded: Sources, refused: Path, missing: seq<Missing>, history: HistoryOut)

  /** `Object.entries(features)`: every key once, in an order this model leaves
      open. */
  method Entries(features: map<string, IndexFeature>) returns (keys: seq<string>)
    ensures Enumerates(keys, features.Keys)
  {
    keys := [];
    var rest := features.Keys;
    while rest != {}
      invariant rest <= features.Keys
      invariant NoDuplicates(keys)
      invariant forall i :: 0 <= i < |keys| ==> keys[i] in features && keys[i] !in rest
      invariant forall k :: k in features ==> k in keys || k in rest
      decreases |rest|
    {
      var k :| k in rest;
      keys := keys + [k];
      rest := rest - {k};
    }
  }

  /** Fresh layers for a collection's declarations (`getBaseLayers()` or
      `getMasterLayers()`). */
  method NewLayers(decls: seq<LayerDecl>) returns (layers: seq<Layer>)
    ensures |layers| == |decls| && NoDuplicates(layers)
    ensures forall j :: 0 <= j < |layers| ==> fresh(layers[j])
    ensures forall j :: 0 <= j < |layers| ==>
      layers[j].Decl() == decls[j] && layers[j].Snapshot() == EmptyStats
      && layers[j].bins == [] && layers[j].binCounts == [] && layers[j].formulas == NoFormulas
  {
    layers := [];
    var i := 0;
    while i < |decls|
      invariant 0 <= i <= |decls| && |layers| == i && NoDuplicates(layers)
      invariant forall j :: 0 <= j < i ==> fresh(layers[j])
      invariant forall j :: 0 <= j < i ==>
        layers[j].Decl() == decls[j] && layers[j].Snapshot() == EmptyStats
        && layers[j].bins == [] && layers[j].binCounts == [] && layers[j].formulas == NoFormulas
    {
      var layer := new Layer(decls[i].key, decls[i].name, decls[i].dataType);
      layers := layers + [layer];
      i := i + 1;
    }
  }

  /** Lines 40-50. */
  method LoadSources(store: Store, env: Env) returns (r: Result<Sources>)
    modifies store
    ensures Loads(r, store.files) == LoadAll(old(store.files), env)
  {
    var i := store.LoadAndBackup(MasterIndexDir, "master-index.json", IndexParser(env));
    if i.Err? {
      return Err(i.error);
    }
    var b := store.LoadAndBackup(BaseSourceDir, "base-source.json", CollectionParser(env));
    if b.Err? {
      return Err(b.error);
    }
    var m := store.LoadAndBackup(MasterSourceDir, "master-source.json", CollectionParser(env));
    if m.Err? {
      return Err(m.error);
    }
    r := Ok(Sources(env.decodeIndex(i.value).value, env.decodeCollection(b.value).value,
                    env.decodeCollection(m.value).value));
  }

  /** Every layer holds the statistics of the given parcels. */
  ghost predicate Fed(layers: seq<Layer>, parcels: seq<IndexFeature>, exemptStructural: bool)
    reads set l | l in layers
  {
    forall j :: 0 <= j < |layers| ==>
      layers[j].Snapshot() == Accumulate(EmptyStats, layers[j].Decl(), Column(parcels, layers[j].key), exemptStructural)
  }

  /** No layer has bins or formulas yet. */
  predicate Unbinned(layers: seq<Layer>)
    reads set l | l in layers
  {
    forall j :: 0 <= j < |layers| ==>
      layers[j].bins == [] && layers[j].binCounts == [] && layers[j].formulas == NoFormulas
  }

  /** Lines 124-145 (or 151-166) for parcel `i`. */
  method FeedLayers(layers: seq<Layer>, ghost parcels: seq<IndexFeature>, i: nat, parcel: IndexFeature, exemptStructural: bool)
    requires i < |parcels| && parcel == parcels[i] && NoDuplicates(layers)
    requires Fed(layers, parcels[..i], exemptStructural) && Unbinned(layers)
    modifies set l | l in layers
    ensures Fed(layers, parcels[..i + 1], exemptStructural) && Unbinned(layers)
  {
    forall j | 0 <= j < |layers|
      ensures Accumulate(EmptyStats, layers[j].Decl(), Column(parcels[..i + 1], layers[j].key), exemptStructural)
           == Step(Accumulate(EmptyStats, layers[j].Decl(), Column(parcels[..i], layers[j].key), exemptStructural),
                   layers[j].Decl(), Get(parcel.fields, layers[j].key), exemptStructural)
    {
      RebuildStep(layers[j].Decl(), parcels, i, exemptStructural);
    }
    ObserveAll(layers, parcel, exemptStructural);
  }

  /** Both collections' layers for parcel `i`: the base layers first, then the
      master layers. */
  method FeedBoth(baseLayers: seq<Layer>, masterLayers: seq<Layer>, ghost parcels: seq<IndexFeature>, i: nat,
                  parcel: IndexFeature)
    requires i < |parcels| && parcel == parcels[i]
    requires NoDuplicates(baseLayers) && NoDuplicates(masterLayers)
    requires forall a, b :: 0 <= a < |baseLayers| && 0 <= b < |masterLayers| ==> baseLayers[a] != masterLayers[b]
    requires Fed(baseLayers, parcels[..i], true) && Fed(masterLayers, parcels[..i], false)
    requires Unbinned(baseLayers) && Unbinned(masterLayers)
    modifies set l | l in baseLayers, set l | l in masterLayers
    ensures Fed(baseLayers, parcels[..i + 1], true) && Fed(masterLayers, parcels[..i + 1], false)
    ensures Unbinned(baseLayers) && Unbinned(masterLayers)
  {
    FeedLayers(baseLayers, parcels, i, parcel, true);
    FeedLayers(masterLayers, parcels, i, parcel, false);
  }

  lemma PrefixStep(parcels: seq<IndexFeature>, i: nat, env: Env)
    requires i < |parcels|
    ensures IndexOf(parcels[..i + 1], env.toIndex) == IndexOf(parcels[..i], env.toIndex)[ParcelKey(parcels[i].fields) := env.toIndex(parcels[i])]
    ensures Projected(parcels[..i + 1], env.toBase) == Projected(parcels[..i], env.toBase) + [env.toBase(parcels[i])]
    ensures Projected(parcels[..i + 1], env.toMaster) == Projected(parcels[..i], env.toMaster) + [env.toMaster(parcels[i])]
  {
    assert parcels[..i + 1][..i] == parcels[..i];
  }

  /** The new index and the collection features after the first `i` parcels. */
  ghost predicate IndexProgress(newIndex: MasterIndex, baseFeatures: seq<Feature>, masterFeatures: seq<Feature>,
                                parcels: seq<IndexFeature>, i: nat, env: Env)
    reads newIndex
  {
    && i <= |parcels|
    && newIndex.features == IndexOf(parcels[..i], env.toIndex) && newIndex.length == i
    && baseFeatures == Projected(parcels[..i], env.toBase)
    && masterFeatures == Projected(parcels[..i], env.toMaster)
  }

  /** Both collections' layers after the first `i` parcels. */
  ghost predicate LayersProgress(baseLayers: seq<Layer>, masterLayers: seq<Layer>, parcels: seq<IndexFeature>, i: nat)
    reads set l | l in baseLayers, set l | l in masterLayers
  {
    && i <= |parcels|
    && Fed(baseLayers, parcels[..i], true) && Fed(masterLayers, parcels[..i], false)
    && Unbinned(baseLayers) && Unbinned(masterLayers)
  }

  /** Lines 124-166 for parcel `i`. */
  method FeedStep(baseLayers: seq<Layer>, masterLayers: seq<Layer>, parcels: seq<IndexFeature>, i: nat)
    requires i < |parcels|
    requires NoDuplicates(baseLayers) && NoDuplicates(masterLayers)
    requires forall a, b :: 0 <= a < |baseLayers| && 0 <= b < |masterLayers| ==> baseLayers[a] != masterLayers[b]
    requires LayersProgress(baseLayers, masterLayers, parcels, i)
    modifies set l | l in baseLayers, set l | l in masterLayers
    ensures LayersProgress(baseLayers, masterLayers, parcels, i + 1)
  {
    FeedBoth(baseLayers, masterLayers, parcels, i, parcels[i]);
  }

  /** Lines 121-122, 148-149 and 169-171 for parcel `i`. */
  method IndexStep(newIndex: MasterIndex, baseFeatures: seq<Feature>, masterFeatures: seq<Feature>,
                   parcels: seq<IndexFeature>, i: nat, env: Env)
    returns (baseFeatures': seq<Feature>, masterFeatures': seq<Feature>)
    requires i < |parcels|
    requires IndexProgress(newIndex, baseFeatures, masterFeatures, parcels, i, env)
    modifies newIndex
    ensures IndexProgress(newIndex, baseFeatures', masterFeatures', parcels, i + 1, env)
  {
    var parcel := parcels[i];
    PrefixStep(parcels, i, env);
    baseFeatures' := baseFeatures + [env.toBase(parcel)];
    masterFeatures' := masterFeatures + [env.toMaster(parcel)];
    newIndex.Add(parcel, env.toIndex(parcel));
  }

  /** Lines 121-171 for parcel `i`: its two collection features, every layer, and its
      new index entry. */
  method RegenerateStep(newIndex: MasterIndex, baseFeatures: seq<Feature>, masterFeatures: seq<Feature>,
                        baseLayers: seq<Layer>, masterLayers: seq<Layer>, parcels: seq<IndexFeature>, i: nat, env: Env)
    returns (baseFeatures': seq<Feature>, masterFeatures': seq<Feature>)
    requires i < |parcels|
    requires NoDuplicates(baseLayers) && NoDuplicates(masterLayers)
    requires forall a, b :: 0 <= a < |baseLayers| && 0 <= b < |masterLayers| ==> baseLayers[a] != masterLayers[b]
    requires IndexProgress(newIndex, baseFeatures, masterFeatures, parcels, i, env)
    requires LayersProgress(baseLayers, masterLayers, parcels, i)
    modifies newIndex, set l | l in baseLayers, set l | l in masterLayers
    ensures IndexProgress(newIndex, baseFeatures', masterFeatures', parcels, i + 1, env)
    ensures LayersProgress(baseLayers, masterLayers, parcels, i + 1)
  {
    FeedStep(baseLayers, masterLayers, parcels, i);
    baseFeatures', masterFeatures' := IndexStep(newIndex, baseFeatures, masterFeatures, parcels, i, env);
  }

  /** Lines 118-173: one pass over the index features in entry order, feeding both
      collections, every layer and the new index. */
  method Regenerate(parcels: seq<IndexFeature>, env: Env, baseLayers: seq<Layer>, masterLayers: seq<Layer>)
    returns (newIndex: MasterIndex, baseFeatures: seq<Feature>, masterFeatures: seq<Feature>)
    requires NoDuplicates(baseLayers) && NoDuplicates(masterLayers)
    requires forall i, j :: 0 <= i < |baseLayers| && 0 <= j < |masterLayers| ==> baseLayers[i] != masterLayers[j]
    requires Fed(baseLayers, [], true) && Fed(masterLayers, [], false)
    requires Unbinned(baseLayers) && Unbinned(masterLayers)
    modifies set l | l in baseLayers, set l | l in masterLayers
    ensures fresh(newIndex) && newIndex.id == "master-index"
    ensures newIndex.features == IndexOf(parcels, env.toIndex) && newIndex.length == |parcels|
    ensures baseFeatures == Projected(parcels, env.toBase) && masterFeatures == Projected(parcels, env.toMaster)
    ensures Fed(baseLayers, parcels, true) && Fed(masterLayers, parcels, false)
    ensures Unbinned(baseLayers) && Unbinned(masterLayers)
  {
    newIndex := new MasterIndex("master-index");
    baseFeatures, masterFeatures := [], [];
    var i := 0;
    assert parcels[..0] == [];
    while i < |parcels|
      invariant 0 <= i <= |parcels|
      invariant fresh(newIndex) && newIndex.id == "master-index"
      invariant IndexProgress(newIndex, baseFeatures, masterFeatures, parcels, i, env)
      invariant LayersProgress(baseLayers, masterLayers, parcels, i)
    {
      baseFeatures, masterFeatures := RegenerateStep(newIndex, baseFeatures, masterFeatures, baseLayers, masterLayers,
                                                     parcels, i, env);
      i := i + 1;
    }
    assert parcels[..i] == parcels;
  }

  function Outs(layers: seq<Layer>): seq<LayerOut>
    reads set l | l in layers
  {
    seq(|layers|, j reads set l | l in layers requires 0 <= j < |layers| => layers[j].Out())
  }

  /** Lines 176-197 and 201-220 for one collection. */
  method FinishLayers(layers: seq<Layer>, decls: seq<LayerDecl>, ghost parcels: seq<IndexFeature>, exemptStructural: bool, env: Env)
    returns (outs: seq<LayerOut>)
    requires NoDuplicates(layers) && |layers| == |decls|
    requires forall j :: 0 <= j < |layers| ==> layers[j].Decl() == decls[j]
    requires Fed(layers, parcels, exemptStructural) && Unbinned(layers)
    modifies set l | l in layers
    ensures LayersRebuilt(outs, decls, parcels, exemptStructural, env)
  {
    FinalizeAll(layers, env.generateBins, env.buildFormulas);
    outs := Outs(layers);
  }

  /** Lines 223-234 on success; lines 236-272 once a write is refused. */
  method WriteOutputs(store: Store, history: History, env: Env, writes: seq<Write>)
    returns (refused: Option<Path>, missing: seq<Missing>)
    requires forall i, j :: 0 <= i < j < |writes| ==> writes[i].path != writes[j].path
    requires forall i :: 0 <= i < |writes| ==> writes[i].path != HistoryPath
    modifies store, history
    ensures refused.None? ==> Stored(store.files, writes)
    ensures refused.None? ==> history.Snapshot() == old(history.Snapshot())
    ensures refused.Some? ==> (exists i :: 0 <= i < |writes| && writes[i].path == refused.value) && !env.accepts(refused.value)
    ensures refused.Some? ==>
      missing == MissingOf(store.files, RequiredFiles)
      && history.Snapshot() == old(history.Snapshot()).(failure := old(history.failure) + [FailureEntry(env.errorMessage(refused.value), missing)])
    ensures Appended(store.files, old(store.files), history.Snapshot(), env)
  {
    ghost var before := store.files;
    refused := store.WriteAll(writes, env.accepts);
    ghost var written := store.files;
    assert HistoryText(written) == HistoryText(before) && (HistoryPath in written <==> HistoryPath in before);
    missing := [];
    if refused.Some? {
      missing := store.MissingFiles(RequiredFiles);
      history.LogFailure(env.errorMessage(refused.value), missing);
    } else {
      WriteEachStores(before, writes, env.accepts);
    }
    AppendHistory(store, history.Snapshot(), env);
  }

  /** Line 231 (or 268): append the history as one line; a refusal changes nothing. */
  method AppendHistory(store: Store, h: HistoryOut, env: Env)
    modifies store
    ensures Appended(store.files, old(store.files), h, env)
    ensures MissingOf(store.files, RequiredFiles) == MissingOf(old(store.files), RequiredFiles)
    ensures forall p :: p != HistoryPath ==>
      (p in store.files <==> p in old(store.files)) && (p in old(store.files) ==> store.files[p] == old(store.files)[p])
  {
    var line := env.encodeHistory(h);
    var text := HistoryText(store.files) + line + "\n";
    if HistoryPath !in store.files {
      assert text == line + "\n";
    }
    store.AppendLine(HistoryPath, line, env.accepts(HistoryPath));
    if env.accepts(HistoryPath) {
      assert store.files == old(store.files)[HistoryPath := text];
      MissingOfFrame(old(store.files), RequiredFiles, HistoryPath, text);
    }
  }

  /** What the rebuild produces from the merged index features, for one
      enumeration order. */
  ghost predicate RebuiltFrom(merged: map<string, IndexFeature>, env: Env, order: seq<string>,
                              index: IndexData, base: CollectionOut, master: CollectionOut)
  {
    && Enumerates(order, merged.Keys)
    && var parcels := Ordered(merged, order);
    && index == IndexData("master-index", IndexOf(parcels, env.toIndex), |parcels|)
    && base.id == "base-source" && base.features == Projected(parcels, env.toBase)
    && LayersRebuilt(base.layers, env.baseDecls, parcels, true, env)
    && master.id == "master-source" && master.features == Projected(parcels, env.toMaster)
    && LayersRebuilt(master.layers, env.masterDecls, parcels, false, env)
  }

  /** What the rebuild produces from the loaded sources and the batch. */
  ghost predicate Rebuilt(sources: Sources, updates: seq<Update>, env: Env, order: seq<string>,
                          index: IndexData, base: CollectionOut, master: CollectionOut)
  {
    RebuiltFrom(MergedVerified(sources.index.features, updates, env.validate), env, order, index, base, master)
  }

  /** The layer declarations a written collection carries when it is loaded again. */
  function DeclsOf(layers: seq<LayerOut>): seq<LayerDecl>
  {
    seq(|layers|, i requires 0 <= i < |layers| => layers[i].view.decl)
  }

  /** Lines 175-220 as written: the base collection is handed its finished layers (line
      197) but the master collection never is, so it keeps the layer list of a fresh
      `FeatureCollection`, taken here to be empty. */
  function MasterCollectionAsWritten(features: seq<Feature>, finished: seq<LayerOut>): (c: CollectionOut)
    ensures c.id == "master-source" && c.features == features
    ensures c.layers == []
  {
    CollectionOut("master-source", features, [])
  }

  /** The discrepancy: once a run has written the master collection as above, every
      later run reports every master layer as added, even when the declarations never
      changed. */
  lemma MasterLayersDriftAsWritten(features: seq<Feature>, finished: seq<LayerOut>, masterDecls: seq<LayerDecl>)
    requires DeclsOf(finished) == masterDecls && masterDecls != []
    ensures var next := DiffLayers(DeclsOf(MasterCollectionAsWritten(features, finished).layers), masterDecls);
            next == Changes([], masterDecls) && LayerChangeLog(Changes([], []), next) != []
  {
    assert DeclsOf([]) == [];
    EmptyLayersReportAllAdded(masterDecls);
  }

  /** With both collections handed their layers, a run whose declarations did not
      change reports no layer drift on the next run. */
  lemma RebuiltLayersShowNoDrift(merged: map<string, IndexFeature>, env: Env, order: seq<string>,
                                 index: IndexData, base: CollectionOut, master: CollectionOut)
    requires RebuiltFrom(merged, env, order, index, base, master)
    ensures DeclsOf(base.layers) == env.baseDecls && DeclsOf(master.layers) == env.masterDecls
    ensures LayerChangeLog(DiffLayers(DeclsOf(base.layers), env.baseDecls),
                           DiffLayers(DeclsOf(master.layers), env.masterDecls)) == []
  {
    assert DeclsOf(base.layers) == env.baseDecls;
    assert DeclsOf(master.layers) == env.masterDecls;
    NoDriftAgainstItself(env.baseDecls);
    NoDriftAgainstItself(env.masterDecls);
  }

  /** Every write's file holds what was written to it. */
  ghost predicate Stored(files: map<Path, string>, writes: seq<Write>)
  {
    forall i :: 0 <= i < |writes| ==> writes[i].path in files && files[writes[i].path] == writes[i].content
  }

  /** Lines 54-94: the history with the batch classified and the schema drift
      recorded; the early return of lines 97-101 is never taken. */
  method BuildHistory(sources: Sources, updates: seq<Update>, env: Env) returns (history: History)
    requires updates != []
    ensures fresh(history)
    ensures history.Snapshot() == ChangeHistory(sources, updates, env)
  {
    var indexKeys := sources.index.features.Keys;
    var baseLayers, masterLayers := DiffLayers(sources.base.layers, env.baseDecls), DiffLayers(sources.master.layers, env.masterDecls);
    var baseProps := DiffFeatureProperties(FirstFeature(sources.base), Some(env.baseSample));
    var masterProps := DiffFeatureProperties(FirstFeature(sources.master), Some(env.masterSample));
    history := new History(sources.index.id, sources.base.id, sources.master.id);
    history.Classify(updates, indexKeys, env.validate);
    history.LogSchemaChanges(baseLayers, masterLayers, baseProps, masterProps);
    NonEmptyBatchIsLogged(updates, indexKeys, env.validate);
    if history.NoChanges() {
      // Lines 97-101 never return: every update of a non-empty batch is logged.
      assert false;
    }
  }

  /** Lines 104-115: the verified updates merged into the loaded index. */
  method MergeSources(sources: Sources, updates: seq<Update>, env: Env) returns (merged: map<string, IndexFeature>)
    ensures merged == MergedVerified(sources.index.features, updates, env.validate)
  {
    var index := new MasterIndex.Loaded(sources.index.id, sources.index.features, sources.index.length);
    index.MergeUpdates(updates, env.validate);
    merged := index.features;
  }

  /** Lines 176-220: both collections' layers finished, the base layers first. */
  method FinishBoth(baseLayers: seq<Layer>, masterLayers: seq<Layer>, parcels: seq<IndexFeature>, env: Env)
    returns (baseOuts: seq<LayerOut>, masterOuts: seq<LayerOut>)
    requires NoDuplicates(baseLayers) && NoDuplicates(masterLayers)
    requires forall a, b :: 0 <= a < |baseLayers| && 0 <= b < |masterLayers| ==> baseLayers[a] != masterLayers[b]
    requires |baseLayers| == |env.baseDecls| && |masterLayers| == |env.masterDecls|
    requires forall j :: 0 <= j < |baseLayers| ==> baseLayers[j].Decl() == env.baseDecls[j]
    requires forall j :: 0 <= j < |masterLayers| ==> masterLayers[j].Decl() == env.masterDecls[j]
    requires Fed(baseLayers, parcels, true) && Fed(masterLayers, parcels, false)
    requires Unbinned(baseLayers) && Unbinned(masterLayers)
    modifies set l | l in baseLayers, set l | l in masterLayers
    ensures LayersRebuilt(baseOuts, env.baseDecls, parcels, true, env)
    ensures LayersRebuilt(masterOuts, env.masterDecls, parcels, false, env)
  {
    baseOuts := FinishLayers(baseLayers, env.baseDecls, parcels, true, env);
    masterOuts := FinishLayers(masterLayers, env.masterDecls, parcels, false, env);
  }

  /** Lines 118-220 over the parcels in iteration order: the new index, both
      collections and their layers. Only fresh objects are changed. */
  method RebuildParcels(parcels: seq<IndexFeature>, env: Env)
    returns (indexOut: IndexData, baseOut: CollectionOut, masterOut: CollectionOut)
    ensures indexOut == IndexData("master-index", IndexOf(parcels, env.toIndex), |parcels|)
    ensures baseOut.id == "base-source" && baseOut.features == Projected(parcels, env.toBase)
    ensures LayersRebuilt(baseOut.layers, env.baseDecls, parcels, true, env)
    ensures masterOut.id == "master-source" && masterOut.features == Projected(parcels, env.toMaster)
    ensures LayersRebuilt(masterOut.layers, env.masterDecls, parcels, false, env)
  {
    var baseLayers := NewLayers(env.baseDecls);
    var masterLayers := NewLayers(env.masterDecls);
    assert parcels[..0] == [];
    var newIndex, baseFeatures, masterFeatures := Regenerate(parcels, env, baseLayers, masterLayers);
    var baseOuts, masterOuts := FinishBoth(baseLayers, masterLayers, parcels, env);
    indexOut := IndexData(newIndex.id, newIndex.features, newIndex.length);
    baseOut := CollectionOut("base-source", baseFeatures, baseOuts);
    masterOut := CollectionOut("master-source", masterFeatures, masterOuts);
  }

  /** Lines 118-220: rebuild the index, both collections and their layers from the
      merged features, visited in one enumeration order of their keys. */
  method RebuildFrom(merged: map<string, IndexFeature>, env: Env)
    returns (order: seq<string>, indexOut: IndexData, baseOut: CollectionOut, masterOut: CollectionOut)
    ensures RebuiltFrom(merged, env, order, indexOut, baseOut, masterOut)
  {
    order := Entries(merged);
    indexOut, baseOut, masterOut := RebuildParcels(Ordered(merged, order), env);
  }

  /** After all five writes nothing required is missing. */
  lemma OutputsLeaveNothingMissing(files: map<Path, string>, index: IndexData, base: CollectionOut,
                                   master: CollectionOut, env: Env)
    requires Stored(files, OutputWrites(index, base, master, env))
    ensures MissingOf(files, RequiredFiles) == []
  {
    var w := OutputWrites(index, base, master, env);
    assert w[0].path in files && w[2].path in files && w[4].path in files;
    NothingMissingWhenPresent(files);
  }

  /** The history file as it was before the loads is what the append extends, since
      loading does not touch it. */
  lemma AppendedAcrossLoads(files: map<Path, string>, loaded: map<Path, string>, initial: map<Path, string>,
                            h: HistoryOut, env: Env)
    requires Appended(files, loaded, h, env)
    requires (HistoryPath in loaded <==> HistoryPath in initial) && HistoryText(loaded) == HistoryText(initial)
    ensures Appended(files, initial, h, env)
  {
  }

  /** Lines 54-220: the history and every output, before anything is written. */
  method Prepare(sources: Sources, updates: seq<Update>, env: Env)
    returns (history: History, order: seq<string>, indexOut: IndexData, baseOut: CollectionOut, masterOut: CollectionOut)
    requires updates != []
    ensures fresh(history)
    ensures history.Snapshot() == ChangeHistory(sources, updates, env)
    ensures Rebuilt(sources, updates, env, order, indexOut, baseOut, masterOut)
  {
    history := BuildHistory(sources, updates, env);
    var merged := MergeSources(sources, updates, env);
    order, indexOut, baseOut, masterOut := RebuildFrom(merged, env);
  }

  /** Lines 54-273 once the sources are loaded. */
  method Publish(store: Store, env: Env, updates: seq<Update>, sources: Sources) returns (result: RunResult)
    requires updates != []
    modifies store
    ensures (result.Published? || result.Failed?) && result.loaded == sources
    ensures result.Published? ==>
      && Rebuilt(sources, updates, env, result.order, result.index, result.base, result.master)
      && result.history == ChangeHistory(sources, updates, env)
      && Stored(store.files, OutputWrites(result.index, result.base, result.master, env))
      && MissingOf(store.files, RequiredFiles) == []
    ensures result.Failed? ==>
      && !env.accepts(result.refused)
      && result.missing == MissingOf(store.files, RequiredFiles)
      && result.history == ChangeHistory(sources, updates, env)
                             .(failure := [FailureEntry(env.errorMessage(result.refused), result.missing)])
    ensures Appended(store.files, old(store.files), result.history, env)
  {
    var history, order, indexOut, baseOut, masterOut := Prepare(sources, updates, env);
    var writes := OutputWrites(indexOut, baseOut, masterOut, env);
    OutputPathsDistinct(indexOut, baseOut, masterOut, env);
    var refused, missing := WriteOutputs(store, history, env, writes);
    if refused.Some? {
      result := Failed(sources, refused.value, missing, history.Snapshot());
    } else {
      OutputsLeaveNothingMissing(store.files, indexOut, baseOut, masterOut, env);
      result := Published(sources, order, indexOut, baseOut, masterOut, history.Snapshot());
    }
  }

  /** `updateMap(updates)`. */
  method UpdateMap(store: Store, env: Env, updates: seq<Update>) returns (result: RunResult)
    modifies store
    ensures result.Skipped? <==> updates == []
    ensures result.Skipped? ==> store.files == old(store.files)
    ensures result.LoadFailed? ==> Loads(Err(result.error), store.files) == LoadAll(old(store.files), env)
    ensures (result.Published? || result.Failed?) ==> LoadAll(old(store.files), env).result == Ok(result.loaded)
    ensures result.Published? ==>
      && Rebuilt(result.loaded, updates, env, result.order, result.index, result.base, result.master)
      && result.history == ChangeHistory(result.loaded, updates, env)
      && Stored(store.files, OutputWrites(result.index, result.base, result.master, env))
      && MissingOf(store.files, RequiredFiles) == []
    ensures result.Failed? ==>
      && !env.accepts(result.refused)
      && result.missing == MissingOf(store.files, RequiredFiles)
      && result.history == ChangeHistory(result.loaded, updates, env)
                             .(failure := [FailureEntry(env.errorMessage(result.refused), result.missing)])
    ensures (result.Published? || result.Failed?) ==> Appended(store.files, old(store.files), result.history, env)
  {
    if updates == [] {
      return Skipped;
    }
    ghost var initial := store.files;
    var loaded := LoadSources(store, env);
    if loaded.Err? {
      return LoadFailed(loaded.error);
    }
    LoadAllKeepsOtherFiles(initial, env, HistoryPath);
    ghost var afterLoads := store.files;
    result := Publish(store, env, updates, loaded.value);
    AppendedAcrossLoads(store.files, afterLoads, initial, result.history, env);
  }
}
