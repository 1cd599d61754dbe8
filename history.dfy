/** The history entry of one run: which updates were verified or rejected, which
    schema changes were seen, and the failure report. The schema validator is a
    parameter; its answer for one update is a `Verdict`. */
module HistoryLog {
  import opened JsValues
  import opened Records
  import opened Seqs
  import opened Diff

  /** An update object: `parcelNum` plus the properties to merge. */
  type Update = Props

  /** `History.validator(parcel)` together with `History.validator.errors`. */
  datatype Verdict = Pass | Fail(errors: string)

  /** What a log item carries in `item`. */
  datatype Payload =
    | UpdateItem(update: Update)
    | NameList(names: seq<string>)
    | KeyList(keys: seq<string>)
    | FailureReport(message: string, missingFiles: seq<Missing>)

  /** `new HistoryEntry({ name, type, action, item, details })` */
  datatype HistoryEntry = HistoryEntry(name: string, kind: string, action: string, item: Payload, details: Option<string>)

  const NotInIndexDetail := "Likely: Parcel Num not in Master Idx"

  /** `features[parcel.parcelNum]` looks the parcel up under `String(parcel.parcelNum)`. */
  function ParcelKey(u: Update): string
  {
    ToString(Get(u, "parcelNum"))
  }

  /** The test of map/update.js line 61. */
  predicate Accepted(u: Update, indexKeys: set<string>, validate: Update -> Verdict)
  {
    validate(u).Pass? && ParcelKey(u) in indexKeys
  }

  function VerifiedEntry(u: Update): HistoryEntry
  {
    HistoryEntry("Parcel: " + ToString(Get(u, "parcelNum")), "Property", "verified", UpdateItem(u), None)
  }

  /** The rejection carries the validator's errors, or the not-in-index note when
      the validator had none. */
  function RejectedEntry(u: Update, verdict: Verdict): HistoryEntry
  {
    var num := Get(u, "parcelNum");
    HistoryEntry("Parcel: " + (if Truthy(num) then ToString(num) else "unknown"), "Property", "rejected",
            UpdateItem(u), Some(if verdict.Fail? then verdict.errors else NotInIndexDetail))
  }

  /** The accepted updates, in batch order. */
  function AcceptedOf(us: seq<Update>, indexKeys: set<string>, validate: Update -> Verdict): (r: seq<Update>)
    ensures forall i :: 0 <= i < |r| ==> Accepted(r[i], indexKeys, validate)
    ensures IsSubsequence(r, us)
  {
    if us == [] then []
    else
      var init, u := us[..|us| - 1], us[|us| - 1];
      assert us == init + [u];
      var a := AcceptedOf(init, indexKeys, validate);
      if Accepted(u, indexKeys, validate) then
        SubsequenceExtend(a, init, u);
        a + [u]
      else
        SubsequenceAppend(a, init, u);
        a
  }

  /** The rejected updates, in batch order. */
  function RejectedOf(us: seq<Update>, indexKeys: set<string>, validate: Update -> Verdict): (r: seq<Update>)
    ensures forall i :: 0 <= i < |r| ==> !Accepted(r[i], indexKeys, validate)
    ensures IsSubsequence(r, us)
  {
    if us == [] then []
    else
      var init, u := us[..|us| - 1], us[|us| - 1];
      assert us == init + [u];
      var a := RejectedOf(init, indexKeys, validate);
      if !Accepted(u, indexKeys, validate) then
        SubsequenceExtend(a, init, u);
        a + [u]
      else
        SubsequenceAppend(a, init, u);
        a
  }

  /** The `verifiedProps` items a batch produces. */
  function VerifiedLog(us: seq<Update>, indexKeys: set<string>, validate: Update -> Verdict): seq<HistoryEntry>
  {
    var a := AcceptedOf(us, indexKeys, validate);
    seq(|a|, i requires 0 <= i < |a| => VerifiedEntry(a[i]))
  }

  /** The `rejectedProps` items a batch produces. */
  function RejectedLog(us: seq<Update>, indexKeys: set<string>, validate: Update -> Verdict): seq<HistoryEntry>
  {
    var r := RejectedOf(us, indexKeys, validate);
    seq(|r|, i requires 0 <= i < |r| => RejectedEntry(r[i], validate(r[i])))
  }

  /** One more update adds at most one item to the end of one of the two logs. */
  lemma LogsSnoc(us: seq<Update>, u: Update, indexKeys: set<string>, validate: Update -> Verdict)
    ensures VerifiedLog(us + [u], indexKeys, validate)
         == VerifiedLog(us, indexKeys, validate) + (if Accepted(u, indexKeys, validate) then [VerifiedEntry(u)] else [])
    ensures RejectedLog(us + [u], indexKeys, validate)
         == RejectedLog(us, indexKeys, validate) + (if Accepted(u, indexKeys, validate) then [] else [RejectedEntry(u, validate(u))])
  {
    assert (us + [u])[..|us|] == us;
  }

  /** Every update of the batch is classified exactly once: the accepted and the
      rejected updates together are the batch (as a multiset), each list keeps batch
      order, and an update is verified exactly when it is accepted. */
  lemma {:induction false} ClassificationPartition(us: seq<Update>, indexKeys: set<string>, validate: Update -> Verdict)
    ensures |AcceptedOf(us, indexKeys, validate)| + |RejectedOf(us, indexKeys, validate)| == |us|
    ensures multiset(AcceptedOf(us, indexKeys, validate)) + multiset(RejectedOf(us, indexKeys, validate)) == multiset(us)
    ensures forall u :: u in us ==>
      (u in AcceptedOf(us, indexKeys, validate) <==> Accepted(u, indexKeys, validate)) &&
      (u in RejectedOf(us, indexKeys, validate) <==> !Accepted(u, indexKeys, validate))
  {
    if us != [] {
      var init, u := us[..|us| - 1], us[|us| - 1];
      assert us == init + [u];
      ClassificationPartition(init, indexKeys, validate);
      assert multiset(us) == multiset(init) + multiset{u};
      var a0, r0 := AcceptedOf(init, indexKeys, validate), RejectedOf(init, indexKeys, validate);
      var a, r := AcceptedOf(us, indexKeys, validate), RejectedOf(us, indexKeys, validate);
      if Accepted(u, indexKeys, validate) {
        assert a == a0 + [u] && r == r0;
      } else {
        assert a == a0 && r == r0 + [u];
      }
      assert multiset(a) + multiset(r) == multiset(us);
      forall x | x in us
        ensures (x in a <==> Accepted(x, indexKeys, validate)) && (x in r <==> !Accepted(x, indexKeys, validate))
      {
        assert multiset(a)[x] + multiset(r)[x] > 0;
      }
    }
  }

  /** The early return of map/update.js lines 97-101 cannot happen for a non-empty
      batch: every update is logged as verified or rejected. */
  lemma NonEmptyBatchIsLogged(us: seq<Update>, indexKeys: set<string>, validate: Update -> Verdict)
    requires |us| > 0
    ensures |VerifiedLog(us, indexKeys, validate)| + |RejectedLog(us, indexKeys, validate)| == |us|
    ensures VerifiedLog(us, indexKeys, validate) != [] || RejectedLog(us, indexKeys, validate) != []
  {
    ClassificationPartition(us, indexKeys, validate);
  }

  /** Scenario: an update for a parcel missing from the index is rejected, with the
      not-in-index note, even when it validates. */
  lemma UnknownParcelScenario(validate: Update -> Verdict)
    requires validate(map["parcelNum" := Str("999"), "owner" := Str("X")]) == Pass
    ensures var us := [map["parcelNum" := Str("999"), "owner" := Str("X")]];
      VerifiedLog(us, {"123"}, validate) == [] &&
      RejectedLog(us, {"123"}, validate) ==
        [HistoryEntry("Parcel: 999", "Property", "rejected", UpdateItem(us[0]), Some(NotInIndexDetail))]
  {
    var us := [map["parcelNum" := Str("999"), "owner" := Str("X")]];
    assert us[..0] == [];
    assert ParcelKey(us[0]) == "999";
    assert !Accepted(us[0], {"123"}, validate);
    assert RejectedOf(us, {"123"}, validate) == [us[0]];
    assert "Parcel: " + "999" == "Parcel: 999";
  }

  /** `ls.map(layer => layer.name)`: change logs name layers by `name`, while the diff
      compares `key`. */
  function Names(ls: seq<LayerDecl>): (r: seq<string>)
    ensures |r| == |ls| && forall i :: 0 <= i < |ls| ==> r[i] == ls[i].name
  {
    if ls == [] then [] else Names(ls[..|ls| - 1]) + [ls[|ls| - 1].name]
  }

  /** `list.length ? item : null`, later `.filter(Boolean)`. */
  function IfAny<T>(list: seq<T>, item: HistoryEntry): seq<HistoryEntry>
  {
    if |list| > 0 then [item] else []
  }

  /** The `layerChanges` items of map/update.js lines 78-83. */
  function LayerChangeLog(base: Changes<LayerDecl>, master: Changes<LayerDecl>): (r: seq<HistoryEntry>)
    ensures r == [] <==> base == Changes([], []) && master == Changes([], [])
    ensures |r| <= 4
  {
    IfAny(base.removed, HistoryEntry("All Base Layers", "Base Layers", "removed", NameList(Names(base.removed)), None))
    + IfAny(base.added, HistoryEntry("All Base Layers", "Base Layers", "added", NameList(Names(base.added)), None))
    + IfAny(master.removed, HistoryEntry("All Master Layers", "Master Layers", "removed", NameList(Names(master.removed)), None))
    + IfAny(master.added, HistoryEntry("All Master Layers", "Master Layers", "added", NameList(Names(master.added)), None))
  }

  /** The `featurePropChanges` items of map/update.js lines 89-94. */
  function PropertyChangeLog(base: Changes<string>, master: Changes<string>): (r: seq<HistoryEntry>)
    ensures r == [] <==> base == Changes([], []) && master == Changes([], [])
    ensures |r| <= 4
  {
    IfAny(base.removed, HistoryEntry("Base Layer Properties", "Base Layer Properties", "removed", KeyList(base.removed), None))
    + IfAny(base.added, HistoryEntry("Base Layer Properties", "Base Layer Properties", "added", KeyList(base.added), None))
    + IfAny(master.removed, HistoryEntry("Master Layer Properties", "Master Layer Properties", "removed", KeyList(master.removed), None))
    + IfAny(master.added, HistoryEntry("Master Layer Properties", "Master Layer Properties", "added", KeyList(master.added), None))
  }

  /** A history as `JSON.stringify` sees it. */
  datatype HistoryOut = HistoryOut(indexId: string, baseId: string, masterId: string,
                                   verifiedProps: seq<HistoryEntry>, rejectedProps: seq<HistoryEntry>,
                                   layerChanges: seq<HistoryEntry>, featurePropChanges: seq<HistoryEntry>,
                                   failure: seq<HistoryEntry>)

  /** The history of one run, built by `new History(...)` and filled by pushes. */
  class History {
    const indexId: string
    const baseId: string
    const masterId: string
    var verifiedProps: seq<HistoryEntry>
    var rejectedProps: seq<HistoryEntry>
    var layerChanges: seq<HistoryEntry>
    var featurePropChanges: seq<HistoryEntry>
    var failure: seq<HistoryEntry>

    constructor (indexId: string, baseId: string, masterId: string)
      ensures this.indexId == indexId && this.baseId == baseId && this.masterId == masterId
      ensures verifiedProps == [] && rejectedProps == [] && layerChanges == []
      ensures featurePropChanges == [] && failure == []
    {
      this.indexId, this.baseId, this.masterId := indexId, baseId, masterId;
      verifiedProps, rejectedProps, layerChanges, featurePropChanges, failure := [], [], [], [], [];
    }

    function Snapshot(): HistoryOut
      reads this
    {
      HistoryOut(indexId, baseId, masterId, verifiedProps, rejectedProps, layerChanges, featurePropChanges, failure)
    }

    /** The condition of map/update.js lines 97-100. */
    predicate NoChanges()
      reads this
    {
      rejectedProps == [] && verifiedProps == [] && layerChanges == [] && featurePropChanges == []
    }

    /** map/update.js lines 61-70 for one update. */
    method Record(parcel: Update, indexKeys: set<string>, validate: Update -> Verdict)
      modifies this
      ensures verifiedProps == old(verifiedProps) + (if Accepted(parcel, indexKeys, validate) then [VerifiedEntry(parcel)] else [])
      ensures rejectedProps
           == old(rejectedProps) + (if Accepted(parcel, indexKeys, validate) then [] else [RejectedEntry(parcel, validate(parcel))])
      ensures layerChanges == old(layerChanges) && featurePropChanges == old(featurePropChanges)
      ensures failure == old(failure)
    {
      var verdict := validate(parcel);
      if verdict.Pass? && ParcelKey(parcel) in indexKeys {
        verifiedProps := verifiedProps + [VerifiedEntry(parcel)];
      } else {
        rejectedProps := rejectedProps + [RejectedEntry(parcel, verdict)];
      }
    }

    /** map/update.js lines 60-72: each update is pushed onto `verifiedProps` or
        `rejectedProps`, in batch order. */
    method Classify(updates: seq<Update>, indexKeys: set<string>, validate: Update -> Verdict)
      modifies this
      ensures verifiedProps == old(verifiedProps) + VerifiedLog(updates, indexKeys, validate)
      ensures rejectedProps == old(rejectedProps) + RejectedLog(updates, indexKeys, validate)
      ensures layerChanges == old(layerChanges) && featurePropChanges == old(featurePropChanges)
      ensures failure == old(failure)
    {
      var i := 0;
      while i < |updates|
        invariant 0 <= i <= |updates|
        invariant verifiedProps == old(verifiedProps) + VerifiedLog(updates[..i], indexKeys, validate)
        invariant rejectedProps == old(rejectedProps) + RejectedLog(updates[..i], indexKeys, validate)
        invariant layerChanges == old(layerChanges) && featurePropChanges == old(featurePropChanges)
        invariant failure == old(failure)
      {
        var parcel := updates[i];
        assert updates[..i + 1] == updates[..i] + [parcel];
        LogsSnoc(updates[..i], parcel, indexKeys, validate);
        Record(parcel, indexKeys, validate);
        i := i + 1;
      }
      assert updates[..i] == updates;
    }

    /** map/update.js lines 78-83 and 89-94. */
    method LogSchemaChanges(baseLayers: Changes<LayerDecl>, masterLayers: Changes<LayerDecl>,
                            baseProps: Changes<string>, masterProps: Changes<string>)
      modifies this
      ensures layerChanges == old(layerChanges) + LayerChangeLog(baseLayers, masterLayers)
      ensures featurePropChanges == old(featurePropChanges) + PropertyChangeLog(baseProps, masterProps)
      ensures verifiedProps == old(verifiedProps) && rejectedProps == old(rejectedProps)
      ensures failure == old(failure)
    {
      layerChanges := layerChanges + LayerChangeLog(baseLayers, masterLayers);
      featurePropChanges := featurePropChanges + PropertyChangeLog(baseProps, masterProps);
    }

    /** map/update.js lines 262-265: the failure item with the error and the records of
        the files missing from every location. */
    method LogFailure(message: string, missingFiles: seq<Missing>)
      modifies this
      ensures failure == old(failure) + [HistoryEntry("FAIL", "FAILURE IN UPDATE PROCESS", "LOG FAILURE, ENSURE BACKUPS",
                                                 FailureReport(message, missingFiles), None)]
      ensures verifiedProps == old(verifiedProps) && rejectedProps == old(rejectedProps)
      ensures layerChanges == old(layerChanges) && featurePropChanges == old(featurePropChanges)
    {
      failure := failure + [HistoryEntry("FAIL", "FAILURE IN UPDATE PROCESS", "LOG FAILURE, ENSURE BACKUPS",
                                    FailureReport(message, missingFiles), None)];
    }
  }
}
