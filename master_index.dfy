/** The master index: parcel features keyed by parcel number, updated in place by
    the merge step (map/update.js lines 106-115) and rebuilt as a new index during
    regeneration (lines 168-171). */
module Index {
  import opened JsValues
  import opened Records
  import opened Merge
  import opened HistoryLog

  /** One pass of the merge loop over `update`: unknown parcels are skipped, a
      known parcel gets its properties merged with the update. */
  function ApplyUpdate(features: map<string, IndexFeature>, update: Update): map<string, IndexFeature>
  {
    var key := ParcelKey(update);
    if key in features then
      features[key := features[key].(properties := MergedProps(features[key].properties, update))]
    else
      features
  }

  /** The merge loop as written: EVERY update of the batch is applied, including
      those the validator rejected. */
  function MergedAsWritten(features: map<string, IndexFeature>, updates: seq<Update>): (r: map<string, IndexFeature>)
    ensures r.Keys == features.Keys
    ensures forall k :: k in features ==> r[k].fields == features[k].fields
    ensures forall k :: k in features && (forall i :: 0 <= i < |updates| ==> ParcelKey(updates[i]) != k) ==> r[k] == features[k]
  {
    if updates == [] then features
    else ApplyUpdate(MergedAsWritten(features, updates[..|updates| - 1]), updates[|updates| - 1])
  }

  /** No update of the batch that names parcel `k` passes the validator. */
  predicate NoPassingUpdateFor(updates: seq<Update>, validate: Update -> Verdict, k: string)
  {
    forall i :: 0 <= i < |updates| && ParcelKey(updates[i]) == k ==> !validate(updates[i]).Pass?
  }

  /** The merge loop as intended: an update is applied only when it is accepted, so
      a rejected update never touches the index. */
  function MergedVerified(features: map<string, IndexFeature>, updates: seq<Update>, validate: Update -> Verdict)
    : (r: map<string, IndexFeature>)
    ensures r.Keys == features.Keys
    ensures forall k :: k in features ==> r[k].fields == features[k].fields
    ensures forall k :: k in features && NoPassingUpdateFor(updates, validate, k) ==> r[k] == features[k]
  {
    if updates == [] then features
    else
      var u := updates[|updates| - 1];
      var before := MergedVerified(features, updates[..|updates| - 1], validate);
      if validate(u).Pass? then ApplyUpdate(before, u) else before
  }

  /** The intended merge applies exactly the verified updates, in batch order. */
  lemma {:induction false} MergedVerifiedAppliesAccepted(features: map<string, IndexFeature>, updates: seq<Update>,
                                                         validate: Update -> Verdict)
    ensures MergedVerified(features, updates, validate)
         == MergedAsWritten(features, AcceptedOf(updates, features.Keys, validate))
  {
    if updates != [] {
      var init, u := updates[..|updates| - 1], updates[|updates| - 1];
      MergedVerifiedAppliesAccepted(features, init, validate);
      var a := AcceptedOf(init, features.Keys, validate);
      if Accepted(u, features.Keys, validate) {
        assert (a + [u])[..|a|] == a;
      } else if validate(u).Pass? {
        assert ParcelKey(u) !in MergedVerified(features, init, validate);
      }
    }
  }

  /** The discrepancy: a batch whose only update the validator rejects still changes
      the parcel it names when the loop is run as written. */
  lemma AsWrittenMergesRejectedUpdate()
    ensures var features := map["123" := IndexFeature(map[], map["owner" := Str("Doe")])];
            var update := map["parcelNum" := Str("123"), "owner" := Str("Smith")];
            var rejectAll := (u: Update) => Fail("schema");
            RejectedOf([update], features.Keys, rejectAll) == [update]
            && MergedAsWritten(features, [update])["123"].properties["owner"] == Str("Smith")
            && MergedVerified(features, [update], rejectAll) == features
  {
    var features := map["123" := IndexFeature(map[], map["owner" := Str("Doe")])];
    var update := map["parcelNum" := Str("123"), "owner" := Str("Smith")];
    var us := [update];
    assert us[..0] == [];
    assert ParcelKey(update) == "123";
  }

  /** Scenario: a verified update sets the owner of parcel 123 to "Smith". */
  lemma VerifiedOwnerScenario(validate: Update -> Verdict, fields: Props)
    requires validate(map["parcelNum" := Str("123"), "owner" := Str("Smith")]) == Pass
    ensures var features := map["123" := IndexFeature(fields, map["parcelNum" := Str("123"), "owner" := Str("Doe")])];
            MergedVerified(features, [map["parcelNum" := Str("123"), "owner" := Str("Smith")]], validate)["123"]
              .properties["owner"] == Str("Smith")
  {
    var update := map["parcelNum" := Str("123"), "owner" := Str("Smith")];
    assert [update][..0] == [];
    assert ParcelKey(update) == "123";
  }

  lemma AsWrittenPrefixStep(features: map<string, IndexFeature>, updates: seq<Update>, j: nat)
    requires j < |updates|
    ensures MergedAsWritten(features, updates[..j + 1]) == ApplyUpdate(MergedAsWritten(features, updates[..j]), updates[j])
  {
    assert updates[..j + 1][..j] == updates[..j];
  }

  lemma VerifiedPrefixStep(features: map<string, IndexFeature>, updates: seq<Update>, validate: Update -> Verdict, j: nat)
    requires j < |updates| && validate(updates[j]).Pass?
    ensures MergedVerified(features, updates[..j + 1], validate)
         == ApplyUpdate(MergedVerified(features, updates[..j], validate), updates[j])
  {
    assert updates[..j + 1][..j] == updates[..j];
  }

  /** Updates after position `n` that name other parcels leave parcel `k` as the
      first `n` updates left it. */
  lemma {:induction false} AsWrittenUntouchedSuffix(features: map<string, IndexFeature>, updates: seq<Update>,
                                                    n: nat, k: string)
    requires n <= |updates| && k in features
    requires forall i :: n <= i < |updates| ==> ParcelKey(updates[i]) != k
    ensures MergedAsWritten(features, updates)[k] == MergedAsWritten(features, updates[..n])[k]
  {
    if |updates| > n {
      var init := updates[..|updates| - 1];
      assert init[..n] == updates[..n];
      AsWrittenUntouchedSuffix(features, init, n, k);
    } else {
      assert updates[..n] == updates;
    }
  }

  /** The last update naming an indexed parcel is merged onto what the earlier updates
      left, so each of its truthy values is what the parcel ends up holding. */
  lemma AsWrittenLastUpdateWins(features: map<string, IndexFeature>, updates: seq<Update>, j: nat)
    requires j < |updates| && ParcelKey(updates[j]) in features
    requires forall i :: j < i < |updates| ==> ParcelKey(updates[i]) != ParcelKey(updates[j])
    ensures var k := ParcelKey(updates[j]);
            var r := MergedAsWritten(features, updates);
            r[k].properties == MergedProps(MergedAsWritten(features, updates[..j])[k].properties, updates[j])
            && forall p :: p in updates[j] && Truthy(updates[j][p]) ==> r[k].properties[p] == updates[j][p]
  {
    var k := ParcelKey(updates[j]);
    AsWrittenUntouchedSuffix(features, updates, j + 1, k);
    AsWrittenPrefixStep(features, updates, j);
  }

  /** A parcel named by exactly one update of the batch ends up with its stored
      properties merged with that update. */
  lemma AsWrittenSingleUpdate(features: map<string, IndexFeature>, updates: seq<Update>, j: nat)
    requires j < |updates| && ParcelKey(updates[j]) in features
    requires forall i :: 0 <= i < |updates| && i != j ==> ParcelKey(updates[i]) != ParcelKey(updates[j])
    ensures var k := ParcelKey(updates[j]);
            MergedAsWritten(features, updates)[k].properties == MergedProps(features[k].properties, updates[j])
  {
    var k, pre := ParcelKey(updates[j]), updates[..j];
    AsWrittenLastUpdateWins(features, updates, j);
    forall i | 0 <= i < |pre| ensures ParcelKey(pre[i]) != k {
      assert pre[i] == updates[i];
    }
    AsWrittenUntouchedSuffix(features, pre, 0, k);
    assert pre[..0] == [];
  }

  lemma VerifiedStepElsewhere(features: map<string, IndexFeature>, updates: seq<Update>,
                               validate: Update -> Verdict, k: string)
    requires updates != [] && k in features
    requires ParcelKey(updates[|updates| - 1]) == k ==> !validate(updates[|updates| - 1]).Pass?
    ensures MergedVerified(features, updates, validate)[k]
         == MergedVerified(features, updates[..|updates| - 1], validate)[k]
  {
  }

  /** Updates after position `n` that name other parcels, or that the validator
      rejects, leave parcel `k` as the first `n` updates left it. */
  lemma {:induction false} VerifiedUntouchedSuffix(features: map<string, IndexFeature>, updates: seq<Update>,
                                                   validate: Update -> Verdict, n: nat, k: string)
    requires n <= |updates| && k in features
    requires forall i :: n <= i < |updates| && ParcelKey(updates[i]) == k ==> !validate(updates[i]).Pass?
    ensures MergedVerified(features, updates, validate)[k] == MergedVerified(features, updates[..n], validate)[k]
  {
    if |updates| > n {
      var init := updates[..|updates| - 1];
      assert init[..n] == updates[..n];
      VerifiedUntouchedSuffix(features, init, validate, n, k);
      VerifiedStepElsewhere(features, updates, validate, k);
    } else {
      assert updates[..n] == updates;
    }
  }

  /** The last passing update naming an indexed parcel is merged onto what the
      earlier passing updates left, so each of its truthy values is what the parcel
      ends up holding. */
  lemma VerifiedLastUpdateWins(features: map<string, IndexFeature>, updates: seq<Update>,
                               validate: Update -> Verdict, j: nat)
    requires j < |updates| && ParcelKey(updates[j]) in features && validate(updates[j]).Pass?
    requires forall i :: j < i < |updates| && ParcelKey(updates[i]) == ParcelKey(updates[j]) ==> !validate(updates[i]).Pass?
    ensures var k := ParcelKey(updates[j]);
            var r := MergedVerified(features, updates, validate);
            r[k].properties == MergedProps(MergedVerified(features, updates[..j], validate)[k].properties, updates[j])
            && forall p :: p in updates[j] && Truthy(updates[j][p]) ==> r[k].properties[p] == updates[j][p]
  {
    var k := ParcelKey(updates[j]);
    VerifiedUntouchedSuffix(features, updates, validate, j + 1, k);
    VerifiedPrefixStep(features, updates, validate, j);
  }

  /** A parcel named by exactly one passing update ends up with its stored properties
      merged with that update, whatever the rejected updates for it hold. */
  lemma VerifiedSingleUpdate(features: map<string, IndexFeature>, updates: seq<Update>,
                             validate: Update -> Verdict, j: nat)
    requires j < |updates| && ParcelKey(updates[j]) in features && validate(updates[j]).Pass?
    requires forall i :: 0 <= i < |updates| && i != j && ParcelKey(updates[i]) == ParcelKey(updates[j])
               ==> !validate(updates[i]).Pass?
    ensures var k := ParcelKey(updates[j]);
            MergedVerified(features, updates, validate)[k].properties == MergedProps(features[k].properties, updates[j])
  {
    var k, pre := ParcelKey(updates[j]), updates[..j];
    VerifiedLastUpdateWins(features, updates, validate, j);
    forall i | 0 <= i < |pre| && ParcelKey(pre[i]) == k ensures !validate(pre[i]).Pass? {
      assert pre[i] == updates[i];
    }
    VerifiedUntouchedSuffix(features, pre, validate, 0, k);
    assert pre[..0] == [];
  }

  class MasterIndex {
    const id: string
    var features: map<string, IndexFeature>
    var length: int

    /** `new MasterIndex(id)`: an empty index. */
    constructor (id: string)
      ensures this.id == id && features == map[] && length == 0
    {
      this.id := id;
      features := map[];
      length := 0;
    }

    /** An index as loaded from `master-index.json`. */
    constructor Loaded(id: string, features: map<string, IndexFeature>, length: int)
      ensures this.id == id && this.features == features && this.length == length
    {
      this.id := id;
      this.features := features;
      this.length := length;
    }

    /** map/update.js lines 106-115, as written. */
    method MergeUpdatesAsWritten(updates: seq<Update>)
      modifies this
      ensures features == MergedAsWritten(old(features), updates)
      ensures length == old(length)
    {
      var i := 0;
      while i < |updates|
        invariant 0 <= i <= |updates|
        invariant features == MergedAsWritten(old(features), updates[..i])
        invariant length == old(length)
      {
        var update := updates[i];
        assert updates[..i + 1][..i] == updates[..i];
        var key := ParcelKey(update);
        if key in features {
          var merged := MergeParcelProperties(features[key].properties, update);
          features := features[key := features[key].(properties := merged)];
        }
        i := i + 1;
      }
      assert updates[..i] == updates;
    }

    /** map/update.js lines 106-115 with the validator's rejections skipped as well as
        unknown parcels. */
    method MergeUpdates(updates: seq<Update>, validate: Update -> Verdict)
      modifies this
      ensures features == MergedVerified(old(features), updates, validate)
      ensures length == old(length)
    {
      var i := 0;
      while i < |updates|
        invariant 0 <= i <= |updates|
        invariant features == MergedVerified(old(features), updates[..i], validate)
        invariant length == old(length)
      {
        var update := updates[i];
        assert updates[..i + 1][..i] == updates[..i];
        var key := ParcelKey(update);
        if validate(update).Pass? && key in features {
          var merged := MergeParcelProperties(features[key].properties, update);
          features := features[key := features[key].(properties := merged)];
        }
        i := i + 1;
      }
      assert updates[..i] == updates;
    }

    /** map/update.js lines 169-171: store the new feature under the parcel's own
        `parcelNum` field and count it. */
    method Add(parcel: IndexFeature, indexFeature: IndexFeature)
      modifies this
      ensures features == old(features)[ToString(Get(parcel.fields, "parcelNum")) := indexFeature]
      ensures length == old(length) + 1
    {
      features := features[ToString(Get(parcel.fields, "parcelNum")) := indexFeature];
      length := length + 1;
    }
  }
}
