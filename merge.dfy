/** `mergeParcelProperties`: combining a parcel's stored properties with an update
    record, key by key, where only truthy new values win. */
module Merge {
  import opened JsValues

  /** `newVal ? newVal : (oldVal ? oldVal : null)` */
  function Pick(newVal: Value, oldVal: Value): Value
  {
    if Truthy(newVal) then newVal else if Truthy(oldVal) then oldVal else Null
  }

  /** The merged record, over the union of both key sets. */
  function MergedProps(oldProps: Props, newProps: Props): (r: Props)
    ensures r.Keys == oldProps.Keys + newProps.Keys
    ensures forall k :: k in newProps && Truthy(newProps[k]) ==> r[k] == newProps[k]
    ensures forall k :: k in oldProps && Truthy(oldProps[k]) && !Truthy(Get(newProps, k)) ==> r[k] == oldProps[k]
    ensures forall k :: k in r && !Truthy(Get(newProps, k)) && !Truthy(Get(oldProps, k)) ==> r[k] == Null
  {
    map k | k in oldProps.Keys + newProps.Keys :: Pick(Get(newProps, k), Get(oldProps, k))
  }

  /** The loop of map/update.js lines 352-366: visits each key of the union once and
      fills a fresh record. */
  method MergeParcelProperties(oldProps: Props, newProps: Props) returns (merged: Props)
    ensures merged == MergedProps(oldProps, newProps)
  {
    merged := map[];
    var keys := oldProps.Keys + newProps.Keys;
    var todo := keys;
    while todo != {}
      invariant todo <= keys
      invariant merged.Keys == keys - todo
      invariant forall k :: k in merged ==> merged[k] == Pick(Get(newProps, k), Get(oldProps, k))
      decreases |todo|
    {
      var key :| key in todo;
      var newVal := Get(newProps, key);
      var oldVal := Get(oldProps, key);
      assert key !in merged;
      merged := merged[key := Pick(newVal, oldVal)];
      todo := todo - {key};
      assert merged.Keys == keys - todo;
    }
    MergedPropsUnique(merged, oldProps, newProps);
  }

  /** A record over the union of keys that picks per key is the merged record. */
  lemma MergedPropsUnique(r: Props, oldProps: Props, newProps: Props)
    requires r.Keys == oldProps.Keys + newProps.Keys
    requires forall k :: k in r ==> r[k] == Pick(Get(newProps, k), Get(oldProps, k))
    ensures r == MergedProps(oldProps, newProps)
  {
  }

  /** Every merged value is truthy or `null`: the merge never stores "", 0, false
      or `undefined`. */
  lemma MergedValuesTruthyOrNull(oldProps: Props, newProps: Props)
    ensures forall k :: k in MergedProps(oldProps, newProps) ==>
      Truthy(MergedProps(oldProps, newProps)[k]) || MergedProps(oldProps, newProps)[k] == Null
  {
  }

  /** An update cannot clear a field: whatever falsy value it carries ("", 0, false,
      null), a truthy stored value survives. */
  lemma {:induction false} UpdateCannotClear(oldProps: Props, key: string, falsy: Value)
    requires key in oldProps && Truthy(oldProps[key]) && !Truthy(falsy)
    ensures MergedProps(oldProps, map[key := falsy])[key] == oldProps[key]
  {
  }

  /** Applying the same update twice gives the same record as applying it once. */
  lemma {:induction false} MergeIdempotent(oldProps: Props, newProps: Props)
    ensures MergedProps(MergedProps(oldProps, newProps), newProps) == MergedProps(oldProps, newProps)
  {
    var once := MergedProps(oldProps, newProps);
    var twice := MergedProps(once, newProps);
    assert twice.Keys == once.Keys;
    forall k | k in once ensures twice[k] == once[k] {
      if !Truthy(Get(newProps, k)) && !Truthy(once[k]) {
        assert once[k] == Null;
      }
    }
  }

  /** Scenario of a verified update: a stored owner "Doe" updated to "Smith". */
  lemma OwnerScenario(oldProps: Props)
    requires oldProps == map["parcelNum" := Str("123"), "owner" := Str("Doe")]
    ensures MergedProps(oldProps, map["parcelNum" := Str("123"), "owner" := Str("Smith")])
            == map["parcelNum" := Str("123"), "owner" := Str("Smith")]
  {
    var update := map["parcelNum" := Str("123"), "owner" := Str("Smith")];
    var r := MergedProps(oldProps, update);
    assert r.Keys == update.Keys;
    assert r["owner"] == Str("Smith");
    assert r["parcelNum"] == Str("123");
  }
}
