/** Schema-drift detection: `diffLayers` compares layer keys and
    `diffFeatureProperties` compares the property names of one sample feature per
    collection. Both return `[removed, added]`, each in original order. */
module Diff {
  import opened JsValues
  import opened Records
  import opened Seqs

  /** `[removed, added]` */
  datatype Changes<T> = Changes(removed: seq<T>, added: seq<T>)

  /** `new Set(layers.map(layer => layer.key))` */
  function KeysOf(layers: seq<LayerDecl>): set<string>
  {
    set i | 0 <= i < |layers| :: layers[i].key
  }

  /** `layers.filter(layer => !keys.has(layer.key))` */
  function LayersWithoutKeys(layers: seq<LayerDecl>, keys: set<string>): (r: seq<LayerDecl>)
    ensures forall l :: multiset(r)[l] == if l.key in keys then 0 else multiset(layers)[l]
    ensures IsSubsequence(r, layers)
  {
    if layers == [] then []
    else
      var init, last := layers[..|layers| - 1], layers[|layers| - 1];
      assert layers == init + [last];
      var kept := LayersWithoutKeys(init, keys);
      if last.key in keys then
        SubsequenceAppend(kept, init, last);
        kept
      else
        SubsequenceExtend(kept, init, last);
        kept + [last]
  }

  /** map/update.js lines 276-284. */
  function DiffLayers(oldLayers: seq<LayerDecl>, newLayers: seq<LayerDecl>): (r: Changes<LayerDecl>)
    ensures forall l :: l in r.removed <==> l in oldLayers && l.key !in KeysOf(newLayers)
    ensures forall l :: l in r.added <==> l in newLayers && l.key !in KeysOf(oldLayers)
    ensures forall l :: multiset(r.removed)[l] == if l.key in KeysOf(newLayers) then 0 else multiset(oldLayers)[l]
    ensures forall l :: multiset(r.added)[l] == if l.key in KeysOf(oldLayers) then 0 else multiset(newLayers)[l]
    ensures IsSubsequence(r.removed, oldLayers) && IsSubsequence(r.added, newLayers)
  {
    Changes(LayersWithoutKeys(oldLayers, KeysOf(newLayers)), LayersWithoutKeys(newLayers, KeysOf(oldLayers)))
  }

  /** No layer drift is reported exactly when both declarations use the same keys. */
  lemma NoLayerDriftIff(oldLayers: seq<LayerDecl>, newLayers: seq<LayerDecl>)
    ensures DiffLayers(oldLayers, newLayers) == Changes([], []) <==> KeysOf(oldLayers) == KeysOf(newLayers)
  {
    var d := DiffLayers(oldLayers, newLayers);
    if KeysOf(oldLayers) != KeysOf(newLayers) && d == Changes([], []) {
      forall k | k in KeysOf(oldLayers) ensures k in KeysOf(newLayers) {
        var i :| 0 <= i < |oldLayers| && oldLayers[i].key == k;
        assert oldLayers[i] !in d.removed;
      }
    }
  }

  /** Filtering by no keys keeps every layer, in order. */
  lemma {:induction false} LayersWithoutNoKeys(layers: seq<LayerDecl>)
    ensures LayersWithoutKeys(layers, {}) == layers
  {
    if layers != [] {
      var init := layers[..|layers| - 1];
      LayersWithoutNoKeys(init);
      assert layers == init + [layers[|layers| - 1]];
    }
  }

  /** A collection saved without layers reports every declared layer as added, and
      nothing as removed, when it is compared again. */
  lemma EmptyLayersReportAllAdded(newLayers: seq<LayerDecl>)
    ensures DiffLayers([], newLayers) == Changes([], newLayers)
  {
    LayersWithoutNoKeys(newLayers);
    assert KeysOf([]) == {};
  }

  /** A declaration compared with itself shows no drift. */
  lemma NoDriftAgainstItself(layers: seq<LayerDecl>)
    ensures DiffLayers(layers, layers) == Changes([], [])
  {
    NoLayerDriftIff(layers, layers);
  }

  /** `[...keys].filter(key => !exclude.has(key))` */
  function KeysWithout(keys: seq<string>, exclude: set<string>): (r: seq<string>)
    ensures forall k :: k in r <==> k in keys && k !in exclude
    ensures NoDuplicates(keys) ==> NoDuplicates(r)
    ensures IsSubsequence(r, keys)
  {
    if keys == [] then []
    else
      var init, last := keys[..|keys| - 1], keys[|keys| - 1];
      assert keys == init + [last];
      var kept := KeysWithout(init, exclude);
      if last in exclude then
        SubsequenceAppend(kept, init, last);
        kept
      else
        SubsequenceExtend(kept, init, last);
        assert NoDuplicates(keys) ==> NoDuplicates(init) && last !in init;
        kept + [last]
  }

  /** Nothing is left exactly when every key is excluded. */
  lemma {:induction false} KeysWithoutEmptyIff(keys: seq<string>, exclude: set<string>)
    ensures KeysWithout(keys, exclude) == [] <==> KeySet(keys) <= exclude
  {
    if keys != [] {
      var init := keys[..|keys| - 1];
      KeysWithoutEmptyIff(init, exclude);
      assert keys == init + [keys[|keys| - 1]];
      assert KeySet(keys) == KeySet(init) + {keys[|keys| - 1]};
    }
  }

  /** The set of names in a key list. */
  function KeySet(keys: seq<string>): set<string>
  {
    set k | k in keys
  }

  /** `Object.keys(feature.properties || {})` */
  function PropertyKeys(f: Feature): seq<string>
  {
    match f.propertyKeys
    case None => []
    case Some(keys) => keys
  }

  /** map/update.js lines 286-299: the property names removed from and added to the
      sample feature, each once, in order of first occurrence. */
  function DiffFeatureProperties(oldFeature: Option<Feature>, newFeature: Option<Feature>): (r: Changes<string>)
    ensures oldFeature.None? || newFeature.None? ==> r == Changes([], [])
    ensures oldFeature.Some? && newFeature.Some? ==>
      (forall k :: k in r.removed <==> k in PropertyKeys(oldFeature.value) && k !in PropertyKeys(newFeature.value))
      && (forall k :: k in r.added <==> k in PropertyKeys(newFeature.value) && k !in PropertyKeys(oldFeature.value))
      && IsSubsequence(r.removed, Dedup(PropertyKeys(oldFeature.value)))
      && IsSubsequence(r.added, Dedup(PropertyKeys(newFeature.value)))
    ensures NoDuplicates(r.removed) && NoDuplicates(r.added)
  {
    if oldFeature.None? || newFeature.None? then Changes([], [])
    else
      var oldKeys := Dedup(PropertyKeys(oldFeature.value));
      var newKeys := Dedup(PropertyKeys(newFeature.value));
      Changes(KeysWithout(oldKeys, KeySet(newKeys)), KeysWithout(newKeys, KeySet(oldKeys)))
  }

  /** With both samples present, no property drift is reported exactly when they
      carry the same property names. */
  lemma NoPropertyDriftIff(oldFeature: Feature, newFeature: Feature)
    ensures DiffFeatureProperties(Some(oldFeature), Some(newFeature)) == Changes([], [])
        <==> KeySet(PropertyKeys(oldFeature)) == KeySet(PropertyKeys(newFeature))
  {
    var oldKeys := Dedup(PropertyKeys(oldFeature));
    var newKeys := Dedup(PropertyKeys(newFeature));
    var os, ns := KeySet(oldKeys), KeySet(newKeys);
    assert os == KeySet(PropertyKeys(oldFeature));
    assert ns == KeySet(PropertyKeys(newFeature));
    KeysWithoutEmptyIff(oldKeys, ns);
    KeysWithoutEmptyIff(newKeys, os);
  }
}
