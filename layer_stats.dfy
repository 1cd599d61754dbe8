/** Per-layer statistics (map/update.js lines 118-220): category layers tally each
    valid value, range layers count each valid value, and after all parcels a range
    layer's counts are expanded into one ascending list for the bin generator. */
module LayerStats {
  import opened JsValues
  import opened Records
  import opened Seqs

  /** What a layer has gathered: `binValues` as a category layer's insertion-ordered
      set (`seen`) or a range layer's value-to-count map (`tally`), and `binCount`,
      whose keys are strings because it is a plain object. */
  datatype Stats = Stats(seen: seq<Value>, tally: map<Value, nat>, binCount: map<string, nat>)

  const EmptyStats := Stats([], map[], map[])

  /** The two structural layers the base loop only counts (line 129). */
  predicate Structural(key: string)
  {
    key == "parcels" || key == "outline"
  }

  /** One parcel's contribution to one layer: lines 125-144 when `exemptStructural`
      (base collection), lines 152-165 otherwise (master collection). */
  function Step(st: Stats, decl: LayerDecl, value: Value, exemptStructural: bool): Stats
  {
    if exemptStructural && Structural(decl.key) then
      st.(binCount := st.binCount[decl.key := Count(st.binCount, decl.key) + 1])
    else if !IsValid(value) then st
    else
      match decl.dataType
      case Category =>
        st.(seen := if value in st.seen then st.seen else st.seen + [value],
            binCount := st.binCount[ToString(value) := Count(st.binCount, ToString(value)) + 1])
      case Range => st.(tally := st.tally[value := Count(st.tally, value) + 1])
      case OtherType(_) => st
  }

  /** The statistics after the values of all parcels, in iteration order. */
  function Accumulate(st: Stats, decl: LayerDecl, values: seq<Value>, exemptStructural: bool): Stats
  {
    if values == [] then st
    else Step(Accumulate(st, decl, values[..|values| - 1], exemptStructural), decl, values[|values| - 1], exemptStructural)
  }

  lemma AccumulateSnoc(st: Stats, decl: LayerDecl, values: seq<Value>, v: Value, exemptStructural: bool)
    ensures Accumulate(st, decl, values + [v], exemptStructural)
         == Step(Accumulate(st, decl, values, exemptStructural), decl, v, exemptStructural)
  {
    assert (values + [v])[..|values|] == values;
  }

  /** `parcel[key]` for every parcel: the value a layer reads is the feature's own
      field, not an entry of its `properties`. */
  function Column(parcels: seq<IndexFeature>, key: string): seq<Value>
  {
    seq(|parcels|, i requires 0 <= i < |parcels| => Get(parcels[i].fields, key))
  }

  lemma ColumnSnoc(parcels: seq<IndexFeature>, key: string, i: nat)
    requires i < |parcels|
    ensures Column(parcels[..i + 1], key) == Column(parcels[..i], key) + [Get(parcels[i].fields, key)]
  {
  }

  /** One more parcel's value on a layer whose statistics cover the first `i`
      parcels. */
  lemma RebuildStep(decl: LayerDecl, parcels: seq<IndexFeature>, i: nat, exemptStructural: bool)
    requires i < |parcels|
    ensures Accumulate(EmptyStats, decl, Column(parcels[..i + 1], decl.key), exemptStructural)
         == Step(Accumulate(EmptyStats, decl, Column(parcels[..i], decl.key), exemptStructural),
                 decl, Get(parcels[i].fields, decl.key), exemptStructural)
  {
    ColumnSnoc(parcels, decl.key, i);
    AccumulateSnoc(EmptyStats, decl, Column(parcels[..i], decl.key), Get(parcels[i].fields, decl.key), exemptStructural);
  }

  /** The valid values, in order. */
  function ValidValues(values: seq<Value>): (r: seq<Value>)
    ensures forall i :: 0 <= i < |r| ==> IsValid(r[i])
    ensures forall v :: multiset(r)[v] == if IsValid(v) then multiset(values)[v] else 0
  {
    if values == [] then []
    else
      var init, v := values[..|values| - 1], values[|values| - 1];
      assert values == init + [v];
      ValidValues(init) + (if IsValid(v) then [v] else [])
  }

  lemma ValidValuesSnoc(values: seq<Value>, v: Value)
    ensures ValidValues(values + [v]) == ValidValues(values) + (if IsValid(v) then [v] else [])
  {
    assert (values + [v])[..|values|] == values;
  }

  /** The number of valid values whose string form is `k`. */
  function CountKey(values: seq<Value>, k: string): nat
  {
    if values == [] then 0
    else
      var v := values[|values| - 1];
      CountKey(values[..|values| - 1], k) + (if IsValid(v) && ToString(v) == k then 1 else 0)
  }

  /** A category layer (not exempted) keeps no range tally, and counts each string
      `k` once per valid value whose string form is `k`. */
  lemma {:induction false} CategoryCounts(decl: LayerDecl, values: seq<Value>, exemptStructural: bool)
    requires decl.dataType == Category && !(exemptStructural && Structural(decl.key))
    ensures var st := Accumulate(EmptyStats, decl, values, exemptStructural);
      && (forall k :: Count(st.binCount, k) == CountKey(values, k))
      && st.tally == map[]
  {
    if values != [] {
      CategoryCounts(decl, values[..|values| - 1], exemptStructural);
    }
  }

  /** A category layer (not exempted) ends with the distinct valid values, in order
      of first occurrence. */
  lemma {:induction false} CategorySeen(decl: LayerDecl, values: seq<Value>, exemptStructural: bool)
    requires decl.dataType == Category && !(exemptStructural && Structural(decl.key))
    ensures Accumulate(EmptyStats, decl, values, exemptStructural).seen == Dedup(ValidValues(values))
  {
    if values != [] {
      var init, v := values[..|values| - 1], values[|values| - 1];
      assert values == init + [v];
      CategorySeen(decl, init, exemptStructural);
      AccumulateSnoc(EmptyStats, decl, init, v, exemptStructural);
      StepSeen(Accumulate(EmptyStats, decl, init, exemptStructural), decl, v, exemptStructural);
      ValidValuesSnoc(init, v);
      if IsValid(v) {
        DedupSnoc(ValidValues(init), v);
      } else {
        assert ValidValues(values) == ValidValues(init) + [] == ValidValues(init);
      }
    }
  }

  lemma StepSeen(st: Stats, decl: LayerDecl, v: Value, exemptStructural: bool)
    requires decl.dataType == Category && !(exemptStructural && Structural(decl.key))
    ensures Step(st, decl, v, exemptStructural).seen
         == if IsValid(v) && v !in st.seen then st.seen + [v] else st.seen
  {
  }

  /** A category layer's counts (not exempted) sum to the number of valid values. */
  lemma {:induction false} CategoryTotal(decl: LayerDecl, values: seq<Value>, exemptStructural: bool)
    requires decl.dataType == Category && !(exemptStructural && Structural(decl.key))
    ensures Total(Accumulate(EmptyStats, decl, values, exemptStructural).binCount) == |ValidValues(values)|
  {
    if values != [] {
      var init, v := values[..|values| - 1], values[|values| - 1];
      CategoryTotal(decl, init, exemptStructural);
      StepTotal(Accumulate(EmptyStats, decl, init, exemptStructural), decl, v, exemptStructural);
      assert ValidValues(values) == ValidValues(init) + (if IsValid(v) then [v] else []);
    }
  }

  /** One value adds one to the counts of a category layer, or to the tally of a range
      layer, exactly when it is valid. */
  lemma StepTotal(st: Stats, decl: LayerDecl, v: Value, exemptStructural: bool)
    requires decl.dataType.Category? || decl.dataType.Range?
    requires !(exemptStructural && Structural(decl.key))
    ensures var n := if IsValid(v) then 1 else 0;
      if decl.dataType.Category? then Total(Step(st, decl, v, exemptStructural).binCount) == Total(st.binCount) + n
      else Total(Step(st, decl, v, exemptStructural).tally) == Total(st.tally) + n
  {
    if IsValid(v) {
      if decl.dataType.Category? {
        TotalIncrement(st.binCount, ToString(v));
      } else {
        TotalIncrement(st.tally, v);
      }
    }
  }

  /** A range layer (not exempted) counts each valid value exactly as often as it
      occurs, holds nothing else in its tally, and gathers no category statistics. */
  lemma {:induction false} RangeTally(decl: LayerDecl, values: seq<Value>, exemptStructural: bool)
    requires decl.dataType == Range && !(exemptStructural && Structural(decl.key))
    ensures var st := Accumulate(EmptyStats, decl, values, exemptStructural);
      && (forall v :: Count(st.tally, v) == if IsValid(v) then multiset(values)[v] else 0)
      && (forall v :: v in st.tally ==> IsValid(v) && st.tally[v] > 0)
      && st.seen == [] && st.binCount == map[]
  {
    if values != [] {
      var init, v := values[..|values| - 1], values[|values| - 1];
      RangeTally(decl, init, exemptStructural);
      var before := Accumulate(EmptyStats, decl, init, exemptStructural);
      assert Accumulate(EmptyStats, decl, values, exemptStructural) == Step(before, decl, v, exemptStructural);
      assert values == init + [v];
      assert multiset(values) == multiset(init) + multiset{v};
    }
  }

  /** A range layer's tally (not exempted) sums to the number of valid values. */
  lemma {:induction false} RangeTotal(decl: LayerDecl, values: seq<Value>, exemptStructural: bool)
    requires decl.dataType == Range && !(exemptStructural && Structural(decl.key))
    ensures Total(Accumulate(EmptyStats, decl, values, exemptStructural).tally) == |ValidValues(values)|
  {
    if values != [] {
      var init, v := values[..|values| - 1], values[|values| - 1];
      RangeTotal(decl, init, exemptStructural);
      StepTotal(Accumulate(EmptyStats, decl, init, exemptStructural), decl, v, exemptStructural);
      assert ValidValues(values) == ValidValues(init) + (if IsValid(v) then [v] else []);
    }
  }

  /** A structural layer of the base collection counts every parcel under its own
      key, valid value or not, and gathers nothing else. */
  lemma {:induction false} StructuralStats(decl: LayerDecl, values: seq<Value>)
    requires Structural(decl.key)
    ensures var st := Accumulate(EmptyStats, decl, values, true);
      && Count(st.binCount, decl.key) == |values|
      && st.binCount.Keys <= {decl.key}
      && st.seen == [] && st.tally == map[]
  {
    if values != [] {
      StructuralStats(decl, values[..|values| - 1]);
    }
  }

  /** In the master collection the structural keys get no exemption: a category
      layer keyed "parcels" bins its values like any other. */
  lemma MasterHasNoStructuralExemption(name: string)
    ensures var decl := LayerDecl("parcels", name, Category);
      Accumulate(EmptyStats, decl, [Str("a")], false).binCount == map["a" := 1]
      && Accumulate(EmptyStats, decl, [Str("a")], true).binCount == map["parcels" := 1]
  {
    var decl := LayerDecl("parcels", name, Category);
    assert [Str("a")][..0] == [];
    TrimEmptyIffBlank("a");
    assert !Blank("a") by { assert !IsJsSpace("a"[0]); }
  }

  /** Because `binCount` is a plain object, the number 5 and the string "5" share one
      count while `seen` keeps them apart. */
  lemma NumberAndNumericStringShareCount(name: string)
    ensures var decl := LayerDecl("zone", name, Category);
      var st := Accumulate(EmptyStats, decl, [Num(5), Str("5")], false);
      st.binCount == map["5" := 2] && st.seen == [Num(5), Str("5")]
  {
    var decl := LayerDecl("zone", name, Category);
    var values := [Num(5), Str("5")];
    assert values[..1] == [Num(5)];
    assert [Num(5)][..0] == [];
    TrimEmptyIffBlank("5");
    assert !Blank("5") by { assert !IsJsSpace("5"[0]); }
    assert IsValid(Str("5"));
    assert ToString(Num(5)) == "5" by { assert NatToString(5) == [Digit(5)]; }
    AccumulateSnoc(EmptyStats, decl, [], Num(5), false);
    assert [] + [Num(5)] == [Num(5)];
    var st1 := Accumulate(EmptyStats, decl, [Num(5)], false);
    assert st1 == Step(EmptyStats, decl, Num(5), false);
    assert st1.seen == [Num(5)] && st1.binCount == map["5" := 1];
    assert Str("5") !in st1.seen;
    assert Accumulate(EmptyStats, decl, values, false) == Step(st1, decl, Str("5"), false);
  }

  // ---------------------------------------------------------------------------
  // Range expansion (lines 181-188 and 206-213)

  /** The number the comparator `a - b` reads from a value (`ToNumber`), when
      that number is an integer; `None` for `NaN` and for non-integers. */
  function NumericValue(v: Value): Option<int>
  {
    match v
    case Num(n) => Some(n)
    case Str(s) => NumberOf(s)
    case Null => Some(0)
    case Bool(b) => Some(if b then 1 else 0)
    case Undefined => None
    case NaN => None
  }

  /** The ascending order used for the expanded range values: everything `a - b`
      reads as an integer, numeric strings included, by that value; the values it
      reads as `NaN` (or as a non-integer) after all of those, in no particular
      order among themselves. */
  predicate ValueLe(a: Value, b: Value)
  {
    var x, y := NumericValue(a), NumericValue(b);
    if x.Some? && y.Some? then x.value <= y.value
    else if x.Some? then true
    else if y.Some? then false
    else true
  }

  /** The order is a total preorder: every two values are comparable and the
      comparison is transitive, so a sorted list exists for every input. */
  lemma ValueLeTotalPreorder(a: Value, b: Value, c: Value)
    ensures ValueLe(a, b) || ValueLe(b, a)
    ensures ValueLe(a, b) && ValueLe(b, c) ==> ValueLe(a, c)
  {
  }

  /** A numeric string sorts by its value among the numbers: "10" after 5 and
      "3" before it, the way `10 - 5` and `"3" - 5` compare. */
  lemma NumericStringsSortByValue()
    ensures ValueLe(Num(5), Str("10")) && !ValueLe(Str("10"), Num(5))
    ensures ValueLe(Str(" 3 "), Num(5)) && !ValueLe(Num(5), Str(" 3 "))
  {
    assert Trim("10") == "10";
    assert DigitsValue("10") == 10 by { assert "10"[..1] == "1"; assert "1"[..0] == ""; }
    assert Trim(" 3 ") == "3" by {
      assert TrimStart(" 3 ") == TrimStart(" 3 "[1..]);
      assert " 3 "[1..] == "3 ";
      assert TrimEnd("3 ") == TrimEnd("3 "[..1]);
      assert "3 "[..1] == "3";
    }
    assert DigitsValue("3") == 3 by { assert "3"[..0] == ""; }
  }

  predicate Sorted(s: seq<Value>)
  {
    forall i, j :: 0 <= i < j < |s| ==> ValueLe(s[i], s[j])
  }

  /** `e` lists every value of the tally exactly as often as it is counted, in
      ascending order. */
  ghost predicate IsExpansionOf(e: seq<Value>, tally: map<Value, nat>)
  {
    Sorted(e) && forall v :: multiset(e)[v] == Count(tally, v)
  }

  /** Insertion of one value into a sorted list. */
  function Insert(x: Value, s: seq<Value>): (r: seq<Value>)
    ensures multiset(r) == multiset(s) + multiset{x}
    ensures |r| == |s| + 1
  {
    if s == [] then [x]
    else if ValueLe(x, s[0]) then [x] + s
    else
      assert s == [s[0]] + s[1..];
      [s[0]] + Insert(x, s[1..])
  }

  /** A lower bound of a value and of a list bounds the list with the value inserted. */
  lemma InsertKeepsLowerBound(x: Value, s: seq<Value>, b: Value)
    requires ValueLe(b, x) && forall i :: 0 <= i < |s| ==> ValueLe(b, s[i])
    ensures forall i :: 0 <= i < |Insert(x, s)| ==> ValueLe(b, Insert(x, s)[i])
  {
    var r := Insert(x, s);
    forall i | 0 <= i < |r| ensures ValueLe(b, r[i]) {
      assert r[i] in multiset(r);
      if r[i] != x {
        assert r[i] in multiset(s);
        var j :| 0 <= j < |s| && s[j] == r[i];
      }
    }
  }

  /** Insertion keeps a list sorted. */
  lemma {:induction false} InsertSorted(x: Value, s: seq<Value>)
    requires Sorted(s)
    ensures Sorted(Insert(x, s))
  {
    if s != [] && !ValueLe(x, s[0]) {
      var rest := Insert(x, s[1..]);
      InsertSorted(x, s[1..]);
      assert ValueLe(s[0], x);
      assert forall i :: 0 <= i < |s[1..]| ==> s[1..][i] == s[i + 1];
      InsertKeepsLowerBound(x, s[1..], s[0]);
      var r := Insert(x, s);
      assert r == [s[0]] + rest;
      forall i, j | 0 <= i < j < |r| ensures ValueLe(r[i], r[j]) {
        if i == 0 {
          assert r[j] == rest[j - 1];
        } else {
          assert r[i] == rest[i - 1] && r[j] == rest[j - 1];
        }
      }
    }
  }

  /** `expanded.sort((a, b) => a - b)` */
  method SortValues(s: seq<Value>) returns (r: seq<Value>)
    ensures Sorted(r)
    ensures multiset(r) == multiset(s)
  {
    r := [];
    var i := 0;
    while i < |s|
      invariant 0 <= i <= |s|
      invariant Sorted(r)
      invariant multiset(r) == multiset(s[..i])
    {
      assert s[..i + 1] == s[..i] + [s[i]];
      InsertSorted(s[i], r);
      r := Insert(s[i], r);
      i := i + 1;
    }
    assert s[..i] == s;
  }

  /** Lines 181-188: each tallied value pushed `count` times, then sorted. The
      result holds every counted occurrence once, in ascending order. */
  method ExpandRange(tally: map<Value, nat>) returns (expanded: seq<Value>)
    ensures IsExpansionOf(expanded, tally)
    ensures |expanded| == Total(tally)
  {
    var pushed: seq<Value> := [];
    var rest := tally;
    while rest != map[]
      invariant rest.Keys <= tally.Keys
      invariant forall v :: v in rest ==> rest[v] == tally[v]
      invariant forall v :: multiset(pushed)[v] + Count(rest, v) == Count(tally, v)
      invariant |pushed| + Total(rest) == Total(tally)
      decreases |rest|
    {
      var value :| value in rest;
      var count := rest[value];
      ghost var before := pushed;
      var i := 0;
      while i < count
        invariant 0 <= i <= count
        invariant |pushed| == |before| + i
        invariant forall v :: multiset(pushed)[v] == multiset(before)[v] + (if v == value then i else 0)
      {
        pushed := pushed + [value];
        i := i + 1;
      }
      TotalRemove(rest, value);
      rest := rest - {value};
    }
    expanded := SortValues(pushed);
  }

  /** Two ascending expansions of the same tally of numbers are equal, so the list
      handed to the bin generator does not depend on the tally's iteration order. */
  lemma {:induction false} NumericExpansionUnique(e1: seq<Value>, e2: seq<Value>)
    requires Sorted(e1) && Sorted(e2) && multiset(e1) == multiset(e2)
    requires forall i :: 0 <= i < |e1| ==> e1[i].Num?
    ensures e1 == e2
    decreases |e1|
  {
    if e1 != [] {
      assert e1[0] in multiset(e2);
      assert e2 != [];
      assert e2[0] in multiset(e1);
      assert e1[0] == e2[0] by {
        var i :| 0 <= i < |e1| && e1[i] == e2[0];
        var j :| 0 <= j < |e2| && e2[j] == e1[0];
        assert ValueLe(e1[0], e1[i]) || i == 0;
        assert ValueLe(e2[0], e2[j]) || j == 0;
      }
      assert e1 == [e1[0]] + e1[1..];
      assert e2 == [e2[0]] + e2[1..];
      assert multiset(e1) == multiset{e1[0]} + multiset(e1[1..]);
      assert multiset(e2) == multiset{e2[0]} + multiset(e2[1..]);
      forall v ensures multiset(e1[1..])[v] == multiset(e2[1..])[v] {
        assert multiset(e1)[v] == multiset(e2)[v];
      }
      assert multiset(e1[1..]) == multiset(e2[1..]);
      NumericExpansionUnique(e1[1..], e2[1..]);
    }
  }

  // ---------------------------------------------------------------------------
  // Layers

  /** One bin `[min, max]` of a range layer. */
  datatype Bin = Bin(lo: Value, hi: Value)

  /** `Layer.generateBins(expanded)`: `{ bins, counts }`. */
  datatype BinResult = BinResult(bins: seq<Bin>, counts: seq<nat>)

  /** `Layer.buildLayerFormulas(layer)`: display metadata, opaque here. */
  datatype Formulas = NoFormulas | Formulas(spec: string)

  /** What `Layer.buildLayerFormulas` is shown of a layer. */
  datatype LayerView = LayerView(decl: LayerDecl, stats: Stats, bins: seq<Bin>, binCounts: seq<nat>)

  /** A finished layer as written into its collection. */
  datatype LayerOut = LayerOut(view: LayerView, formulas: Formulas)

  class Layer {
    const key: string
    const name: string
    const dataType: DataType
    var seen: seq<Value>
    var tally: map<Value, nat>
    var binCount: map<string, nat>
    var bins: seq<Bin>
    var binCounts: seq<nat>
    var formulas: Formulas

    /** A declared layer with nothing gathered yet. */
    constructor (key: string, name: string, dataType: DataType)
      ensures this.key == key && this.name == name && this.dataType == dataType
      ensures Snapshot() == EmptyStats && bins == [] && binCounts == [] && formulas == NoFormulas
    {
      this.key, this.name, this.dataType := key, name, dataType;
      seen, tally, binCount := [], map[], map[];
      bins, binCounts, formulas := [], [], NoFormulas;
    }

    function Decl(): LayerDecl
    {
      LayerDecl(key, name, dataType)
    }

    function Snapshot(): Stats
      reads this
    {
      Stats(seen, tally, binCount)
    }

    function View(): LayerView
      reads this
    {
      LayerView(Decl(), Snapshot(), bins, binCounts)
    }

    function Out(): LayerOut
      reads this
    {
      LayerOut(View(), formulas)
    }

    /** One parcel's value on this layer. */
    method Observe(value: Value, exemptStructural: bool)
      modifies this
      ensures Snapshot() == Step(old(Snapshot()), Decl(), value, exemptStructural)
      ensures bins == old(bins) && binCounts == old(binCounts) && formulas == old(formulas)
    {
      if exemptStructural && (key == "parcels" || key == "outline") {
        binCount := binCount[key := Count(binCount, key) + 1];
        return;
      }
      if IsValid(value) {
        if dataType == Category {
          if value !in seen {
            seen := seen + [value];
          }
          binCount := binCount[ToString(value) := Count(binCount, ToString(value)) + 1];
        }
        if dataType == Range {
          tally := tally[value := Count(tally, value) + 1];
        }
      }
    }

    /** Lines 176-195 for one layer: a range layer's tally becomes bins over its
        ascending expansion, and every layer gets its formulas. */
    method Finalize(generateBins: seq<Value> -> BinResult, buildFormulas: LayerView -> Formulas)
      modifies this
      ensures Snapshot() == old(Snapshot())
      ensures dataType == Range ==>
        exists e :: IsExpansionOf(e, tally) && bins == generateBins(e).bins && binCounts == generateBins(e).counts
      ensures dataType != Range ==> bins == old(bins) && binCounts == old(binCounts)
      ensures formulas == buildFormulas(View())
    {
      if dataType == Range {
        var expanded := ExpandRange(tally);
        var result := generateBins(expanded);
        bins := result.bins;
        binCounts := result.counts;
      }
      formulas := buildFormulas(View());
    }
  }

  /** The inner loop over a collection's layers for one parcel. */
  method ObserveAll(layers: seq<Layer>, parcel: IndexFeature, exemptStructural: bool)
    requires NoDuplicates(layers)
    modifies set l | l in layers
    ensures forall j :: 0 <= j < |layers| ==>
      layers[j].Snapshot() == Step(old(layers[j].Snapshot()), layers[j].Decl(), Get(parcel.fields, layers[j].key), exemptStructural)
    ensures forall j :: 0 <= j < |layers| ==>
      layers[j].bins == old(layers[j].bins) && layers[j].binCounts == old(layers[j].binCounts)
      && layers[j].formulas == old(layers[j].formulas)
  {
    var j := 0;
    while j < |layers|
      invariant 0 <= j <= |layers|
      invariant forall i :: 0 <= i < j ==>
        layers[i].Snapshot() == Step(old(layers[i].Snapshot()), layers[i].Decl(), Get(parcel.fields, layers[i].key), exemptStructural)
      invariant forall i :: j <= i < |layers| ==> layers[i].Snapshot() == old(layers[i].Snapshot())
      invariant forall i :: 0 <= i < |layers| ==>
        layers[i].bins == old(layers[i].bins) && layers[i].binCounts == old(layers[i].binCounts)
        && layers[i].formulas == old(layers[i].formulas)
    {
      layers[j].Observe(Get(parcel.fields, layers[j].key), exemptStructural);
      j := j + 1;
    }
  }

  /** The loop of lines 176-195 (or 201-220) over a collection's layers. */
  method FinalizeAll(layers: seq<Layer>, generateBins: seq<Value> -> BinResult, buildFormulas: LayerView -> Formulas)
    requires NoDuplicates(layers)
    modifies set l | l in layers
    ensures forall j :: 0 <= j < |layers| ==> layers[j].Snapshot() == old(layers[j].Snapshot())
    ensures forall j :: 0 <= j < |layers| && layers[j].dataType == Range ==>
      exists e :: IsExpansionOf(e, layers[j].tally) && layers[j].bins == generateBins(e).bins
                  && layers[j].binCounts == generateBins(e).counts
    ensures forall j :: 0 <= j < |layers| && layers[j].dataType != Range ==>
      layers[j].bins == old(layers[j].bins) && layers[j].binCounts == old(layers[j].binCounts)
    ensures forall j :: 0 <= j < |layers| ==> layers[j].formulas == buildFormulas(layers[j].View())
  {
    var j := 0;
    while j < |layers|
      invariant 0 <= j <= |layers|
      invariant forall i :: 0 <= i < |layers| ==> layers[i].Snapshot() == old(layers[i].Snapshot())
      invariant forall i :: 0 <= i < j && layers[i].dataType == Range ==>
        exists e :: IsExpansionOf(e, layers[i].tally) && layers[i].bins == generateBins(e).bins
                    && layers[i].binCounts == generateBins(e).counts
      invariant forall i :: 0 <= i < |layers| && layers[i].dataType != Range ==>
        layers[i].bins == old(layers[i].bins) && layers[i].binCounts == old(layers[i].binCounts)
      invariant forall i :: 0 <= i < j ==> layers[i].formulas == buildFormulas(layers[i].View())
    {
      layers[j].Finalize(generateBins, buildFormulas);
      j := j + 1;
    }
  }
}
