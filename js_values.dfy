/** JavaScript scalar values as the update pipeline sees them: the values of a
    parcel record, of an update object and of a feature's own fields. Numbers are
    integers; NaN is a value of its own so that the validity test can tell it apart. */
module JsValues {

  datatype Option<+T> = None | Some(value: T)

  datatype Value =
    | Undefined          // a missing key reads as `undefined`
    | Null
    | Bool(b: bool)
    | Num(n: int)
    | NaN
    | Str(s: string)

  /** A record: property name to value (a plain JS object of scalars). */
  type Props = map<string, Value>

  /** `obj[key]`: an absent key reads as `undefined`. */
  function Get(m: Props, key: string): Value
  {
    if key in m then m[key] else Undefined
  }

  /** JavaScript truthiness: "", 0, NaN, false, null and undefined are falsy. */
  predicate Truthy(v: Value)
  {
    match v
    case Undefined => false
    case Null => false
    case Bool(b) => b
    case Num(n) => n != 0
    case NaN => false
    case Str(s) => s != ""
  }

  function Digit(d: nat): (c: char)
    requires d < 10
    ensures '0' <= c <= '9'
  {
    ('0' as int + d) as char
  }

  predicate AllDigits(s: string)
  {
    forall i :: 0 <= i < |s| ==> '0' <= s[i] <= '9'
  }

  /** The value of a string of decimal digits, most significant first. */
  function DigitsValue(s: string): nat
    requires AllDigits(s)
  {
    if s == [] then 0 else DigitsValue(s[..|s| - 1]) * 10 + ((s[|s| - 1] as int) - ('0' as int))
  }

  /** Decimal digits of a natural number, most significant first. */
  function NatToString(n: nat): (r: string)
    ensures |r| >= 1
    ensures forall i :: 0 <= i < |r| ==> '0' <= r[i] <= '9'
  {
    if n < 10 then [Digit(n)] else NatToString(n / 10) + [Digit(n % 10)]
  }

  /** Reading the digits back gives the number, and only zero is written with a
      leading zero. */
  lemma {:induction false} NatToStringRoundTrip(n: nat)
    ensures AllDigits(NatToString(n)) && DigitsValue(NatToString(n)) == n
    ensures NatToString(n)[0] == '0' <==> n == 0
  {
    var r := NatToString(n);
    if n < 10 {
      assert r[..0] == [];
    } else {
      NatToStringRoundTrip(n / 10);
      var p := NatToString(n / 10);
      assert r[..|r| - 1] == p;
      assert r[0] == p[0];
    }
  }

  /** Two numbers print alike only if they are equal, so the printed form of a
      number is a faithful key for it. */
  lemma NatToStringInjective(a: nat, b: nat)
    ensures NatToString(a) == NatToString(b) ==> a == b
  {
    NatToStringRoundTrip(a);
    NatToStringRoundTrip(b);
  }

  /** `String(v)`, as used by template literals and by object-key conversion. */
  function ToString(v: Value): string
  {
    match v
    case Undefined => "undefined"
    case Null => "null"
    case Bool(b) => if b then "true" else "false"
    case Num(n) => if n < 0 then "-" + NatToString(-n) else NatToString(n)
    case NaN => "NaN"
    case Str(s) => s
  }

  lemma NumToStringInjective(a: int, b: int)
    ensures ToString(Num(a)) == ToString(Num(b)) ==> a == b
  {
    var sa, sb := ToString(Num(a)), ToString(Num(b));
    if sa == sb {
      assert (a < 0) == (b < 0) by { assert sa[0] == sb[0]; }
      if a < 0 {
        assert NatToString(-a) == sa[1..];
        assert NatToString(-b) == sb[1..];
        NatToStringInjective(-a, -b);
      } else {
        NatToStringInjective(a, b);
      }
    }
  }

  /** The characters `String.prototype.trim` removes: ECMAScript WhiteSpace and
      LineTerminator code points. */
  predicate IsJsSpace(c: char)
  {
    ('\t' <= c <= '\r') || c == ' ' || c == '\U{00A0}' || c == '\U{1680}'
    || ('\U{2000}' <= c <= '\U{200A}') || c == '\U{2028}' || c == '\U{2029}'
    || c == '\U{202F}' || c == '\U{205F}' || c == '\U{3000}' || c == '\U{FEFF}'
  }

  function TrimStart(s: string): (r: string)
    ensures r == [] || !IsJsSpace(r[0])
  {
    if s != [] && IsJsSpace(s[0]) then TrimStart(s[1..]) else s
  }

  function TrimEnd(s: string): (r: string)
    ensures r == [] || !IsJsSpace(r[|r| - 1])
  {
    if s != [] && IsJsSpace(s[|s| - 1]) then TrimEnd(s[..|s| - 1]) else s
  }

  /** `s.trim()` */
  function Trim(s: string): string
  {
    TrimEnd(TrimStart(s))
  }

  predicate Blank(s: string)
  {
    forall i :: 0 <= i < |s| ==> IsJsSpace(s[i])
  }

  lemma {:induction false} TrimStartEmptyIff(s: string)
    ensures TrimStart(s) == [] <==> Blank(s)
  {
    if s != [] && IsJsSpace(s[0]) {
      TrimStartEmptyIff(s[1..]);
      assert Blank(s) <==> Blank(s[1..]) by {
        if Blank(s[1..]) {
          forall i | 0 <= i < |s| ensures IsJsSpace(s[i]) {
            if i > 0 { assert s[i] == s[1..][i - 1]; }
          }
        }
      }
    } else if s != [] {
      assert !IsJsSpace(s[0]);
    }
  }

  lemma {:induction false} TrimEndEmptyIff(s: string)
    ensures TrimEnd(s) == [] <==> Blank(s)
  {
    if s != [] && IsJsSpace(s[|s| - 1]) {
      TrimEndEmptyIff(s[..|s| - 1]);
      assert Blank(s) <==> Blank(s[..|s| - 1]) by {
        if Blank(s[..|s| - 1]) {
          forall i | 0 <= i < |s| ensures IsJsSpace(s[i]) {
            if i < |s| - 1 { assert s[i] == s[..|s| - 1][i]; }
          }
        }
      }
    } else if s != [] {
      assert !IsJsSpace(s[|s| - 1]);
    }
  }

  lemma {:induction false} TrimStartKeepsLast(s: string)
    requires TrimStart(s) != []
    ensures s != [] && TrimStart(s)[|TrimStart(s)| - 1] == s[|s| - 1]
  {
    if s != [] && IsJsSpace(s[0]) {
      TrimStartKeepsLast(s[1..]);
    }
  }

  /** `s.trim() !== ''` holds exactly when some character of `s` is not white space. */
  lemma TrimEmptyIffBlank(s: string)
    ensures Trim(s) == "" <==> Blank(s)
  {
    TrimStartEmptyIff(s);
    TrimEndEmptyIff(TrimStart(s));
    if TrimStart(s) != [] {
      TrimStartKeepsLast(s);
      assert !Blank(TrimStart(s));
      assert !Blank(s) by {
        var t := TrimStart(s);
        assert !IsJsSpace(t[0]);
        TrimStartIsSuffix(s);
        var k := |s| - |t|;
        assert s[k] == t[0];
      }
    }
  }

  lemma BlankCons(c: char, s: string)
    requires IsJsSpace(c) && Blank(s)
    ensures Blank([c] + s)
  {
    forall i | 0 <= i < |s| + 1 ensures IsJsSpace(([c] + s)[i]) {
      if i > 0 { assert ([c] + s)[i] == s[i - 1]; }
    }
  }

  lemma BlankSnoc(s: string, c: char)
    requires Blank(s) && IsJsSpace(c)
    ensures Blank(s + [c])
  {
    forall i | 0 <= i < |s| + 1 ensures IsJsSpace((s + [c])[i]) {
      if i < |s| { assert (s + [c])[i] == s[i]; }
    }
  }

  /** `trimStart` removes exactly the leading run of white space: what it drops is
      blank, and what it keeps is a suffix that does not start with white space
      (the contract of `TrimStart`). */
  lemma {:induction false} TrimStartIsSuffix(s: string)
    ensures |TrimStart(s)| <= |s|
    ensures TrimStart(s) == s[|s| - |TrimStart(s)|..] && Blank(s[..|s| - |TrimStart(s)|])
  {
    if s != [] && IsJsSpace(s[0]) {
      var u := s[1..];
      TrimStartIsSuffix(u);
      var t := TrimStart(u);
      assert TrimStart(s) == t;
      var k := |u| - |t|;
      assert u[k..] == s[k + 1..];
      assert s[..k + 1] == [s[0]] + u[..k];
      BlankCons(s[0], u[..k]);
    } else {
      assert s[..0] == [];
    }
  }

  /** `trimEnd` removes exactly the trailing run of white space: what it drops is
      blank, and what it keeps is a prefix that does not end with white space. */
  lemma {:induction false} TrimEndIsPrefix(s: string)
    ensures |TrimEnd(s)| <= |s|
    ensures TrimEnd(s) == s[..|TrimEnd(s)|] && Blank(s[|TrimEnd(s)|..])
  {
    if s != [] && IsJsSpace(s[|s| - 1]) {
      var u := s[..|s| - 1];
      TrimEndIsPrefix(u);
      var t := TrimEnd(u);
      assert TrimEnd(s) == t;
      var k := |t|;
      assert u[..k] == s[..k];
      assert s[k..] == u[k..] + [s[|s| - 1]];
      BlankSnoc(u[k..], s[|s| - 1]);
    } else {
      assert s[|s|..] == [];
    }
  }

  /** `Number(s)` for a string, as far as integers go: surrounding white space is
      ignored, a blank string reads as 0, and an optionally signed run of decimal
      digits reads as its value. `None` stands for every other string, which
      JavaScript reads as `NaN` or as a number that is not an integer. */
  function NumberOf(s: string): Option<int>
  {
    var t := Trim(s);
    if t == [] then Some(0)
    else if AllDigits(t) then Some(DigitsValue(t))
    else if |t| > 1 && (t[0] == '-' || t[0] == '+') && AllDigits(t[1..]) then
      var v: int := DigitsValue(t[1..]);
      Some(if t[0] == '-' then -v else v)
    else None
  }

  /** A string that neither starts nor ends with white space is its own trim. */
  lemma TrimOfUnpadded(t: string)
    requires t != [] && !IsJsSpace(t[0]) && !IsJsSpace(t[|t| - 1])
    ensures Trim(t) == t
  {
    assert TrimStart(t) == t;
  }

  lemma DigitsAreNotSpace(d: string)
    requires AllDigits(d)
    ensures forall i :: 0 <= i < |d| ==> !IsJsSpace(d[i])
  {
  }

  lemma NumberOfDigits(d: string)
    requires d != [] && AllDigits(d)
    ensures NumberOf(d) == Some(DigitsValue(d))
  {
    DigitsAreNotSpace(d);
    TrimOfUnpadded(d);
  }

  lemma NumberOfNegative(d: string)
    requires d != [] && AllDigits(d)
    ensures NumberOf("-" + d) == Some(-(DigitsValue(d) as int))
  {
    var t := "-" + d;
    DigitsAreNotSpace(d);
    assert t[0] == '-' && t[|t| - 1] == d[|d| - 1];
    TrimOfUnpadded(t);
    assert t[1..] == d;
    assert !AllDigits(t);
  }

  /** `Number(String(n)) === n`: a printed number reads back as itself. */
  lemma NumberOfToString(n: int)
    ensures NumberOf(ToString(Num(n))) == Some(n)
  {
    var m := if n < 0 then -n else n;
    NatToStringRoundTrip(m);
    if n < 0 {
      NumberOfNegative(NatToString(m));
    } else {
      NumberOfDigits(NatToString(m));
    }
  }

  /** The bin-validity test of map/update.js lines 126 and 153: a string that is
      not blank after trimming, or a number that is not NaN. */
  predicate IsValid(v: Value)
  {
    (v.Str? && Trim(v.s) != "") || v.Num?
  }

  /** Validity restated without `trim`: a string is valid exactly when it holds a
      character that is not white space, and a valid string is truthy. */
  lemma ValidMeans(v: Value)
    ensures IsValid(v) <==> (v.Num? || (v.Str? && !Blank(v.s)))
    ensures IsValid(v) && v.Str? ==> Truthy(v)
  {
    if v.Str? {
      TrimEmptyIffBlank(v.s);
      if v.s == "" { assert Blank(v.s); }
    }
  }
}
