/**
 * The program's version number (version/version.go): a `Major.Minor.Patch`
 * triple with an optional pre-release tag, written in the hyphenated form of
 * item 9 of Semantic Versioning 2.0.0.
 */
module Version {
  import opened Results

  /** Go's `%d` on an unsigned integer writes these characters only. */
  predicate IsDigit(c: char)
  {
    '0' <= c <= '9'
  }

  predicate AllDigits(s: string)
  {
    forall i :: 0 <= i < |s| ==> IsDigit(s[i])
  }

  /** The decimal text of `n` as `%d` writes it: no sign, no leading zero. */
  function Decimal(n: nat): (s: string)
    ensures |s| > 0 && AllDigits(s)
    ensures s[0] == '0' ==> n == 0 && s == "0"
  {
    if n < 10 then ['0' + n as char]
    else Decimal(n / 10) + ['0' + (n % 10) as char]
  }

  /** The value of a string of decimal digits, read from the left. */
  function DigitsValue(s: string): nat
    requires AllDigits(s)
  {
    if s == [] then 0
    else DigitsValue(s[..|s| - 1]) * 10 + (s[|s| - 1] - '0') as nat
  }

  /** Reads back what Decimal writes: a non-empty run of digits. */
  function ParseDecimal(s: string): Option<nat>
  {
    if s != [] && AllDigits(s) then Some(DigitsValue(s)) else None
  }

  lemma {:induction false} DecimalRoundTrip(n: nat)
    ensures ParseDecimal(Decimal(n)) == Some(n)
  {
    var s := Decimal(n);
    if n >= 10 {
      DecimalRoundTrip(n / 10);
      assert s[..|s| - 1] == Decimal(n / 10);
      assert (s[|s| - 1] - '0') as nat == n % 10;
    } else {
      assert s[..0] == [];
      assert (s[0] - '0') as nat == n;
      assert DigitsValue(s) == DigitsValue([]) * 10 + n;
    }
  }

  /** The position of the first `c` in `s`, or |s| when there is none. */
  function IndexOf(s: string, c: char): (i: nat)
    ensures i <= |s|
    ensures i < |s| ==> s[i] == c
    ensures forall j :: 0 <= j < i ==> s[j] != c
  {
    if s == [] then 0
    else if s[0] == c then 0
    else 1 + IndexOf(s[1..], c)
  }

  /** `s` cut at its first `c` into what comes before and after it; None when `s` has no `c`. */
  function SplitFirst(s: string, c: char): Option<(string, string)>
  {
    var i := IndexOf(s, c);
    if i == |s| then None else Some((s[..i], s[i + 1..]))
  }

  /** Cutting `a + [c] + b` at its first `c` gives back `a` and `b` when `a` has no `c`. */
  lemma SplitFirstJoin(a: string, c: char, b: string)
    requires c !in a
    ensures SplitFirst(a + [c] + b, c) == Some((a, b))
  {
    var s := a + [c] + b;
    assert s[|a|] == c;
    assert IndexOf(s, c) == |a|;
    assert s[..|a|] == a;
    assert s[|a| + 1..] == b;
  }

  /** Without a `c`, `s` cannot be cut at one. */
  lemma SplitFirstNone(s: string, c: char)
    requires c !in s
    ensures SplitFirst(s, c) == None
  {
  }

  /** A version as version.go's `Schema` holds it. */
  datatype Schema = Schema(major: nat, minor: nat, patch: nat, meta: string)
  {
    /**
     * `Major.Minor.Patch`, followed by `-Meta` when Meta is not empty.
     * A hyphen appears in the text exactly when there is a Meta part.
     */
    function String(): (s: string)
      ensures '-' in s <==> meta != ""
    {
      var core := Decimal(major) + "." + Decimal(minor) + "." + Decimal(patch);
      assert '-' !in core by {
        NoHyphenInDecimal(major);
        NoHyphenInDecimal(minor);
        NoHyphenInDecimal(patch);
      }
      if meta != "" then
        assert core + "-" + meta == core + ['-'] + meta;
        core + "-" + meta
      else
        core
    }
  }

  /** The built-in version of the program. */
  const Version := Schema(1, 0, 0, "")

  lemma NoHyphenInDecimal(n: nat)
    ensures '-' !in Decimal(n) && '.' !in Decimal(n)
  {
  }

  /** The three dot-separated decimal fields of `Major.Minor.Patch`. */
  function ParseTriple(core: string): Option<(nat, nat, nat)>
  {
    match SplitFirst(core, '.')
    case None => None
    case Some((first, rest)) =>
      match SplitFirst(rest, '.')
      case None => None
      case Some((second, third)) =>
        match (ParseDecimal(first), ParseDecimal(second), ParseDecimal(third))
        case (Some(major), Some(minor), Some(patch)) => Some((major, minor, patch))
        case _ => None
  }

  /**
   * Reading a version back: split at the first `-` into the numbers and
   * Meta, then split the numbers at `.` into three decimal fields.
   */
  function Parse(s: string): Option<Schema>
  {
    var (core, meta) := match SplitFirst(s, '-')
      case Some(parts) => parts
      case None => (s, "");
    match ParseTriple(core)
    case Some((major, minor, patch)) => Some(Schema(major, minor, patch, meta))
    case None => None
  }

  lemma TripleRoundTrip(x: nat, y: nat, z: nat)
    ensures ParseTriple(Decimal(x) + "." + Decimal(y) + "." + Decimal(z)) == Some((x, y, z))
  {
    var a, b, c := Decimal(x), Decimal(y), Decimal(z);
    var rest := b + ['.'] + c;
    assert a + "." + b + "." + c == a + ['.'] + rest;
    NoHyphenInDecimal(x);
    SplitFirstJoin(a, '.', rest);
    NoHyphenInDecimal(y);
    SplitFirstJoin(b, '.', c);
    DecimalRoundTrip(x);
    DecimalRoundTrip(y);
    DecimalRoundTrip(z);
  }

  /** Every version's text decodes back to the same version. */
  lemma ParseString(v: Schema)
    ensures Parse(v.String()) == Some(v)
  {
    var core := Decimal(v.major) + "." + Decimal(v.minor) + "." + Decimal(v.patch);
    NoHyphenInDecimal(v.major);
    NoHyphenInDecimal(v.minor);
    NoHyphenInDecimal(v.patch);
    assert '-' !in core;
    TripleRoundTrip(v.major, v.minor, v.patch);
    if v.meta == "" {
      SplitFirstNone(core, '-');
    } else {
      assert v.String() == core + ['-'] + v.meta;
      SplitFirstJoin(core, '-', v.meta);
    }
  }

  /** With no Meta the text is the bare triple; the built-in version is "1.0.0". */
  lemma VersionString()
    ensures Version.String() == "1.0.0"
  {
  }
}
