/** `parse_size_spec` of architect/utils/format.py: a size written as a
    percentage of the disk, or as a number with an optional binary or decimal
    unit.  Python evaluates the arithmetic in floating point; here it is exact
    (the number is kept as an integer mantissa and a power of ten), and
    `int()` is the truncation it performs. */
module SizeFormat {
  import opened Errors
  import opened Text

  const KiB: nat := 1024
  const MiB: nat := 1024 * KiB
  const GiB: nat := 1024 * MiB
  const TiB: nat := 1024 * GiB

  /** The number group `\d+(?:\.\d+)?`: digits before and after the point
      (`frac` is "" when there is no point). */
  datatype Numeral = Numeral(whole: string, frac: string)
  {
    predicate Valid() {
      whole != [] && AllDigits(whole) && AllDigits(frac)
    }

    /** The numeral as written. */
    function Text(): string {
      if frac == [] then whole else whole + "." + frac
    }

    /** All digits as one integer: the value is Mantissa() / 10^|frac|. */
    function Mantissa(): nat
      requires Valid()
    {
      DigitsValue(whole + frac)
    }
  }

  /** The two groups of a successful match; `unit` is "" when the unit group
      did not participate. */
  datatype SizeMatch = SizeMatch(number: Numeral, unit: string)

  /** Length of the run of whitespace at the start of `s`. */
  function SpaceRun(s: string): (k: nat)
    ensures k <= |s| && (forall i :: 0 <= i < k ==> IsSpace(s[i])) && (k == |s| || !IsSpace(s[k]))
  {
    if s != [] && IsSpace(s[0]) then 1 + SpaceRun(s[1..]) else 0
  }

  /** The group `(?:\.\d+)?` at the start of `t`: the fraction digits and
      what follows them. */
  function FracPart(t: string): (r: (string, string))
    ensures AllDigits(r.0) && (r.0 == [] ==> r.1 == t)
  {
    if t != [] && t[0] == '.' && DigitRun(t[1..]) > 0 then
      var f := DigitRun(t[1..]);
      assert t[1..f + 1] == t[1..][..f];
      (t[1..f + 1], t[f + 1..])
    else ([], t)
  }

  /** The spellings of the unit group `[KMGT]i?B?`, in upper case. */
  const UnitSpellings: set<string> := {
    "K", "KI", "KB", "KIB", "M", "MI", "MB", "MIB",
    "G", "GI", "GB", "GIB", "T", "TI", "TB", "TIB"}

  /** The unit group matched under re.IGNORECASE. */
  predicate IsUnitText(u: string) {
    Upper(u) in UnitSpellings
  }

  /** The regular expression `^(\d+(?:\.\d+)?)\s*([KMGT]i?B?)?` matched
      against the whole of `s`. */
  function MatchWhole(s: string): (m: Option<SizeMatch>)
    ensures m.Some? ==> m.value.number.Valid()
  {
    var i := DigitRun(s);
    if i == 0 then None
    else
      var (frac, rest) := FracPart(s[i..]);
      var k := SpaceRun(rest);
      var u := rest[k..];
      if u == [] || IsUnitText(u) then Some(SizeMatch(Numeral(s[..i], frac), u)) else None
  }

  /** `re.match` with the pattern anchored by `$`, which also matches just
      before a newline that ends the string. */
  function MatchSpec(spec: string): (m: Option<SizeMatch>)
    ensures m.Some? ==> m.value.number.Valid()
  {
    var m := MatchWhole(spec);
    if m.Some? then m
    else if EndsWith(spec, "\n") then MatchWhole(spec[..|spec| - 1])
    else None
  }

  /** A decimal number as `float()` reads it: Mantissa / 10^Scale. */
  datatype Decimal = Decimal(mantissa: int, scale: nat)

  /** `float(s)` for plain decimal numerals: surrounding whitespace, an
      optional sign, digits with an optional point (at least one digit). */
  function ParseFloat(s: string): Option<Decimal> {
    var t := Strip(s);
    var negative := t != [] && t[0] == '-';
    var body := if t != [] && (t[0] == '-' || t[0] == '+') then t[1..] else t;
    var i := DigitRun(body);
    if i == |body| && i > 0 then
      var m: int := DigitsValue(body);
      Some(Decimal(if negative then -m else m, 0))
    else if i < |body| && body[i] == '.' && AllDigits(body[i + 1..]) && (i > 0 || i + 1 < |body|) then
      var m: int := DigitsValue(body[..i] + body[i + 1..]);
      Some(Decimal(if negative then -m else m, |body| - i - 1))
    else None
  }

  /** `int(x)` for x = n / d: truncation toward zero. */
  function TruncDiv(n: int, d: nat): (q: int)
    requires d > 0
    ensures n >= 0 ==> q == n / d
    ensures n < 0 ==> q == -((-n) / d)
  {
    if n >= 0 then n / d else -((-n) / d)
  }

  /** int(value * multiplier) for a matched numeral. */
  function Times(n: Numeral, multiplier: nat): nat
    requires n.Valid()
  {
    var scaled: nat := n.Mantissa() * multiplier;
    scaled / Pow10(|n.frac|)
  }

  /** The branch chain that follows a successful match. */
  function ApplyUnit(m: SizeMatch): Result<int>
    requires m.number.Valid()
  {
    var u := Upper(m.unit);
    if m.unit == "" || u in ["B", ""] then Ok(Times(m.number, 1))
    else if u in ["KIB", "K"] then Ok(Times(m.number, KiB))
    else if u in ["MIB", "M"] then Ok(Times(m.number, MiB))
    else if u in ["GIB", "G"] then Ok(Times(m.number, GiB))
    else if u in ["TIB", "T"] then Ok(Times(m.number, TiB))
    // `unit.upper() in ("KB")` tests for a substring of the string "KB"
    else if Contains("KB", u) then Ok(Times(m.number, 1000))
    else if Contains("MB", u) then Ok(Times(m.number, 1000 * 1000))
    else if Contains("GB", u) then Ok(Times(m.number, 1000 * 1000 * 1000))
    else if Contains("TB", u) then Ok(Times(m.number, 1000 * 1000 * 1000 * 1000))
    else Err(InvalidValue("Unknown unit: " + m.unit))
  }

  /** parse_size_spec(spec, disk_size_bytes) */
  function ParseSizeSpec(spec: string, diskSizeBytes: int): Result<int> {
    if EndsWith(spec, "%") then
      var body := RStripChar(spec, '%');
      match ParseFloat(body)
      case None => Err(InvalidValue("could not convert string to float: '" + body + "'"))
      case Some(p) => Ok(TruncDiv(diskSizeBytes * p.mantissa, 100 * Pow10(p.scale)))
    else
      match MatchSpec(spec)
      case None => Err(InvalidValue("Invalid size specification: " + spec))
      case Some(m) => ApplyUnit(m)
  }

  // ---------------------------------------------------------------------------
  // Properties
  // ---------------------------------------------------------------------------

  /** The unit spellings are upper-case letters only. */
  lemma SpellingsAreLetters(x: string)
    requires x in UnitSpellings
    ensures x != [] && forall i :: 0 <= i < |x| ==> 'A' <= x[i] <= 'Z'
  {
  }

  /** A matched unit starts with a letter and ends with one. */
  lemma UnitEnds(u: string)
    requires IsUnitText(u)
    ensures u != [] && !IsDigit(u[0]) && !IsSpace(u[0]) && u[0] != '.'
    ensures u[|u| - 1] != '%' && u[|u| - 1] != '\n'
  {
    SpellingsAreLetters(Upper(u));
    assert 'A' <= UpperChar(u[0]) <= 'Z';
    assert 'A' <= UpperChar(u[|u| - 1]) <= 'Z';
  }

  /** A leading run of whitespace is measured exactly. */
  lemma {:induction false} SpaceRunPrefix(w: string, rest: string)
    requires (forall i :: 0 <= i < |w| ==> IsSpace(w[i])) && (rest == [] || !IsSpace(rest[0]))
    ensures SpaceRun(w + rest) == |w|
  {
    if w == [] {
      assert w + rest == rest;
    } else {
      assert (w + rest)[1..] == w[1..] + rest;
      SpaceRunPrefix(w[1..], rest);
    }
  }

  lemma FracPartOf(f: string, r: string)
    requires f != [] && AllDigits(f) && (r == [] || !IsDigit(r[0]))
    ensures FracPart("." + f + r) == (f, r)
  {
    var t := "." + f + r;
    assert t[1..] == f + r;
    DigitRunPrefix(f, r);
    assert t[1..|f| + 1] == f;
    assert t[|f| + 1..] == r;
  }

  lemma NoFracPart(r: string)
    requires r == [] || r[0] != '.'
    ensures FracPart(r) == ([], r)
  {
  }

  /** The number group of a written numeral followed by text that cannot
      extend it: the digits, then the fraction, then that text. */
  lemma NumberPrefix(n: Numeral, tail: string)
    requires n.Valid()
    requires tail == [] || (!IsDigit(tail[0]) && tail[0] != '.')
    ensures var s := n.Text() + tail;
      DigitRun(s) == |n.whole| && s[..|n.whole|] == n.whole && FracPart(s[|n.whole|..]) == (n.frac, tail)
  {
    var s := n.Text() + tail;
    var fracText := if n.frac == [] then [] else "." + n.frac;
    assert s == n.whole + (fracText + tail);
    DigitRunPrefix(n.whole, fracText + tail);
    assert s[|n.whole|..] == fracText + tail;
    if n.frac == [] {
      assert fracText + tail == tail;
      NoFracPart(tail);
    } else {
      assert fracText + tail == "." + n.frac + tail;
      FracPartOf(n.frac, tail);
    }
  }

  /** The match, once the number group and the whitespace are measured. */
  lemma MatchWholeOf(s: string, n: Numeral, rest: string, k: nat)
    requires n.whole != [] && DigitRun(s) == |n.whole| && s[..|n.whole|] == n.whole
    requires FracPart(s[|n.whole|..]) == (n.frac, rest)
    requires k <= |rest| && SpaceRun(rest) == k
    ensures MatchWhole(s) == if rest[k..] == [] || IsUnitText(rest[k..]) then Some(SizeMatch(n, rest[k..])) else None
  {
  }

  /** A numeral followed by `k` spaces and then an admitted unit, or nothing. */
  lemma MatchNumeralTail(n: Numeral, tail: string, k: nat, u: string)
    requires tail == [] || (!IsDigit(tail[0]) && tail[0] != '.')
    requires n.Valid() && k <= |tail| && SpaceRun(tail) == k && tail[k..] == u
    requires u == [] || IsUnitText(u)
    ensures MatchWhole(n.Text() + tail) == Some(SizeMatch(n, u))
  {
    NumberPrefix(n, tail);
    MatchWholeOf(n.Text() + tail, n, tail, k);
  }

  /** A numeral, optional whitespace and an optional unit: the regular
      expression takes them apart into exactly those groups. */
  lemma MatchNumeral(n: Numeral, ws: string, u: string)
    requires n.Valid()
    requires forall i :: 0 <= i < |ws| ==> IsSpace(ws[i])
    requires u == [] || IsUnitText(u)
    ensures MatchWhole(n.Text() + ws + u) == Some(SizeMatch(n, u))
  {
    if u != [] { UnitEnds(u); }
    var tail := ws + u;
    assert tail == [] || (!IsDigit(tail[0]) && tail[0] != '.');
    SpaceRunPrefix(ws, u);
    assert tail[|ws|..] == u;
    MatchNumeralTail(n, tail, |ws|, u);
    Reassociate(n.Text(), ws, u);
  }

  /** The multiplier each unit spelling stands for: powers of 1024 for
      K/KIB (and so on), powers of 1000 for KB/MB/GB/TB; the regular
      expression also admits KI/MI/GI/TI, which name no multiplier. */
  function UnitFactor(unit: string): (f: Option<nat>)
    requires unit in UnitSpellings
    ensures f.Some? ==> f.value > 0
    ensures f.None? <==> (|unit| == 2 && unit[1] == 'I')
  {
    var i := if unit[0] == 'K' then 0 else if unit[0] == 'M' then 1 else if unit[0] == 'G' then 2 else 3;
    if |unit| == 2 && unit[1] == 'I' then None
    else if |unit| == 2 then Some([1000, 1000 * 1000, 1000 * 1000 * 1000, 1000 * 1000 * 1000 * 1000][i])
    else Some([KiB, MiB, GiB, TiB][i])
  }

  /** The result the source's branch chain should give for an admitted unit. */
  function UnitOutcome(n: Numeral, unit: string): Result<int>
    requires n.Valid() && IsUnitText(unit)
  {
    match UnitFactor(Upper(unit))
    case Some(f) => Ok(Times(n, f))
    case None => Err(InvalidValue("Unknown unit: " + unit))
  }

  /** Between strings of equal length, the substring test is equality. */
  lemma ContainsSameLength(s: string, sub: string)
    requires |s| == |sub| && |s| > 0
    ensures Contains(s, sub) <==> s == sub
  {
    assert !Contains(s[1..], sub);
  }

  /** For the two-letter spellings the regular expression admits, the
      `in ("KB")` substring tests of the source coincide with equality. */
  lemma DecimalTestIsEquality(u: string)
    requires |u| == 2
    ensures Contains("KB", u) <==> u == "KB"
    ensures Contains("MB", u) <==> u == "MB"
    ensures Contains("GB", u) <==> u == "GB"
    ensures Contains("TB", u) <==> u == "TB"
  {
    ContainsSameLength("KB", u);
    ContainsSameLength("MB", u);
    ContainsSameLength("GB", u);
    ContainsSameLength("TB", u);
  }

  /** The branch chain after the match maps every admitted unit to its
      multiplier, and reports the half-binary spellings as unknown. */
  lemma ApplyUnitFactor(m: SizeMatch)
    requires m.number.Valid() && IsUnitText(m.unit)
    ensures ApplyUnit(m) == UnitOutcome(m.number, m.unit)
  {
    var u := Upper(m.unit);
    SpellingsAreLetters(u);
    assert m.unit != "" && u != "B";
    if |u| == 2 {
      DecimalTestIsEquality(u);
      TwoLetterUnit(m);
    } else {
      OtherUnit(m);
    }
  }

  lemma TwoLetterUnit(m: SizeMatch)
    requires m.number.Valid() && Upper(m.unit) in UnitSpellings && |Upper(m.unit)| == 2
    requires var u := Upper(m.unit);
      (Contains("KB", u) <==> u == "KB") && (Contains("MB", u) <==> u == "MB") &&
      (Contains("GB", u) <==> u == "GB") && (Contains("TB", u) <==> u == "TB")
    ensures ApplyUnit(m) == UnitOutcome(m.number, m.unit)
  {
    var u := Upper(m.unit);
    assert u in {"KI", "KB", "MI", "MB", "GI", "GB", "TI", "TB"};
  }

  lemma OtherUnit(m: SizeMatch)
    requires m.number.Valid() && Upper(m.unit) in UnitSpellings && |Upper(m.unit)| != 2
    ensures ApplyUnit(m) == UnitOutcome(m.number, m.unit)
  {
    var u := Upper(m.unit);
    assert u in {"K", "M", "G", "T", "KIB", "MIB", "GIB", "TIB"};
  }

  /** parse_size_spec on a number with a unit: the number times the unit's
      multiplier, binary for K/KiB (and so on), decimal for KB/MB/GB/TB. */
  lemma SizeWithUnit(n: Numeral, ws: string, u: string, total: int)
    requires n.Valid()
    requires forall i :: 0 <= i < |ws| ==> IsSpace(ws[i])
    requires IsUnitText(u)
    ensures ParseSizeSpec(n.Text() + ws + u, total) == UnitOutcome(n, u)
  {
    var s := n.Text() + ws + u;
    MatchNumeral(n, ws, u);
    UnitEnds(u);
    assert s[|s| - 1] == u[|u| - 1];
    assert !EndsWith(s, "%");
    assert MatchSpec(s) == Some(SizeMatch(n, u));
    SpecByMatch(s, total, SizeMatch(n, u));
    ApplyUnitFactor(SizeMatch(n, u));
  }

  /** "Ki", "Mi", "Gi" and "Ti" pass the regular expression but reach the
      final "Unknown unit" error. */
  lemma HalfBinaryUnitRejected(n: Numeral, u: string, total: int)
    requires n.Valid() && |u| == 2 && UpperChar(u[0]) in "KMGT" && UpperChar(u[1]) == 'I'
    ensures ParseSizeSpec(n.Text() + u, total) == Err(InvalidValue("Unknown unit: " + u))
  {
    var U := Upper(u);
    assert U == [UpperChar(u[0]), 'I'];
    assert IsUnitText(u);
    SizeWithUnit(n, [], u, total);
    assert n.Text() + [] + u == n.Text() + u;
  }

  /** A bare number is a count of bytes. */
  lemma SizeWithoutUnit(n: Numeral, ws: string, total: int)
    requires n.Valid()
    requires forall i :: 0 <= i < |ws| ==> IsSpace(ws[i])
    ensures ParseSizeSpec(n.Text() + ws, total) == Ok(Times(n, 1))
  {
    var m := SizeMatch(n, []);
    NoUnitMatches(n, ws);
    SpecByMatch(n.Text() + ws, total, m);
    assert ApplyUnit(m) == Ok(Times(n, 1));
  }

  /** A numeral and trailing whitespace match with an empty unit. */
  lemma NoUnitMatches(n: Numeral, ws: string)
    requires n.Valid()
    requires forall i :: 0 <= i < |ws| ==> IsSpace(ws[i])
    ensures MatchSpec(n.Text() + ws) == Some(SizeMatch(n, []))
    ensures !EndsWith(n.Text() + ws, "%")
  {
    var s := n.Text() + ws;
    MatchNumeral(n, ws, []);
    assert s == n.Text() + ws + [];
    assert s[|s| - 1] != '%' by {
      if ws == [] {
        assert s[|s| - 1] == n.Text()[|n.Text()| - 1];
        assert IsDigit(s[|s| - 1]);
      } else {
        assert IsSpace(s[|s| - 1]);
      }
    }
  }

  lemma {:induction false} StripPercentStops(p: string)
    requires p != [] && p[|p| - 1] != '%'
    ensures RStripChar(p + "%", '%') == p
  {
    assert (p + "%")[..|p|] == p;
  }

  /** `float()` of a string of digits is that whole number. */
  lemma ParseFloatDigits(p: string)
    requires p != [] && AllDigits(p)
    ensures ParseFloat(p) == Some(Decimal(DigitsValue(p), 0))
  {
    assert LStrip(p) == p;
    assert RStrip(p) == p;
    assert Strip(p) == p;
    DigitRunPrefix(p, []);
    assert p + [] == p;
  }

  lemma WholePercent(total: nat, v: nat)
    ensures TruncDiv(total * v, 100 * Pow10(0)) == total * v / 100
  {
    assert Pow10(0) == 1;
    assert total * v >= 0;
  }

  /** A percentage of whole digits is that share of the disk, rounded down. */
  lemma PercentOfTotal(p: string, total: nat)
    requires p != [] && AllDigits(p)
    ensures ParseSizeSpec(p + "%", total) == Ok(total * DigitsValue(p) / 100)
  {
    var s := p + "%";
    assert EndsWith(s, "%");
    StripPercentStops(p);
    ParseFloatDigits(p);
    var v := DigitsValue(p);
    var body := RStripChar(s, '%');
    assert ParseFloat(body) == Some(Decimal(v, 0));
    assert ParseSizeSpec(s, total) == Ok(TruncDiv(total * v, 100 * Pow10(0)));
    WholePercent(total, v);
  }

  /** The "Invalid size specification" error is raised exactly when the
      specification is not a percentage and the regular expression fails. */
  lemma InvalidSpecIffUnmatched(spec: string, total: int)
    ensures ParseSizeSpec(spec, total) == Err(InvalidValue("Invalid size specification: " + spec))
        <==> (!EndsWith(spec, "%") && MatchSpec(spec).None?)
  {
    var bad := "Invalid size specification: " + spec;
    assert bad[0] == 'I';
    if EndsWith(spec, "%") {
      PercentErrors(spec, total);
      var body := RStripChar(spec, '%');
      assert ("could not convert string to float: '" + body + "'")[0] == 'c';
    } else if MatchSpec(spec).Some? {
      var m := MatchSpec(spec).value;
      SpecByMatch(spec, total, m);
      ApplyUnitErrors(m);
      assert ("Unknown unit: " + m.unit)[0] == 'U';
    }
  }

  /** The percentage branch fails only when `float()` does. */
  lemma PercentErrors(spec: string, total: int)
    requires EndsWith(spec, "%")
    ensures ParseSizeSpec(spec, total).Err? ==>
      ParseSizeSpec(spec, total) == Err(InvalidValue("could not convert string to float: '" + RStripChar(spec, '%') + "'"))
  {
  }

  /** The unit chain fails only with "Unknown unit". */
  lemma ApplyUnitErrors(m: SizeMatch)
    requires m.number.Valid()
    ensures ApplyUnit(m).Err? ==> ApplyUnit(m) == Err(InvalidValue("Unknown unit: " + m.unit))
  {
  }

  /** Outside the percentage branch, the outcome is the unit chain applied
      to the match. */
  lemma SpecByMatch(spec: string, total: int, m: SizeMatch)
    requires !EndsWith(spec, "%") && MatchSpec(spec) == Some(m)
    ensures ParseSizeSpec(spec, total) == ApplyUnit(m)
  {
  }

  /** Python's `$` lets one trailing newline through: "<size>\n" reads as
      "<size>". */
  lemma TrailingNewlineAccepted(n: Numeral, u: string, total: int)
    requires n.Valid() && IsUnitText(u)
    ensures ParseSizeSpec(n.Text() + u + "\n", total) == ParseSizeSpec(n.Text() + u, total)
  {
    var m := SizeMatch(n, u);
    UnitTextMatches(n, u);
    NewlineTextMatches(n, u);
    SpecByMatch(n.Text() + u, total, m);
    SpecByMatch(n.Text() + u + "\n", total, m);
  }

  /** A numeral followed by a unit is a size with that unit. */
  lemma UnitTextMatches(n: Numeral, u: string)
    requires n.Valid() && IsUnitText(u)
    ensures MatchSpec(n.Text() + u) == Some(SizeMatch(n, u))
    ensures !EndsWith(n.Text() + u, "%")
  {
    var s := n.Text() + u;
    UnitEnds(u);
    MatchNumeral(n, [], u);
    assert n.Text() + [] + u == s;
    assert s[|s| - 1] == u[|u| - 1];
  }

  /** The same text with a newline appended still matches, through the
      end-of-line anchor. */
  lemma NewlineTextMatches(n: Numeral, u: string)
    requires n.Valid() && IsUnitText(u)
    ensures MatchSpec(n.Text() + u + "\n") == Some(SizeMatch(n, u))
    ensures !EndsWith(n.Text() + u + "\n", "%")
  {
    var s := n.Text() + u;
    var s' := s + "\n";
    UnitTextMatches(n, u);
    MatchWholeRejectsAfterUnit(n, u, "\n");
    assert s'[..|s'| - 1] == s;
    assert EndsWith(s', "\n");
  }

  /** Text after the unit that is not a unit continuation makes the match
      fail; here a trailing newline. */
  lemma MatchWholeRejectsAfterUnit(n: Numeral, u: string, extra: string)
    requires n.Valid() && IsUnitText(u) && extra == "\n"
    ensures MatchWhole(n.Text() + u + extra) == None
  {
    UnitEnds(u);
    var tail := u + extra;
    NumberPrefix(n, tail);
    SpaceRunPrefix([], tail);
    assert [] + tail == tail;
    Reassociate(n.Text(), u, extra);
    MatchWholeOf(n.Text() + tail, n, tail, 0);
    assert tail[0..] == tail;
    if IsUnitText(tail) {
      UnitEnds(tail);
    }
  }

  /** A specification with no leading digit is refused. */
  lemma NoLeadingDigitRejected(spec: string, total: int)
    requires spec != [] && !IsDigit(spec[0]) && spec[|spec| - 1] != '%' && spec[|spec| - 1] != '\n'
    ensures ParseSizeSpec(spec, total) == Err(InvalidValue("Invalid size specification: " + spec))
  {
    assert DigitRun(spec) == 0;
    assert MatchWhole(spec) == None;
    assert !EndsWith(spec, "\n");
    assert !EndsWith(spec, "%");
  }

  /** Three specifications the function refuses: a unit of plain bytes, a
      negative number and no number at all. */
  lemma RejectedExamples(total: int)
    ensures ParseSizeSpec("100B", total).Err?
    ensures ParseSizeSpec("-5G", total).Err?
    ensures ParseSizeSpec("abc", total).Err?
  {
    var s := "100B";
    DigitRunPrefix("100", "B");
    assert s == "100" + "B";
    assert s[3..] == "B";
    NoFracPart("B");
    assert SpaceRun("B") == 0;
    assert Upper("B") == ['B'];
    assert !IsUnitText("B");
    assert MatchWhole(s) == None;
    assert !EndsWith(s, "\n") && !EndsWith(s, "%");
    NoLeadingDigitRejected("-5G", total);
    NoLeadingDigitRejected("abc", total);
  }
}
