/**
 * The discrepancy check of the RIG flow (`_clean_float` and `_flag_value` in rig.py): the model's
 * claimed value and the fetched value are read as numbers and flagged when they differ by more
 * than 5%. Numbers are exact reals; any text that does not read as a number means "no flag".
 */
module Discrepancy {
  import opened Wrappers
  import opened Text

  /** `_DIFF_THRESHOLD`: 5%. */
  const DiffThreshold: real := 0.05

  predicate IsNumeric(c: char)
  {
    IsDigit(c) || c == '.'
  }

  /** `re.sub(r'[^0-9.]', '', s)`: only the digits and dots of `s`, in order. */
  function KeepNumeric(s: string): (r: string)
    ensures |r| <= |s|
    ensures forall k :: 0 <= k < |r| ==> IsNumeric(r[k])
  {
    if s == [] then []
    else (if IsNumeric(s[0]) then [s[0]] else []) + KeepNumeric(s[1..])
  }

  lemma {:induction false} KeepNumericConcat(a: string, b: string)
    ensures KeepNumeric(a + b) == KeepNumeric(a) + KeepNumeric(b)
  {
    if a == [] {
      assert a + b == b;
    } else {
      var x := if IsNumeric(a[0]) then [a[0]] else [];
      var ab := a + b;
      assert ab[0] == a[0] && ab[1..] == a[1..] + b;
      assert KeepNumeric(ab) == x + KeepNumeric(a[1..] + b);
      KeepNumericConcat(a[1..], b);
      assert KeepNumeric(a) == x + KeepNumeric(a[1..]);
    }
  }

  lemma {:induction false} KeepNumericIdle(s: string)
    requires forall k :: 0 <= k < |s| ==> !IsNumeric(s[k])
    ensures KeepNumeric(s) == []
  {
    if s != [] {
      KeepNumericIdle(s[1..]);
    }
  }

  function CountDots(s: string): nat
  {
    if s == [] then 0 else CountDots(s[..|s| - 1]) + (if s[|s| - 1] == '.' then 1 else 0)
  }

  predicate HasDigit(s: string)
  {
    exists k :: 0 <= k < |s| && IsDigit(s[k])
  }

  function Pow10(n: nat): (r: nat)
    ensures r >= 1
  {
    if n == 0 then 1 else 10 * Pow10(n - 1)
  }

  /** The value of a run of digits, with `.` left out (`"12.5"` reads as 125). */
  function DigitsOnly(s: string): nat
    requires forall k :: 0 <= k < |s| ==> IsNumeric(s[k])
  {
    if s == [] then 0
    else if s[|s| - 1] == '.' then DigitsOnly(s[..|s| - 1])
    else
      assert IsNumeric(s[|s| - 1]);
      DigitsOnly(s[..|s| - 1]) * 10 + DigitValue(s[|s| - 1])
  }

  /** The number of digits after the dot, if there is one. */
  function Scale(s: string): nat
  {
    if s == [] || s[|s| - 1] == '.' then 0 else if '.' in s[..|s| - 1] then Scale(s[..|s| - 1]) + 1 else 0
  }

  /**
   * Python's `float(s)` on a string of digits and dots: a number when there is at most one dot
   * and at least one digit (`"5"`, `"5."`, `".5"`, `"5.25"`), an error otherwise (`""`, `"."`, `"1.2.3"`).
   */
  function Decimal(s: string): (r: Option<real>)
    requires forall k :: 0 <= k < |s| ==> IsNumeric(s[k])
    ensures r.Some? <==> CountDots(s) <= 1 && HasDigit(s)
    ensures r.Some? ==> r.value >= 0.0
  {
    if CountDots(s) <= 1 && HasDigit(s) then Some(DigitsOnly(s) as real / Pow10(Scale(s)) as real)
    else None
  }

  /** `_clean_float(s)`: the digits and dots of `s` read as a number. */
  function CleanFloat(s: string): (r: Option<real>)
    ensures r.Some? <==> CountDots(KeepNumeric(s)) <= 1 && HasDigit(KeepNumeric(s))
    ensures r.Some? ==> r.value >= 0.0
  {
    Decimal(KeepNumeric(s))
  }

  /** The unit words `_flag_value` looks for in the claim, in order, with their multipliers. */
  const Suffixes: seq<(string, nat)> := [(" million", 1000000), (" billion", 1000000000), (" trillion", 1000000000000)]

  predicate Contains(s: string, pat: string)
  {
    Find(s, pat, 0).Some?
  }

  /** The multiplier of the first of `suffixes` that the claim contains (the loop's `break`). */
  function FirstMultiplier(claim: string, suffixes: seq<(string, nat)>): (r: Option<nat>)
    ensures r.Some? <==> exists k :: 0 <= k < |suffixes| && Contains(claim, suffixes[k].0)
    ensures r.Some? ==> exists k :: 0 <= k < |suffixes| && Contains(claim, suffixes[k].0) && r.value == suffixes[k].1
                          && forall k' :: 0 <= k' < k ==> !Contains(claim, suffixes[k'].0)
  {
    if suffixes == [] then None
    else if Contains(claim, suffixes[0].0) then Some(suffixes[0].1)
    else
      var r := FirstMultiplier(claim, suffixes[1..]);
      assert forall k :: 1 <= k < |suffixes| ==> suffixes[k] == suffixes[1..][k - 1];
      r
  }

  /**
   * The claimed value as `_flag_value` reads it: with a unit word, the number before it times the
   * word's multiplier; without one, the claim's digits and dots.
   */
  function ClaimedValue(claim: string): Option<real>
  {
    match FirstMultiplier(claim, Suffixes)
    case None => CleanFloat(claim)
    case Some(mult) => Times(CleanFloat(ReplaceAll(claim, Million, "")), mult)
  }

  /** A number read from text, times a multiplier; nothing when no number was read. */
  function Times(x: Option<real>, mult: nat): Option<real>
  {
    match x
    case None => None
    case Some(v) => Some(v * mult as real)
  }

  /** `pct_diff`: the relative difference of the fetched value from the claimed one, 1.0 for a zero claim. */
  function PctDiff(fetched: real, claimed: real): real
  {
    if claimed != 0.0 then (fetched - claimed) / claimed else 1.0
  }

  /**
   * The flag for a claimed value read as `claimed` (`None` where reading it raised): raised when
   * the fetched value reads as a number and the relative difference lies strictly outside
   * [-5%, 5%]; `toFloat` is Python's `float()` on the fetched value, `None` where it raises.
   */
  function FlagOf(claimed: Option<real>, dcv: string, toFloat: string -> Option<real>): bool
  {
    match claimed
    case None => false
    case Some(c) =>
      match toFloat(dcv)
      case None => false
      case Some(d) =>
        var pct := PctDiff(d, c);
        pct > DiffThreshold || pct < -DiffThreshold
  }

  /** `_flag_value(dcv, llmv)`, with the claimed value read as intended. */
  function FlagValue(dcv: string, llmv: string, toFloat: string -> Option<real>): bool
  {
    FlagOf(ClaimedValue(llmv), dcv, toFloat)
  }

  /**
   * The claimed value as `_flag_value` computes it: with a unit word the product is turned back
   * into text with `str()` and read again with `_clean_float`; `pyStr` is Python's `str()` on a float.
   */
  function ClaimedValueAsWritten(claim: string, pyStr: real -> string): Option<real>
  {
    match FirstMultiplier(claim, Suffixes)
    case None => CleanFloat(claim)
    case Some(mult) => Reread(CleanFloat(ReplaceAll(claim, Million, "")), mult, pyStr)
  }

  /** `_clean_float(str(x * mult))`: the product printed by `pyStr` and read back. */
  function Reread(x: Option<real>, mult: nat, pyStr: real -> string): Option<real>
  {
    match x
    case None => None
    case Some(v) => CleanFloat(pyStr(v * mult as real))
  }

  /** `_flag_value(dcv, llmv)` as written. */
  function FlagValueAsWritten(dcv: string, llmv: string, toFloat: string -> Option<real>, pyStr: real -> string): bool
  {
    FlagOf(ClaimedValueAsWritten(llmv, pyStr), dcv, toFloat)
  }

  lemma {:induction false} KeepNumericAll(s: string)
    requires forall k :: 0 <= k < |s| ==> IsNumeric(s[k])
    ensures KeepNumeric(s) == s
  {
    if s != [] {
      KeepNumericAll(s[1..]);
    }
  }

  lemma {:induction false} DigitsNoDots(s: string)
    requires forall k :: 0 <= k < |s| ==> IsDigit(s[k])
    ensures CountDots(s) == 0 && Scale(s) == 0 && DigitsOnly(s) == DigitsValue(s)
  {
    if s != [] {
      DigitsNoDots(s[..|s| - 1]);
    }
  }

  /** The digits-and-dots reading of a run of digits followed by `".0"`, piece by piece. */
  lemma PointZeroParts(digits: string)
    requires forall k :: 0 <= k < |digits| ==> IsDigit(digits[k])
    ensures var s := digits + ".0";
      && (forall k :: 0 <= k < |s| ==> IsNumeric(s[k]))
      && KeepNumeric(s) == s && HasDigit(s)
      && CountDots(s) == 1 && DigitsOnly(s) == DigitsValue(digits) * 10 && Scale(s) == 1
  {
    var dotted := digits + ".";
    var s := dotted + "0";
    assert s == digits + ".0";
    assert forall k :: 0 <= k < |s| ==> IsNumeric(s[k]) by {
      forall k | 0 <= k < |s| ensures IsNumeric(s[k]) {
        if k < |digits| {
          assert s[k] == digits[k];
        }
      }
    }
    DigitsNoDots(digits);
    assert dotted[..|dotted| - 1] == digits && s[..|s| - 1] == dotted;
    assert CountDots(dotted) == 1 && DigitsOnly(dotted) == DigitsValue(digits) && Scale(dotted) == 0;
    assert '.' in dotted by {
      assert dotted[|digits|] == '.';
    }
    assert HasDigit(s) by {
      assert IsDigit(s[|s| - 1]);
    }
    KeepNumericAll(s);
  }

  lemma TenthsOfTens(m: nat)
    ensures (m * 10) as real / Pow10(1) as real == m as real
  {
    assert Pow10(1) == 10;
    assert (m * 10) as real == m as real * 10.0;
  }

  /** A run of digits followed by `".0"` reads as the digits' value. */
  lemma PointZeroReadsBack(digits: string)
    requires forall k :: 0 <= k < |digits| ==> IsDigit(digits[k])
    ensures CleanFloat(digits + ".0") == Some(DigitsValue(digits) as real)
  {
    var s := digits + ".0";
    var m := DigitsValue(digits);
    PointZeroParts(digits);
    assert Decimal(s) == Some((m * 10) as real / Pow10(1) as real);
    TenthsOfTens(m);
  }

  /** The digits and dot of `a + "." + b` counted and read. */
  lemma DottedParts(a: string, b: string)
    requires forall k :: 0 <= k < |a| ==> IsDigit(a[k])
    requires forall k :: 0 <= k < |b| ==> IsDigit(b[k])
    ensures var s := a + "." + b;
      && (forall k :: 0 <= k < |s| ==> IsNumeric(s[k]))
      && CountDots(s) == 1 && Scale(s) == |b|
      && DigitsOnly(s) == DigitsValue(a) * Pow10(|b|) + DigitsValue(b)
  {
    DottedCounts(a, b);
    DottedDigits(a, b);
  }

  lemma DottedNumeric(a: string, b: string)
    requires forall k :: 0 <= k < |a| ==> IsDigit(a[k])
    requires forall k :: 0 <= k < |b| ==> IsDigit(b[k])
    ensures var s := a + "." + b; forall k :: 0 <= k < |s| ==> IsNumeric(s[k])
  {
    var s := a + "." + b;
    forall k | 0 <= k < |s| ensures IsNumeric(s[k]) {
      if k < |a| {
        assert s[k] == a[k];
      } else if k > |a| {
        assert s[k] == b[k - |a| - 1];
      }
    }
  }

  /** One dot, and as many digits after it as `b` has, one digit of `b` at a time. */
  lemma {:induction false} DottedCounts(a: string, b: string)
    requires forall k :: 0 <= k < |a| ==> IsDigit(a[k])
    requires forall k :: 0 <= k < |b| ==> IsDigit(b[k])
    ensures var s := a + "." + b; CountDots(s) == 1 && Scale(s) == |b|
  {
    var s := a + "." + b;
    if b == [] {
      DigitsNoDots(a);
      assert s[..|s| - 1] == a;
    } else {
      var b' := b[..|b| - 1];
      DottedCounts(a, b');
      var s' := a + "." + b';
      assert s[..|s| - 1] == s';
      assert s'[|a|] == '.';
      assert s[|s| - 1] == b[|b| - 1] && b[|b| - 1] != '.';
    }
  }

  /** The digit value of `a + "." + b` with the dot left out, one digit of `b` at a time. */
  lemma {:induction false} DottedDigits(a: string, b: string)
    requires forall k :: 0 <= k < |a| ==> IsDigit(a[k])
    requires forall k :: 0 <= k < |b| ==> IsDigit(b[k])
    ensures var s := a + "." + b;
      && (forall k :: 0 <= k < |s| ==> IsNumeric(s[k]))
      && DigitsOnly(s) == DigitsValue(a) * Pow10(|b|) + DigitsValue(b)
  {
    var s := a + "." + b;
    DottedNumeric(a, b);
    if b == [] {
      DigitsNoDots(a);
      assert s[..|s| - 1] == a;
    } else {
      var b' := b[..|b| - 1];
      DottedDigits(a, b');
      var s' := a + "." + b';
      assert s[..|s| - 1] == s';
      assert b[..|b| - 1] == b';
      assert s[|s| - 1] == b[|b| - 1];
      assert Pow10(|b|) == 10 * Pow10(|b'|);
      calc {
        DigitsOnly(s);
        DigitsOnly(s') * 10 + DigitValue(b[|b| - 1]);
        (DigitsValue(a) * Pow10(|b'|) + DigitsValue(b')) * 10 + DigitValue(b[|b| - 1]);
        { ShiftDigit(DigitsValue(a), Pow10(|b'|), DigitsValue(b')); }
        DigitsValue(a) * Pow10(|b|) + DigitsValue(b);
      }
    }
  }

  lemma ShiftDigit(x: nat, p: nat, y: nat)
    ensures (x * p + y) * 10 == x * (10 * p) + y * 10
  {
  }

  /** Dividing a sum by a positive divisor term by term. */
  lemma SplitQuotient(x: real, y: real, p: real)
    requires p > 0.0
    ensures (x * p + y) / p == x + y / p
  {
    assert (x * p + y) / p * p == x * p + y;
    assert (x + y / p) * p == x * p + y;
  }

  /**
   * `float()` on digits, a dot and digits (`"12.05"`, `"5."`, `".5"`): the whole part plus the
   * fraction's digits over ten to the number of fraction digits.
   */
  lemma DecimalReading(a: string, b: string)
    requires forall k :: 0 <= k < |a| ==> IsDigit(a[k])
    requires forall k :: 0 <= k < |b| ==> IsDigit(b[k])
    requires a != [] || b != []
    ensures var s := a + "." + b;
      && (forall k :: 0 <= k < |s| ==> IsNumeric(s[k]))
      && Decimal(s) == Some(DigitsValue(a) as real + DigitsValue(b) as real / Pow10(|b|) as real)
      && CleanFloat(s) == Decimal(s)
  {
    var s := a + "." + b;
    DottedDecimal(a, b);
    DottedQuotient(a, b);
    SameReading(Decimal(s), DigitsOnly(s) as real / Pow10(|b|) as real,
                DigitsValue(a) as real + DigitsValue(b) as real / Pow10(|b|) as real);
  }

  lemma SameReading(o: Option<real>, u: real, v: real)
    requires o == Some(u) && u == v
    ensures o == Some(v)
  {
  }

  lemma DottedDecimal(a: string, b: string)
    requires forall k :: 0 <= k < |a| ==> IsDigit(a[k])
    requires forall k :: 0 <= k < |b| ==> IsDigit(b[k])
    requires a != [] || b != []
    ensures var s := a + "." + b;
      && (forall k :: 0 <= k < |s| ==> IsNumeric(s[k]))
      && Decimal(s) == Some(DigitsOnly(s) as real / Pow10(|b|) as real)
      && CleanFloat(s) == Decimal(s)
  {
    var s := a + "." + b;
    DottedParts(a, b);
    KeepNumericAll(s);
    assert HasDigit(s) by {
      if a != [] {
        assert IsDigit(s[0]);
      } else {
        assert s[1] == b[0];
      }
    }
  }

  lemma DottedQuotient(a: string, b: string)
    requires forall k :: 0 <= k < |a| ==> IsDigit(a[k])
    requires forall k :: 0 <= k < |b| ==> IsDigit(b[k])
    ensures var s := a + "." + b;
      && (forall k :: 0 <= k < |s| ==> IsNumeric(s[k]))
      && DigitsOnly(s) as real / Pow10(|b|) as real == DigitsValue(a) as real + DigitsValue(b) as real / Pow10(|b|) as real
  {
    DottedParts(a, b);
    ShiftedQuotient(DigitsValue(a), Pow10(|b|), DigitsValue(b), DigitsOnly(a + "." + b));
  }

  lemma ShiftedQuotient(x: nat, p: nat, y: nat, d: nat)
    requires p > 0 && d == x * p + y
    ensures d as real / p as real == x as real + y as real / p as real
  {
    assert d as real == x as real * p as real + y as real;
    SplitQuotient(x as real, y as real, p as real);
  }

  /** Python's positional text of a whole float, `"<digits>.0"`, reads back as that number. */
  lemma PositionalReadsBack(n: nat)
    ensures CleanFloat(NatToString(n) + ".0") == Some(n as real)
  {
    PointZeroReadsBack(NatToString(n));
    NatToStringRoundTrip(n);
  }

  /** A text lacking some character of a pattern does not contain the pattern. */
  lemma MissingChar(s: string, pat: string, i: nat)
    requires i < |pat| && pat[i] !in s
    ensures !Contains(s, pat)
  {
  }

  /**
   * While `str()` prints the product positionally, as Python does for whole numbers below 10^16,
   * the value read back is the product itself.
   */
  lemma AsWrittenAgrees(claim: string, pyStr: real -> string, n: nat)
    requires ClaimedValue(claim) == Some(n as real)
    requires pyStr(n as real) == NatToString(n) + ".0"
    ensures ClaimedValueAsWritten(claim, pyStr) == ClaimedValue(claim)
  {
    match FirstMultiplier(claim, Suffixes)
    case None =>
    case Some(mult) =>
      PositionalReadsBack(n);
      RereadTimes(CleanFloat(ReplaceAll(claim, Million, "")), mult, pyStr, n);
  }

  /** Reading back the printed product gives the product when the printed text reads as it. */
  lemma RereadTimes(x: Option<real>, mult: nat, pyStr: real -> string, n: nat)
    requires Times(x, mult) == Some(n as real)
    requires CleanFloat(pyStr(n as real)) == Some(n as real)
    ensures Reread(x, mult, pyStr) == Times(x, mult)
  {
  }

  /** A non-empty run of digits reads as its value. */
  lemma DigitsReadBack(digits: string)
    requires digits != [] && forall k :: 0 <= k < |digits| ==> IsDigit(digits[k])
    ensures KeepNumeric(digits) == digits
    ensures CleanFloat(digits) == Some(DigitsValue(digits) as real)
  {
    DigitsNoDots(digits);
    KeepNumericAll(digits);
    assert HasDigit(digits) by {
      assert IsDigit(digits[0]);
    }
    assert Pow10(0) == 1;
    var v := DigitsOnly(digits) as real;
    assert v / 1.0 == v;
    assert Decimal(digits) == Some(v / 1.0);
  }

  lemma TenThousandReads()
    ensures CleanFloat("10000") == Some(10000.0)
  {
    assert DigitsValue("10000") == 10000 by {
      assert DigitsValue("1") == 1;
      assert DigitsValue("10") == 10 by {
        assert "10"[..1] == "1";
      }
      assert DigitsValue("100") == 100 by {
        assert "100"[..2] == "10";
      }
      assert DigitsValue("1000") == 1000 by {
        assert "1000"[..3] == "100";
      }
      assert "10000"[..4] == "1000";
    }
    DigitsReadBack("10000");
  }

  /** `"1e+16"` keeps the digits `"116"`. */
  lemma ExponentTextReads()
    ensures CleanFloat("1e+16") == Some(116.0)
  {
    assert KeepNumeric("1e+16") == "116" by {
      var one, sign, sixteen := "1", "e+", "16";
      assert "1e+16" == one + sign + sixteen;
      KeepNumericAll(one);
      KeepNumericAll(sixteen);
      KeepNumericIdle(sign);
      KeepNumericConcat(one, sign);
      KeepNumericConcat(one + sign, sixteen);
    }
    assert DigitsValue("116") == 116 by {
      assert DigitsValue("1") == 1;
      assert DigitsValue("11") == 11 by {
        assert "11"[..1] == "1";
      }
      assert "116"[..2] == "11";
    }
    DigitsReadBack("116");
  }

  /** The claim `"10000 trillion"` names neither millions nor billions, but trillions. */
  lemma TrillionClaim()
    ensures FirstMultiplier("10000 trillion", Suffixes) == Some(1000000000000)
    ensures ReplaceAll("10000 trillion", Million, "") == "10000 trillion"
  {
    var digits, unit := "10000", " trillion";
    var claim := digits + unit;
    assert claim == "10000 trillion";
    MissingChar(claim, Million, 1);
    assert !Contains(claim, " billion") by {
      MissingChar(claim, " billion", 1);
    }
    assert OccursAt(claim, unit, |digits|);
    assert FirstMultiplier(claim, Suffixes[2..]) == Some(1000000000000) by {
      assert Suffixes[2..] == [(unit, 1000000000000)];
    }
    assert FirstMultiplier(claim, Suffixes[1..]) == Some(1000000000000) by {
      assert Suffixes[1..][1..] == Suffixes[2..];
    }
  }

  /** The number of `"10000 trillion"` is 10000. */
  lemma TrillionClaimNumber()
    ensures CleanFloat("10000 trillion") == Some(10000.0)
  {
    var digits, unit := "10000", " trillion";
    assert "10000 trillion" == digits + unit;
    KeepNumericIdle(unit);
    KeepNumericConcat(digits, unit);
    assert KeepNumeric(digits) + [] == KeepNumeric(digits);
    TenThousandReads();
  }

  /**
   * `str()` prints 10^16 as `"1e+16"`, whose digits and dots are `"116"`: a claim of ten thousand
   * trillion is read as 116 and flagged against a fetched value of exactly 10^16.
   */
  lemma ExponentMisread(toFloat: string -> Option<real>, pyStr: real -> string)
    requires pyStr(10000000000000000.0) == "1e+16"
    requires toFloat("10000000000000000") == Some(10000000000000000.0)
    ensures ClaimedValueAsWritten("10000 trillion", pyStr) == Some(116.0)
    ensures ClaimedValue("10000 trillion") == Some(10000000000000000.0)
    ensures FlagValueAsWritten("10000000000000000", "10000 trillion", toFloat, pyStr)
    ensures !FlagValue("10000000000000000", "10000 trillion", toFloat)
  {
    TrillionClaim();
    TrillionClaimNumber();
    ExponentTextReads();
  }

  lemma ClaimedNonNegative(claim: string)
    ensures ClaimedValue(claim).Some? ==> ClaimedValue(claim).value >= 0.0
  {
    match FirstMultiplier(claim, Suffixes)
    case None =>
    case Some(mult) =>
      TimesNonNegative(CleanFloat(ReplaceAll(claim, Million, "")), mult);
  }

  lemma TimesNonNegative(x: Option<real>, mult: nat)
    requires x.Some? ==> x.value >= 0.0
    ensures Times(x, mult).Some? ==> Times(x, mult).value >= 0.0
  {
  }

  /** The threshold test on `pct_diff`, stated without division, for a non-negative claim. */
  lemma PctDiffOutside(d: real, c: real)
    requires c >= 0.0
    ensures (PctDiff(d, c) > DiffThreshold || PctDiff(d, c) < -DiffThreshold) <==>
            (c == 0.0 || d - c > DiffThreshold * c || c - d > DiffThreshold * c)
  {
    if c > 0.0 {
      DivideBoth(d - c, c, DiffThreshold);
    }
  }

  /** Comparing a quotient by a positive divisor is comparing the dividend to the scaled bound. */
  lemma DivideBoth(a: real, c: real, t: real)
    requires c > 0.0
    ensures a / c > t <==> a > t * c
    ensures a / c < -t <==> -a > t * c
  {
    var q := a / c;
    assert q * c == a;
    SignOfProduct(q - t, c);
    SignOfProduct(q + t, c);
    assert (q - t) * c == a - t * c;
    assert (q + t) * c == a + t * c;
  }

  lemma SignOfProduct(x: real, c: real)
    requires c > 0.0
    ensures x * c > 0.0 <==> x > 0.0
    ensures x * c < 0.0 <==> x < 0.0
  {
  }

  /**
   * The flag, stated without division: it is raised exactly when both values read as numbers
   * and either the claim is zero or they differ by more than 5% of the claim.
   */
  lemma FlagValueMeaning(dcv: string, llmv: string, toFloat: string -> Option<real>)
    ensures FlagValue(dcv, llmv, toFloat) <==>
      && ClaimedValue(llmv).Some? && toFloat(dcv).Some?
      && var c, d := ClaimedValue(llmv).value, toFloat(dcv).value;
         c == 0.0 || d - c > DiffThreshold * c || c - d > DiffThreshold * c
  {
    if ClaimedValue(llmv).Some? && toFloat(dcv).Some? {
      ClaimedNonNegative(llmv);
      PctDiffOutside(toFloat(dcv).value, ClaimedValue(llmv).value);
    }
  }

  /**
   * The flag as written means the same test on the value read back from the printed product:
   * raised for a zero claim or a fetched value more than 5% away.
   */
  lemma FlagValueAsWrittenMeaning(dcv: string, llmv: string, toFloat: string -> Option<real>, pyStr: real -> string)
    ensures FlagValueAsWritten(dcv, llmv, toFloat, pyStr) <==>
      && ClaimedValueAsWritten(llmv, pyStr).Some? && toFloat(dcv).Some?
      && var c, d := ClaimedValueAsWritten(llmv, pyStr).value, toFloat(dcv).value;
         c == 0.0 || d - c > DiffThreshold * c || c - d > DiffThreshold * c
  {
    var claimed := ClaimedValueAsWritten(llmv, pyStr);
    if claimed.Some? && toFloat(dcv).Some? {
      assert claimed.value >= 0.0;
      PctDiffOutside(toFloat(dcv).value, claimed.value);
    }
  }

  /** A difference of exactly 5% either way is not flagged. */
  lemma BoundaryNotFlagged(dcv: string, llmv: string, toFloat: string -> Option<real>)
    requires ClaimedValue(llmv).Some? && ClaimedValue(llmv).value > 0.0 && toFloat(dcv).Some?
    requires toFloat(dcv).value == ClaimedValue(llmv).value * 1.05 || toFloat(dcv).value == ClaimedValue(llmv).value * 0.95
    ensures !FlagValue(dcv, llmv, toFloat)
  {
    FlagValueMeaning(dcv, llmv, toFloat);
  }

  /** A claim that reads as zero is always flagged, whatever number was fetched, zero included. */
  lemma ZeroClaimFlagged(dcv: string, llmv: string, toFloat: string -> Option<real>)
    requires ClaimedValue(llmv) == Some(0.0) && toFloat(dcv).Some?
    ensures FlagValue(dcv, llmv, toFloat)
  {
  }

  const Million: string := " million"

  lemma MillionNotNumeric()
    ensures KeepNumeric(Million) == []
  {
    KeepNumericIdle(Million);
  }

  /** Removing a word that holds no digit or dot never changes the digits and dots of a text. */
  lemma {:induction false} ReplaceKeepsNumber(s: string, pat: string)
    requires pat != [] && KeepNumeric(pat) == []
    ensures KeepNumeric(ReplaceAll(s, pat, "")) == KeepNumeric(s)
    decreases |s|
  {
    var f := Find(s, pat, 0);
    if f.Some? {
      var p := f.value;
      var head, tail := s[..p], s[p + |pat|..];
      var rest := ReplaceAll(tail, pat, "");
      ReplaceAllStep(s, pat, p);
      ReplaceKeepsNumber(tail, pat);
      KeepNumericConcat(head, rest);
      KeepNumericConcat(head, pat);
      KeepNumericConcat(head + pat, tail);
      assert KeepNumeric(head) + [] == KeepNumeric(head);
    }
  }

  /** So `_flag_value` removing `" million"` also for a billion or trillion claim reads the same number. */
  lemma ReplaceMillionKeepsNumber(s: string)
    ensures CleanFloat(ReplaceAll(s, Million, "")) == CleanFloat(s)
  {
    MillionNotNumeric();
    ReplaceKeepsNumber(s, Million);
  }

  /**
   * The claimed value as intended: with a unit word, the claim's number times the word's
   * multiplier, and none when the claim holds no number.
   */
  lemma ClaimedValueScaled(claim: string, mult: nat)
    requires FirstMultiplier(claim, Suffixes) == Some(mult)
    ensures ClaimedValue(claim) == Times(CleanFloat(claim), mult)
  {
    ReplaceMillionKeepsNumber(claim);
  }
}
