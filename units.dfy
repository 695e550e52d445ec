/**
 * `human_to_bytes`, the size-token parser: `UNIT_RE` finds the first run of
 * digits and dots and an optional B-terminated unit after it; the run is read
 * by `float()` and scaled by a power of 1024 chosen from the unit.
 *
 * The number is kept exact (its digits and the count of digits after the
 * point), so `int(val * 1024**k)` becomes the floor of an exact quotient.
 */
module Units {
  import opened Wrappers
  import opened Text

  /** `[0-9\.]`. */
  predicate IsNumberChar(c: char) { IsDigit(c) || c == '.' }

  predicate NotNumberChar(c: char) { !IsNumberChar(c) }

  predicate NotSpace(c: char) { !IsSpace(c) }

  predicate IsDot(c: char) { c == '.' }

  /** `[KMGT]` in a pattern compiled with `re.I`. */
  predicate IsScaleLetter(c: char) { ToUpper(c) in "KMGT" }

  /**
   * The text group 2 of `UNIT_RE`, `([KMGT]?i?B)?`, captures at position `p`
   * (after the run and the whitespace that follows it), or "" when the group
   * does not take part. The alternatives are those the regex engine tries, in
   * its order; at most one of them can succeed.
   */
  function UnitAt(s: string, p: nat): string
    requires p <= |s|
  {
    var r := s[p..];
    if |r| >= 3 && IsScaleLetter(r[0]) && ToUpper(r[1]) == 'I' && ToUpper(r[2]) == 'B' then r[..3]
    else if |r| >= 2 && IsScaleLetter(r[0]) && ToUpper(r[1]) == 'B' then r[..2]
    else if |r| >= 2 && ToUpper(r[0]) == 'I' && ToUpper(r[1]) == 'B' then r[..2]
    else if |r| >= 1 && ToUpper(r[0]) == 'B' then r[..1]
    else []
  }

  /** The power of 1024 for an upper-cased unit: K, M, G and T are tested as substrings, in that order. */
  function Exponent(unit: string): nat {
    if 'K' in unit then 1 else if 'M' in unit then 2 else if 'G' in unit then 3 else if 'T' in unit then 4 else 0
  }

  /** A decimal number `digits / 10^scale`. */
  datatype Decimal = Decimal(digits: string, scale: nat)

  /**
   * `float(run)` for a run of digits and dots: an error unless the run has at
   * most one dot and at least one digit.
   */
  function ParseFloat(run: string): (r: Option<Decimal>)
    requires forall x :: 0 <= x < |run| ==> IsNumberChar(run[x])
    ensures r.Some? ==> AllDigits(r.value.digits)
  {
    var d := FindFrom(run, 0, IsDot);
    var whole := run[..d];
    var frac := if d < |run| then run[d + 1..] else "";
    if '.' in frac || whole + frac == [] then None
    else
      assert AllDigits(whole + frac) by {
        forall x | 0 <= x < |whole + frac| ensures IsDigit((whole + frac)[x]) {
          if x < |whole| {
            assert (whole + frac)[x] == run[x] && !IsDot(run[x]);
            assert IsNumberChar(run[x]);
            assert IsDigit(run[x]);
          } else {
            var y := x - |whole|;
            assert d < |run| && frac[y] == run[d + 1 + y];
            assert frac[y] != '.' && IsNumberChar(run[d + 1 + y]);
            assert (whole + frac)[x] == frac[y];
            assert IsDigit(frac[y]);
          }
        }
      }
      Some(Decimal(whole + frac, |frac|))
  }

  /** `human_to_bytes(s)`; `Err` is the `ValueError` that `float()` raises. */
  function HumanToBytes(s: string): Result<nat>
  {
    if s == [] then Ok(0)
    else
      var i := FindFrom(s, 0, IsNumberChar);
      // No match of UNIT_RE: int(s) needs a digit, so it raises and the except returns 0.
      if i == |s| then Ok(0)
      else
        var j := FindFrom(s, i, NotNumberChar);
        var run := s[i..j];
        match ParseFloat(run)
        case None => Err("could not convert string to float: '" + run + "'")
        case Some(d) =>
          var unit := Upper(UnitAt(s, FindFrom(s, j, NotSpace)));
          Ok(Scaled(d, Exponent(unit)))
  }

  /** `int(val * 1024**k)`, exactly: the floor of `digits * 1024^k / 10^scale`. */
  function Scaled(d: Decimal, k: nat): nat
    requires AllDigits(d.digits)
  {
    FloorDiv(Product(DigitsValue(d.digits), Pow(1024, k)), Pow(10, d.scale))
  }

  // `Product` and `FloorDiv` only keep the nonlinear `*` and `/` out of the
  // solver's sight in the proofs that unfold `Scaled`.
  function Product(a: nat, b: nat): nat { a * b }

  function FloorDiv(n: nat, t: nat): nat
    requires t > 0
  {
    n / t
  }

  // ---------------------------------------------------------------------------
  // Reference description

  /** `s[i..j]` is the first maximal run of digits and dots in `s`: what `UNIT_RE.search` captures in group 1. */
  ghost predicate FirstRunAt(s: string, i: nat, j: nat) {
    i < j <= |s|
    && (forall x :: 0 <= x < i ==> !IsNumberChar(s[x]))
    && (forall x :: i <= x < j ==> IsNumberChar(s[x]))
    && (j == |s| || !IsNumberChar(s[j]))
  }

  /** `s[j..p]` is the whitespace `\s*` that `UNIT_RE` skips between the number and the unit. */
  ghost predicate BlanksUntil(s: string, j: nat, p: nat) {
    j <= p <= |s|
    && (forall x :: j <= x < p ==> IsSpace(s[x]))
    && (p == |s| || !IsSpace(s[p]))
  }

  /** What `float()` accepts among runs of digits and dots: no two dots, and some digit. */
  ghost predicate ValidFloat(t: string) {
    (forall x, y :: 0 <= x < y < |t| ==> !(t[x] == '.' && t[y] == '.'))
    && (exists x :: 0 <= x < |t| && IsDigit(t[x]))
  }

  /** The unit's power as the position of its scale letter in "KMGT", when the letter is followed by B or iB. */
  ghost function UnitPower(s: string, p: nat): nat
    requires p <= |s|
  {
    if p < |s| && IsScaleLetter(s[p])
       && ((p + 1 < |s| && ToUpper(s[p + 1]) == 'B')
           || (p + 2 < |s| && ToUpper(s[p + 1]) == 'I' && ToUpper(s[p + 2]) == 'B'))
    then
      var c := ToUpper(s[p]);
      if c == 'K' then 1 else if c == 'M' then 2 else if c == 'G' then 3 else 4
    else 0
  }

  // ---------------------------------------------------------------------------
  // Properties

  /** An empty token, or one without any digit or dot, is worth 0 bytes. */
  lemma HumanToBytesNoNumber(s: string)
    requires forall x :: 0 <= x < |s| ==> !IsNumberChar(s[x])
    ensures HumanToBytes(s) == Ok(0)
  {
  }

  /** The unit only scales when a K, M, G or T is followed by B or iB (in any case); "1K" is one byte. */
  lemma UnitExponent(s: string, p: nat)
    requires p <= |s|
    ensures Exponent(Upper(UnitAt(s, p))) == UnitPower(s, p)
  {
    var u := UnitAt(s, p);
    var c := if p < |s| then ToUpper(s[p]) else ' ';
    if |u| >= 2 && IsScaleLetter(s[p]) {
      assert Upper(u)[0] == c;
      assert forall x :: 1 <= x < |u| ==> Upper(u)[x] in "IB";
      assert 'K' in Upper(u) <==> c == 'K';
      assert 'M' in Upper(u) <==> c == 'M';
      assert 'G' in Upper(u) <==> c == 'G';
    } else {
      assert forall x :: 0 <= x < |u| ==> Upper(u)[x] in "IB";
    }
  }

  /** The implementation finds the run the regex captures. */
  lemma RunFound(s: string, i: nat, j: nat)
    requires FirstRunAt(s, i, j)
    ensures s != [] && FindFrom(s, 0, IsNumberChar) == i && FindFrom(s, i, NotNumberChar) == j
  {
    FindFromIs(s, 0, IsNumberChar, i);
    FindFromIs(s, i, NotNumberChar, j);
  }

  /** `float()` raises exactly on the runs it does not accept. */
  lemma ParseFloatAccepts(t: string)
    requires forall x :: 0 <= x < |t| ==> IsNumberChar(t[x])
    ensures ParseFloat(t).Some? <==> ValidFloat(t)
  {
    var d := FindFrom(t, 0, IsDot);
    var whole := t[..d];
    var frac := if d < |t| then t[d + 1..] else "";
    if ParseFloat(t).Some? {
      forall x | 0 <= x < |t| && x != d ensures t[x] != '.' {
        if x > d { assert t[x] == frac[x - d - 1]; }
      }
      if |whole| > 0 {
        assert IsDigit(t[0]);
      } else {
        assert t[d + 1] == frac[0];
        assert IsDigit(t[d + 1]);
      }
    } else if '.' in frac {
      var y :| 0 <= y < |frac| && frac[y] == '.';
      assert t[d] == '.' && t[d + 1 + y] == '.';
    } else {
      assert |t| <= 1 && (|t| == 1 ==> t[0] == '.');
    }
  }

  /** A run that `float()` does not accept makes `human_to_bytes` raise, with Python's message. */
  lemma HumanToBytesRaises(s: string, i: nat, j: nat)
    requires FirstRunAt(s, i, j)
    ensures HumanToBytes(s).Err? <==> !ValidFloat(s[i..j])
    ensures HumanToBytes(s).Err? ==> HumanToBytes(s).error == "could not convert string to float: '" + s[i..j] + "'"
  {
    RunFound(s, i, j);
    ParseFloatAccepts(s[i..j]);
  }

  /** The value of the digits `a + b` is that of `a` shifted left by `|b|` places, plus that of `b`. */
  lemma {:induction false} DigitsValueAppend(a: string, b: string)
    requires AllDigits(a) && AllDigits(b)
    ensures AllDigits(a + b)
    ensures DigitsValue(a + b) == DigitsValue(a) * Pow(10, |b|) + DigitsValue(b)
    decreases |b|
  {
    if b == [] {
      assert a + b == a;
    } else {
      var b' := b[..|b| - 1];
      var d := b[|b| - 1] as int - '0' as int;
      assert (a + b)[..|a + b| - 1] == a + b';
      assert (a + b)[|a + b| - 1] == b[|b| - 1];
      DigitsValueAppend(a, b');
      var x, y, q := DigitsValue(a), DigitsValue(b'), Pow(10, |b'|);
      assert DigitsValue(a + b) == (x * q + y) * 10 + d;
      assert DigitsValue(b) == y * 10 + d;
      assert Pow(10, |b|) == q * 10;
      ShiftDigit(x, q, y, d);
    }
  }

  /** Appending a digit to `a.b'` multiplies the shift by ten. */
  lemma ShiftDigit(x: int, q: int, y: int, d: int)
    ensures (x * q + y) * 10 + d == x * (q * 10) + (y * 10 + d)
  {
  }

  /** Integer division rounds down: `n / t` is the largest `r` with `r * t <= n`. */
  lemma DivBounds(n: nat, t: nat)
    requires t > 0
    ensures (n / t) * t <= n < (n / t + 1) * t
  {
  }

  /**
   * The scaled value `r` of the digits `a + b` over `10^|b|` is the exact
   * product of the numeral `a.b` with `m`, rounded down.
   */
  lemma FloorBounds(x: nat, w: nat, t: nat, m: nat, n: nat, r: nat)
    requires t > 0 && n == x * t + w && r == n * m / t
    ensures r * t <= (x * t + w) * m < (r + 1) * t
  {
    DivBounds(n * m, t);
  }

  /**
   * `Scaled` is the numeral `a.b` times `1024^k`, rounded down: `r` is the
   * largest integer with `r * 10^|b| <= (a * 10^|b| + b) * 1024^k`.
   */
  lemma ScaledBounds(a: string, b: string, k: nat, r: nat)
    requires AllDigits(a) && AllDigits(b) && AllDigits(a + b)
    requires r == Scaled(Decimal(a + b, |b|), k)
    ensures r * Pow(10, |b|) <= (DigitsValue(a) * Pow(10, |b|) + DigitsValue(b)) * Pow(1024, k) < (r + 1) * Pow(10, |b|)
  {
    DigitsValueAppend(a, b);
    ScaledIs(a + b, |b|, k);
    FloorBounds(DigitsValue(a), DigitsValue(b), Pow(10, |b|), Pow(1024, k), DigitsValue(a + b), r);
  }

  lemma ScaledIs(c: string, e: nat, k: nat)
    requires AllDigits(c)
    ensures Scaled(Decimal(c, e), k) == DigitsValue(c) * Pow(1024, k) / Pow(10, e)
  {
  }

  /** `float()` reads `a.b` (or `a`) as the digits of `a + b` over `10^|b|`. */
  lemma ParseFloatDecimal(run: string, a: string, b: string)
    requires AllDigits(a) && AllDigits(b) && a + b != []
    requires run == a + "." + b || (b == [] && run == a)
    ensures forall x :: 0 <= x < |run| ==> IsNumberChar(run[x])
    ensures ParseFloat(run) == Some(Decimal(a + b, |b|))
  {
    var dot := FindFrom(run, 0, IsDot);
    if run == a + "." + b {
      FindFromIs(run, 0, IsDot, |a|);
      assert run[dot + 1..] == b;
    } else {
      FindFromIs(run, 0, IsDot, |run|);
    }
    assert run[..dot] == a;
  }

  /** How `human_to_bytes` ends when the run it finds is accepted by `float()` and the unit starts at `p`. */
  lemma HumanToBytesAccepted(s: string, i: nat, j: nat, p: nat, d: Decimal)
    requires FirstRunAt(s, i, j) && BlanksUntil(s, j, p)
    requires forall x :: 0 <= x < |s[i..j]| ==> IsNumberChar(s[i..j][x])
    requires ParseFloat(s[i..j]) == Some(d)
    ensures HumanToBytes(s) == Ok(Scaled(d, Exponent(Upper(UnitAt(s, p)))))
  {
    RunFound(s, i, j);
    FindFromIs(s, j, NotSpace, p);
  }

  /**
   * For a first run `a.b` (or `a`) that `float()` accepts, followed by blanks
   * up to position `p` where a unit of power `k` starts, `human_to_bytes` is
   * the numeral scaled by `1024^k` and rounded down (`ScaledBounds` says what
   * `Scaled` means).
   */
  lemma HumanToBytesValue(s: string, i: nat, j: nat, p: nat, k: nat, a: string, b: string)
    requires FirstRunAt(s, i, j) && BlanksUntil(s, j, p) && k == UnitPower(s, p)
    requires AllDigits(a) && AllDigits(b) && a + b != []
    requires s[i..j] == a + "." + b || (b == [] && s[i..j] == a)
    ensures AllDigits(a + b)
    ensures HumanToBytes(s) == Ok(Scaled(Decimal(a + b, |b|), k))
  {
    ParseFloatDecimal(s[i..j], a, b);
    HumanToBytesAccepted(s, i, j, p, Decimal(a + b, |b|));
    UnitExponent(s, p);
  }

  /** "2MiB" is two mebibytes. */
  lemma MebibyteExample()
    ensures HumanToBytes("2MiB") == Ok(2097152)
  {
    assert "2MiB"[0..1] == "2" + "" && "2" + "" == "2";
    HumanToBytesValue("2MiB", 0, 1, 1, 2, "2", "");
    ScaledIs("2", 0, 2);
    assert DigitsValue("2") == 2 && Pow(1024, 2) == 1048576 && Pow(10, 0) == 1;
  }

  /** "1K" is one byte: without a B the K is not a unit. */
  lemma BareLetterExample()
    ensures HumanToBytes("1K") == Ok(1)
  {
    assert "1K"[0..1] == "1" + "" && "1" + "" == "1";
    HumanToBytesValue("1K", 0, 1, 1, 0, "1", "");
    ScaledIs("1", 0, 0);
    assert DigitsValue("1") == 1 && Pow(1024, 0) == 1 && Pow(10, 0) == 1;
  }

  /** "1.2.3" has two dots, so `float()` raises. */
  lemma TwoDotsExample()
    ensures HumanToBytes("1.2.3") == Err("could not convert string to float: '1.2.3'")
  {
    var s := "1.2.3";
    assert FirstRunAt(s, 0, 5) by {
      forall x | 0 <= x < 5 ensures IsNumberChar(s[x]) { }
    }
    assert !ValidFloat(s) by { assert s[1] == '.' && s[3] == '.'; }
    HumanToBytesRaises(s, 0, 5);
    assert s[0..5] == s;
  }
}
