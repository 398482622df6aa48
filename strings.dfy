/** Text primitives the parsers rely on, each stated as the Python built-in it stands for
    (`str.split`, `str.lower`, `str.strip`, `str.replace`, `in`, `int`, `float`, `str(n)`). */
module Strings {
  import opened Wrappers

  predicate IsDigit(c: char) { '0' <= c <= '9' }

  predicate AllDigits(s: string) { forall i :: 0 <= i < |s| ==> IsDigit(s[i]) }

  function DigitValue(c: char): nat requires IsDigit(c) { (c as int - '0' as int) as nat }

  function DigitChar(d: nat): char requires d < 10 { ('0' as int + d) as char }

  /** Decimal value of a digit string, most significant digit first. */
  function DigitsValue(s: string): nat
    requires AllDigits(s)
  {
    if |s| == 0 then 0 else DigitsValue(s[..|s| - 1]) * 10 + DigitValue(s[|s| - 1])
  }

  /** `int(s)` restricted to unsigned decimal literals: it raises unless `s` is a non-empty digit run. */
  function ParseInt(s: string): (r: Option<nat>)
    ensures r.Some? <==> |s| > 0 && AllDigits(s)
  {
    if |s| > 0 && AllDigits(s) then Some(DigitsValue(s)) else None
  }

  /** `str(n)` for a natural number. */
  function NatToString(n: nat): (s: string)
    ensures |s| > 0 && AllDigits(s)
    decreases n
  {
    if n < 10 then [DigitChar(n)] else NatToString(n / 10) + [DigitChar(n % 10)]
  }

  lemma {:induction false} NatToStringRoundTrip(n: nat)
    ensures DigitsValue(NatToString(n)) == n
    ensures ParseInt(NatToString(n)) == Some(n)
    decreases n
  {
    var s := NatToString(n);
    if n >= 10 {
      NatToStringRoundTrip(n / 10);
      assert s[..|s| - 1] == NatToString(n / 10);
    }
  }

  function Pow(b: nat, e: nat): (r: nat)
    ensures b > 0 ==> r > 0
  {
    if e == 0 then 1 else b * Pow(b, e - 1)
  }

  /** `s.split(c)`: the maximal pieces between occurrences of `c`; never empty. */
  function Split(s: string, c: char): (r: seq<string>)
    ensures |r| >= 1
  {
    if |s| == 0 then [""]
    else if s[0] == c then [""] + Split(s[1..], c)
    else
      var rest := Split(s[1..], c);
      [[s[0]] + rest[0]] + rest[1..]
  }

  lemma {:induction false} SplitNoSeparator(s: string, c: char)
    requires c !in s
    ensures Split(s, c) == [s]
  {
    if |s| > 0 {
      SplitNoSeparator(s[1..], c);
      assert [s[0]] + s[1..] == s;
    }
  }

  /** Splitting `h + c + t` where `h` holds no separator yields `h` followed by the pieces of `t`. */
  lemma {:induction false} SplitCons(h: string, c: char, t: string)
    requires c !in h
    ensures Split(h + [c] + t, c) == [h] + Split(t, c)
  {
    if |h| == 0 {
      assert h + [c] + t == [c] + t;
      assert ([c] + t)[1..] == t;
    } else {
      var s := h + [c] + t;
      assert s[0] == h[0];
      assert s[1..] == h[1..] + [c] + t;
      SplitCons(h[1..], c, t);
      assert [h[0]] + h[1..] == h;
    }
  }

  /** Every piece is free of the separator. */
  lemma {:induction false} SplitPiecesHaveNoSeparator(s: string, c: char)
    ensures forall i :: 0 <= i < |Split(s, c)| ==> c !in Split(s, c)[i]
  {
    if |s| > 0 {
      SplitPiecesHaveNoSeparator(s[1..], c);
      var rest := Split(s[1..], c);
      if s[0] != c {
        assert c !in rest[0];
        assert c !in [s[0]] + rest[0];
        assert forall i :: 1 <= i < |Split(s, c)| ==> Split(s, c)[i] == rest[i];
      } else {
        assert forall i :: 1 <= i < |Split(s, c)| ==> Split(s, c)[i] == rest[i - 1];
      }
    }
  }

  /** `c.lower()` for ASCII letters. */
  function LowerChar(c: char): char
  {
    if 'A' <= c <= 'Z' then (c as int + 32) as char else c
  }

  /** `s.lower()`, ASCII case mapping. */
  function Lower(s: string): (r: string)
    ensures |r| == |s|
    ensures forall i :: 0 <= i < |s| ==> r[i] == LowerChar(s[i])
  {
    if |s| == 0 then "" else [LowerChar(s[0])] + Lower(s[1..])
  }

  lemma LowerIdempotent(s: string)
    ensures Lower(Lower(s)) == Lower(s)
  {
  }

  /** `p` is a prefix of `s`. */
  predicate IsPrefix(p: string, s: string) { |p| <= |s| && s[..|p|] == p }

  /** The substring test `t in s`. */
  predicate Contains(s: string, t: string)
  {
    IsPrefix(t, s) || (|s| > 0 && Contains(s[1..], t))
  }

  /** `s.strip(c)`: drop leading and trailing copies of `c`. */
  function StripLeft(s: string, c: char): (r: string)
    ensures |r| <= |s| && (|r| > 0 ==> r[0] != c)
  {
    if |s| > 0 && s[0] == c then StripLeft(s[1..], c) else s
  }

  function StripRight(s: string, c: char): (r: string)
    ensures |r| <= |s| && (|r| > 0 ==> r[|r| - 1] != c)
  {
    if |s| > 0 && s[|s| - 1] == c then StripRight(s[..|s| - 1], c) else s
  }

  function Strip(s: string, c: char): string
  {
    StripRight(StripLeft(s, c), c)
  }

  /** `s.replace(p, "")`: one left-to-right pass removing non-overlapping occurrences of `p`. */
  function RemoveAll(s: string, p: string): (r: string)
    requires |p| > 0
    ensures |r| <= |s|
  {
    if |s| == 0 then ""
    else if IsPrefix(p, s) then RemoveAll(s[|p|..], p)
    else [s[0]] + RemoveAll(s[1..], p)
  }

  /** Deleting every occurrence of the characters in `cs`, as chained `replace(c, "")` calls do. */
  function RemoveChars(s: string, cs: set<char>): (r: string)
    ensures forall i :: 0 <= i < |r| ==> r[i] !in cs
  {
    if |s| == 0 then "" else (if s[0] in cs then "" else [s[0]]) + RemoveChars(s[1..], cs)
  }

  /** An exact decimal `digits / 10^scale`, the value `float(s)` approximates. */
  datatype Decimal = Decimal(digits: nat, scale: nat)

  function CountChar(s: string, c: char): nat
  {
    if |s| == 0 then 0 else (if s[0] == c then 1 else 0) + CountChar(s[1..], c)
  }

  predicate DecimalChars(s: string) { forall i :: 0 <= i < |s| ==> IsDigit(s[i]) || s[i] == '.' }

  /** `float(s)` restricted to unsigned decimal literals: digits with at most one point and at least
      one digit ("75", "75.0", ".5", "5."); anything else raises. */
  function ParseDecimal(s: string): (r: Option<Decimal>)
    ensures r.Some? ==> |s| > 0
  {
    if |s| > 0 && DecimalChars(s) && CountChar(s, '.') <= 1 && RemoveChars(s, {'.'}) != "" then
      var whole := RemoveChars(s, {'.'});
      assert AllDigits(whole) by { RemoveChars_Digits(s); }
      Some(Decimal(DigitsValue(whole), FractionLength(s)))
    else None
  }

  /** The number of characters after the decimal point (0 when there is none). */
  function FractionLength(s: string): nat
  {
    if |s| == 0 then 0 else if s[0] == '.' then |s| - 1 else FractionLength(s[1..])
  }

  lemma {:induction false} RemoveChars_Digits(s: string)
    requires DecimalChars(s)
    ensures AllDigits(RemoveChars(s, {'.'}))
  {
    if |s| > 0 {
      RemoveChars_Digits(s[1..]);
    }
  }

  /** `int(x * factor)` for the exact decimal `x` (truncation toward zero; values are non-negative). */
  function ScaleTruncate(d: Decimal, factor: nat): nat
  {
    (d.digits * factor) / Pow(10, d.scale)
  }

  lemma {:induction false} DigitsAreDecimal(s: string)
    requires |s| > 0 && AllDigits(s)
    ensures ParseDecimal(s) == Some(Decimal(DigitsValue(s), 0))
  {
    NoDotsUnchanged(s);
    NoDotsFraction(s);
  }

  lemma {:induction false} NoDotsUnchanged(s: string)
    requires AllDigits(s)
    ensures RemoveChars(s, {'.'}) == s && CountChar(s, '.') == 0 && DecimalChars(s)
  {
    if |s| > 0 {
      NoDotsUnchanged(s[1..]);
      assert [s[0]] + s[1..] == s;
    }
  }

  lemma {:induction false} NoDotsFraction(s: string)
    requires AllDigits(s)
    ensures FractionLength(s) == 0
  {
    if |s| > 0 {
      NoDotsFraction(s[1..]);
    }
  }

  lemma {:induction false} RemoveCharsAppend(a: string, b: string, cs: set<char>)
    ensures RemoveChars(a + b, cs) == RemoveChars(a, cs) + RemoveChars(b, cs)
  {
    if |a| > 0 {
      assert (a + b)[1..] == a[1..] + b;
      RemoveCharsAppend(a[1..], b, cs);
    } else {
      assert a + b == b;
    }
  }

  lemma {:induction false} CountCharAppend(a: string, b: string, c: char)
    ensures CountChar(a + b, c) == CountChar(a, c) + CountChar(b, c)
  {
    if |a| > 0 {
      assert (a + b)[1..] == a[1..] + b;
      CountCharAppend(a[1..], b, c);
    } else {
      assert a + b == b;
    }
  }

  lemma {:induction false} FractionAfterPoint(a: string, b: string)
    requires AllDigits(a)
    ensures FractionLength(a + "." + b) == |b|
  {
    if |a| > 0 {
      assert (a + "." + b)[1..] == a[1..] + "." + b;
      FractionAfterPoint(a[1..], b);
    } else {
      assert a + "." + b == "." + b;
    }
  }

  /** `float("a.b")` for digit strings `a` and `b`, not both empty: the digits of `a` then `b`,
      scaled by the length of `b`. */
  lemma ParseDecimalPoint(a: string, b: string)
    requires AllDigits(a) && AllDigits(b) && |a| + |b| > 0
    ensures AllDigits(a + b)
    ensures ParseDecimal(a + "." + b) == Some(Decimal(DigitsValue(a + b), |b|))
  {
    var s := a + "." + b;
    var dot: set<char> := {'.'};
    assert RemoveChars(s, dot) == a + b by {
      NoDotsUnchanged(a);
      NoDotsUnchanged(b);
      RemoveCharsAppend(a + ".", b, dot);
      RemoveCharsAppend(a, ".", dot);
      assert RemoveChars(".", dot) == "" by {
        assert "."[0] in dot;
        assert "."[1..] == "";
      }
      assert RemoveChars(a + ".", dot) == a;
    }
    assert CountChar(s, '.') == 1 by {
      NoDotsUnchanged(a);
      NoDotsUnchanged(b);
      CountCharAppend(a + ".", b, '.');
      CountCharAppend(a, ".", '.');
      assert CountChar(".", '.') == 1;
    }
    assert FractionLength(s) == |b| by {
      FractionAfterPoint(a, b);
    }
    assert DecimalChars(s) by {
      forall i | 0 <= i < |s| ensures IsDigit(s[i]) || s[i] == '.' {
        if i < |a| {
          assert s[i] == a[i];
        } else if i > |a| {
          assert s[i] == b[i - |a| - 1];
        }
      }
    }
    assert AllDigits(a + b) by {
      forall i | 0 <= i < |a + b| ensures IsDigit((a + b)[i]) {
        if i >= |a| {
          assert (a + b)[i] == b[i - |a|];
        }
      }
    }
  }
}
