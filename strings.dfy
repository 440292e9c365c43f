/** String helpers shared by the whole model: JavaScript truthiness,
    `includes`, code-point lexicographic order, decimal formatting and
    `join`. */
module Strings {
  import opened Wrappers

  /** JavaScript truthiness of a `string | null`: absent and "" are falsy. */
  predicate Present(s: Option<string>)
  {
    s.Some? && s.value != ""
  }

  /** `s.includes(sub)`. */
  predicate Contains(s: string, sub: string)
  {
    sub <= s || (|s| > 0 && Contains(s[1..], sub))
  }

  /** A string contains every piece it is built from. */
  lemma {:induction false} ContainsMiddle(a: string, b: string, c: string)
    ensures Contains(a + b + c, b)
  {
    if a == [] {
      assert a + b + c == b + c;
    } else {
      assert (a + b + c)[1..] == a[1..] + b + c;
      ContainsMiddle(a[1..], b, c);
    }
  }

  /** `s.endsWith(suffix)`. */
  predicate EndsWith(s: string, suffix: string)
  {
    |suffix| <= |s| && s[|s| - |suffix|..] == suffix
  }

  /** A space-free head followed by a tail that starts with a space: the
      whole starts with a space exactly when the head is empty. */
  lemma FirstSpace(a: string, m: string)
    requires ' ' !in a && |m| > 0 && m[0] == ' '
    ensures (a + m)[0] == ' ' <==> a == []
  {
    if a != [] {
      assert (a + m)[0] == a[0];
    }
  }

  /** Two strings that each run up to a first space split the same way:
      a space-free head followed by a tail starting with a space is read
      back uniquely. */
  lemma {:induction false} SplitAtSpace(a1: string, m1: string, a2: string, m2: string)
    requires ' ' !in a1 && ' ' !in a2
    requires |m1| > 0 && m1[0] == ' ' && |m2| > 0 && m2[0] == ' '
    requires a1 + m1 == a2 + m2
    ensures a1 == a2 && m1 == m2
  {
    FirstSpace(a1, m1);
    FirstSpace(a2, m2);
    if a1 == [] {
      assert a1 + m1 == m1 && a2 + m2 == m2;
    } else {
      assert (a1 + m1)[1..] == a1[1..] + m1 && (a2 + m2)[1..] == a2[1..] + m2;
      assert a1[0] == (a1 + m1)[0] == (a2 + m2)[0] == a2[0];
      assert ' ' !in a1[1..] && ' ' !in a2[1..];
      SplitAtSpace(a1[1..], m1, a2[1..], m2);
      assert a1 == [a1[0]] + a1[1..] && a2 == [a2[0]] + a2[1..];
    }
  }

  // ---------------------------------------------------------------------
  // Lexicographic order (the month and timestamp comparisons)
  // ---------------------------------------------------------------------

  /** `a` sorts before or equal to `b`, character by character. */
  predicate LexLe(a: string, b: string)
  {
    if a == [] then true
    else if b == [] then false
    else if a[0] != b[0] then a[0] < b[0]
    else LexLe(a[1..], b[1..])
  }

  lemma {:induction false} LexLeRefl(a: string)
    ensures LexLe(a, a)
  {
    if a != [] {
      LexLeRefl(a[1..]);
    }
  }

  lemma {:induction false} LexLeTotal(a: string, b: string)
    ensures LexLe(a, b) || LexLe(b, a)
  {
    if a != [] && b != [] && a[0] == b[0] {
      LexLeTotal(a[1..], b[1..]);
    }
  }

  lemma {:induction false} LexLeTransitive(a: string, b: string, c: string)
    requires LexLe(a, b) && LexLe(b, c)
    ensures LexLe(a, c)
  {
    if a != [] && b != [] && c != [] && a[0] == b[0] && b[0] == c[0] {
      LexLeTransitive(a[1..], b[1..], c[1..]);
    }
  }

  /** Comparing two strings that start with prefixes of the same length
      compares the prefixes first and the rest only on a tie. */
  lemma {:induction false} LexLeConcat(p1: string, s1: string, p2: string, s2: string)
    requires |p1| == |p2|
    ensures LexLe(p1 + s1, p2 + s2) <==> (p1 != p2 && LexLe(p1, p2)) || (p1 == p2 && LexLe(s1, s2))
  {
    if p1 == [] {
      assert p1 + s1 == s1 && p2 + s2 == s2;
    } else {
      assert (p1 + s1)[0] == p1[0] && (p2 + s2)[0] == p2[0];
      assert (p1 + s1)[1..] == p1[1..] + s1 && (p2 + s2)[1..] == p2[1..] + s2;
      if p1[0] == p2[0] {
        LexLeConcat(p1[1..], s1, p2[1..], s2);
        assert p1 == [p1[0]] + p1[1..] && p2 == [p2[0]] + p2[1..];
      }
    }
  }

  // ---------------------------------------------------------------------
  // Decimal digits (`String(n)`, `padStart(2, "0")`, `toFixed(2)`)
  // ---------------------------------------------------------------------

  predicate IsDigit(c: char)
  {
    '0' <= c <= '9'
  }

  function DigitChar(d: nat): (c: char)
    requires d < 10
    ensures IsDigit(c)
  {
    ('0' as int + d) as char
  }

  function DigitValue(c: char): (d: nat)
    ensures d < 10
  {
    if IsDigit(c) then c as int - '0' as int else 0
  }

  /** `String(n)` for a non-negative integer: its decimal digits without
      leading zeros. */
  function NatToString(n: nat): (s: string)
    ensures |s| >= 1
    ensures forall i :: 0 <= i < |s| ==> IsDigit(s[i])
  {
    if n < 10 then [DigitChar(n)] else NatToString(n / 10) + [DigitChar(n % 10)]
  }

  /** The value of a string of decimal digits. */
  function ParseNat(s: string): nat
  {
    if s == [] then 0 else ParseNat(s[..|s| - 1]) * 10 + DigitValue(s[|s| - 1])
  }

  lemma {:induction false} ParseNatToString(n: nat)
    ensures ParseNat(NatToString(n)) == n
  {
    var s := NatToString(n);
    if n >= 10 {
      assert s[..|s| - 1] == NatToString(n / 10);
      ParseNatToString(n / 10);
    }
  }

  lemma NatToStringInjective(a: nat, b: nat)
    requires NatToString(a) == NatToString(b)
    ensures a == b
  {
    ParseNatToString(a);
    ParseNatToString(b);
  }

  /** Numbers written with the same number of digits compare as their
      decimal strings do. */
  lemma {:induction false} NatToStringOrder(a: nat, b: nat)
    requires |NatToString(a)| == |NatToString(b)|
    ensures LexLe(NatToString(a), NatToString(b)) <==> a <= b
  {
    if a < 10 || b < 10 {
      assert a < 10 && b < 10;
    } else {
      var p1, p2 := NatToString(a / 10), NatToString(b / 10);
      NatToStringOrder(a / 10, b / 10);
      LexLeConcat(p1, [DigitChar(a % 10)], p2, [DigitChar(b % 10)]);
      if p1 == p2 {
        NatToStringInjective(a / 10, b / 10);
      }
    }
  }

  /** `String(n).padStart(2, "0")`. */
  function Pad2(n: nat): (s: string)
    ensures n < 100 ==> |s| == 2
    ensures forall i :: 0 <= i < |s| ==> IsDigit(s[i])
  {
    if n < 10 then "0" + NatToString(n)
    else
      var s := NatToString(n);
      assert n < 100 ==> s == NatToString(n / 10) + [DigitChar(n % 10)] && |NatToString(n / 10)| == 1;
      s
  }

  lemma ParsePad2(n: nat)
    ensures ParseNat(Pad2(n)) == n
  {
    ParseNatToString(n);
    if n < 10 {
      assert Pad2(n)[..1] == "0";
    }
  }

  lemma Pad2Digits(n: nat)
    requires n < 100
    ensures Pad2(n) == [DigitChar(n / 10), DigitChar(n % 10)]
  {
    if n >= 10 {
      assert NatToString(n) == NatToString(n / 10) + [DigitChar(n % 10)];
    }
  }

  /** Two-digit zero-padded numbers compare as their strings do. */
  lemma Pad2Order(a: nat, b: nat)
    requires a < 100 && b < 100
    ensures LexLe(Pad2(a), Pad2(b)) <==> a <= b
  {
    var pa, pb := Pad2(a), Pad2(b);
    Pad2Digits(a);
    Pad2Digits(b);
    LexLeConcat([pa[0]], [pa[1]], [pb[0]], [pb[1]]);
    assert pa == [pa[0]] + [pa[1]] && pb == [pb[0]] + [pb[1]];
  }

  /** `String(i)` for an integer. */
  function IntToString(i: int): (s: string)
    ensures ' ' !in s
  {
    if i < 0 then "-" + NatToString(-i) else NatToString(i)
  }

  /** A printed integer starts with a minus sign exactly when it is
      negative. */
  lemma IntToStringSign(i: int)
    ensures IntToString(i)[0] == '-' <==> i < 0
  {
    if i >= 0 {
      assert IsDigit(NatToString(i)[0]);
    }
  }

  /** Different integers print differently. */
  lemma IntToStringInjective(a: int, b: int)
    requires IntToString(a) == IntToString(b)
    ensures a == b
  {
    IntToStringSign(a);
    IntToStringSign(b);
    if a < 0 {
      assert IntToString(a)[1..] == NatToString(-a) && IntToString(b)[1..] == NatToString(-b);
      NatToStringInjective(-a, -b);
    } else {
      NatToStringInjective(a, b);
    }
  }

  /** `(units / 100).toFixed(2)` for an amount held in minor units
      (hundredths), so the formatting is exact. */
  function Fixed2(units: int): (s: string)
  {
    if units < 0 then "-" + Fixed2Nat(-units) else Fixed2Nat(units)
  }

  function Fixed2Nat(units: nat): (s: string)
    ensures |s| >= 4 && s[|s| - 3] == '.'
    ensures forall i :: 0 <= i < |s| && i != |s| - 3 ==> IsDigit(s[i])
  {
    NatToString(units / 100) + "." + Pad2(units % 100)
  }

  /** Reads back an amount printed by `Fixed2`. */
  function ParseFixed2(s: string): int
  {
    if s != [] && s[0] == '-' then 0 - ParseFixed2Nat(s[1..]) as int else ParseFixed2Nat(s)
  }

  function ParseFixed2Nat(s: string): nat
  {
    if |s| < 3 then 0 else ParseNat(s[..|s| - 3]) * 100 + ParseNat(s[|s| - 2..])
  }

  /** The printed amount determines the amount: `toFixed(2)` loses nothing
      when costs are whole hundredths. */
  lemma Fixed2RoundTrip(units: int)
    ensures ParseFixed2(Fixed2(units)) == units
  {
    var n: nat := if units < 0 then -units else units;
    Fixed2NatRoundTrip(n);
    if units < 0 {
      assert Fixed2(units)[1..] == Fixed2Nat(n);
    } else {
      assert IsDigit(Fixed2Nat(n)[0]);
    }
  }

  lemma Fixed2NatRoundTrip(n: nat)
    ensures ParseFixed2Nat(Fixed2Nat(n)) == n
  {
    var whole, cents := NatToString(n / 100), Pad2(n % 100);
    var s := whole + "." + cents;
    assert |cents| == 2;
    assert s[..|s| - 3] == whole;
    assert s[|s| - 2..] == cents;
    ParseNatToString(n / 100);
    ParsePad2(n % 100);
  }

  /** `parts.join(sep)`. */
  function Join(parts: seq<string>, sep: string): (s: string)
  {
    if |parts| == 0 then ""
    else if |parts| == 1 then parts[0]
    else parts[0] + sep + Join(parts[1..], sep)
  }

  /** A joined string starts with its first part. */
  lemma {:induction false} JoinStartsWithFirst(parts: seq<string>, sep: string)
    requires |parts| > 0
    ensures parts[0] <= Join(parts, sep)
  {
  }
}
