/**
 * String operations of JavaScript that the app's logic uses: number to
 * string conversion, `split`/`join` on one separator, `includes` on strings
 * and `slice(-n)`.
 */
module Strings {
  /** Decimal digit of a value in 0..9. */
  function Digit(d: nat): char
    requires d < 10
  {
    "0123456789"[d]
  }

  predicate IsDigit(c: char)
  {
    '0' <= c <= '9'
  }

  /** `String(n)` for a non-negative integer: its decimal digits, without leading zeros. */
  function NatToString(n: nat): (r: string)
    ensures |r| > 0
    ensures forall i :: 0 <= i < |r| ==> IsDigit(r[i])
    ensures n < 10 <==> |r| == 1
    decreases n
  {
    if n < 10 then [Digit(n)] else NatToString(n / 10) + [Digit(n % 10)]
  }

  /** `String(n)` for any integer. */
  function IntToString(n: int): (r: string)
    ensures |r| > 0
    ensures (r[0] == '-') <==> n < 0
  {
    if n < 0 then "-" + NatToString(-n) else NatToString(n)
  }

  /** The value of a string of decimal digits (the inverse of NatToString). */
  function ParseDigits(s: string): nat
    requires forall i :: 0 <= i < |s| ==> IsDigit(s[i])
  {
    if s == [] then 0 else 10 * ParseDigits(s[..|s| - 1]) + DigitValue(s[|s| - 1])
  }

  function DigitValue(c: char): nat
    requires IsDigit(c)
  {
    (c as int) - ('0' as int)
  }

  /** Numbers print to distinct strings: parsing the digits gives the number back. */
  lemma {:induction false} ParseNatToString(n: nat)
    ensures ParseDigits(NatToString(n)) == n
    decreases n
  {
    if n >= 10 {
      ParseNatToString(n / 10);
      var s := NatToString(n);
      assert s[..|s| - 1] == NatToString(n / 10);
    }
  }

  lemma NatToStringInjective(a: nat, b: nat)
    requires NatToString(a) == NatToString(b)
    ensures a == b
  {
    ParseNatToString(a);
    ParseNatToString(b);
  }

  /** `s.split(c)` with a one-character separator: always at least one piece. */
  function Split(s: string, c: char): (r: seq<string>)
    ensures |r| > 0
  {
    if s == [] then [""]
    else if s[0] == c then [""] + Split(s[1..], c)
    else
      var rest := Split(s[1..], c);
      [[s[0]] + rest[0]] + rest[1..]
  }

  /** `parts.join(sep)`. */
  function Join(parts: seq<string>, sep: string): string
  {
    if |parts| == 0 then ""
    else if |parts| == 1 then parts[0]
    else parts[0] + sep + Join(parts[1..], sep)
  }

  /** Joining a head piece onto a non-empty or empty tail. */
  lemma JoinCons(p: string, ps: seq<string>, sep: string)
    ensures Join([p] + ps, sep) == if ps == [] then p else p + sep + Join(ps, sep)
  {
    if ps != [] {
      assert ([p] + ps)[1..] == ps;
    }
  }

  /** Splitting on a character and joining with it gives the string back. */
  lemma {:induction false} JoinSplit(s: string, c: char)
    ensures Join(Split(s, c), [c]) == s
  {
    if s == [] {
    } else if s[0] == c {
      JoinSplit(s[1..], c);
      JoinCons("", Split(s[1..], c), [c]);
    } else {
      var rest := Split(s[1..], c);
      var h, t := rest[0], rest[1..];
      assert [h] + t == rest;
      JoinSplit(s[1..], c);
      JoinCons(h, t, [c]);
      JoinCons([s[0]] + h, t, [c]);
      assert s == [s[0]] + s[1..];
      if t != [] {
        var j := Join(t, [c]);
        assert [s[0]] + h + [c] + j == [s[0]] + (h + [c] + j);
      }
    }
  }

  /** A piece without the separator splits to itself. */
  lemma {:induction false} SplitWithoutSeparator(p: string, c: char)
    requires c !in p
    ensures Split(p, c) == [p]
    decreases |p|
  {
    if p != [] {
      SplitWithoutSeparator(p[1..], c);
      assert [p[0]] + p[1..] == p;
    }
  }

  /** Splitting at the first separator: a separator-free head comes off as one piece. */
  lemma {:induction false} SplitAtSeparator(p: string, rest: string, c: char)
    requires c !in p
    ensures Split(p + [c] + rest, c) == [p] + Split(rest, c)
    decreases |p|
  {
    var s := p + [c] + rest;
    if p == [] {
      assert s[1..] == rest;
    } else {
      assert s[1..] == p[1..] + [c] + rest;
      SplitAtSeparator(p[1..], rest, c);
      assert [p[0]] + p[1..] == p;
    }
  }

  /** Joining separator-free pieces and splitting again gives the pieces back. */
  lemma {:induction false} SplitJoin(parts: seq<string>, c: char)
    requires |parts| > 0
    requires forall i :: 0 <= i < |parts| ==> c !in parts[i]
    ensures Split(Join(parts, [c]), c) == parts
    decreases |parts|
  {
    if |parts| == 1 {
      SplitWithoutSeparator(parts[0], c);
    } else {
      SplitJoin(parts[1..], c);
      SplitAtSeparator(parts[0], Join(parts[1..], [c]), c);
      assert [parts[0]] + parts[1..] == parts;
    }
  }

  /** A character in neither the pieces nor the separator is not in the joined string. */
  lemma {:induction false} JoinAvoids(parts: seq<string>, sep: string, c: char)
    requires c !in sep
    requires forall i :: 0 <= i < |parts| ==> c !in parts[i]
    ensures c !in Join(parts, sep)
    decreases |parts|
  {
    if |parts| > 1 {
      JoinAvoids(parts[1..], sep, c);
    }
  }

  predicate IsPrefix(t: string, s: string)
  {
    |t| <= |s| && s[..|t|] == t
  }

  /** `s.includes(t)` on strings: `t` occurs somewhere inside `s`. */
  predicate HasSubstring(s: string, t: string)
    decreases |s|
  {
    IsPrefix(t, s) || (|s| > 0 && HasSubstring(s[1..], t))
  }

  /** HasSubstring means an occurrence at some offset. */
  lemma {:induction false} HasSubstringAt(s: string, t: string)
    ensures HasSubstring(s, t) <==> exists i :: 0 <= i <= |s| - |t| && IsPrefix(t, s[i..])
    decreases |s|
  {
    if |s| > 0 {
      HasSubstringAt(s[1..], t);
      if HasSubstring(s[1..], t) {
        var i :| 0 <= i <= |s[1..]| - |t| && IsPrefix(t, s[1..][i..]);
        assert s[1..][i..] == s[i + 1..];
      }
      assert s[0..] == s;
      if i :| 0 <= i <= |s| - |t| && IsPrefix(t, s[i..]) {
        if i > 0 {
          assert s[1..][i - 1..] == s[i..];
        }
      }
    } else {
      assert s[0..] == s;
    }
  }

  /** `s.slice(-n)`: the last `n` characters, or all of them when there are fewer. */
  function SliceLast(s: string, n: nat): (r: string)
    ensures |r| == if |s| < n then |s| else n
    ensures forall i :: 0 <= i < |r| ==> r[i] == s[|s| - |r| + i]
  {
    if |s| <= n then s else s[|s| - n..]
  }

  /** A number below 100 as two digits, with a leading zero below 10. */
  function Pad2(d: nat): (r: string)
    requires d < 100
    ensures |r| == 2 && IsDigit(r[0]) && IsDigit(r[1])
  {
    [Digit(d / 10), Digit(d % 10)]
  }

  /** Prefixing '0' and keeping the last two characters is exactly Pad2. */
  lemma Pad2Slice(d: nat)
    requires d < 100
    ensures SliceLast("0" + NatToString(d), 2) == Pad2(d)
  {
    var s := "0" + NatToString(d);
    if d < 10 {
      assert NatToString(d) == [Digit(d)];
      assert s == [Digit(0), Digit(d)];
      assert SliceLast(s, 2) == s;
    } else {
      assert NatToString(d / 10) == [Digit(d / 10)];
      assert NatToString(d) == [Digit(d / 10), Digit(d % 10)];
      assert SliceLast(s, 2) == s[1..];
    }
  }

  /** The padded digits read back as the number. */
  lemma Pad2Value(d: nat)
    requires d < 100
    ensures ParseDigits(Pad2(d)) == d
  {
    var p := Pad2(d);
    assert p[..1] == [Digit(d / 10)];
    assert ParseDigits(p[..1]) == d / 10 by {
      assert p[..1][..0] == [];
    }
  }
}
