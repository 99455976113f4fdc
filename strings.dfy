/** The string operations the storefront relies on, on `string == seq<char>`:
    JavaScript's `includes`, `toLowerCase` (ASCII letters only), number
    interpolation in template strings, `join`, `split`, `localeCompare`
    (ordinal order) and `replace` with a one-character pattern. */
module Strings {

  // ---------------------------------------------------------------------------
  // Prefixes and substrings (`String.prototype.includes`)
  // ---------------------------------------------------------------------------

  predicate IsPrefix(p: string, s: string)
    ensures IsPrefix(p, s) <==> |p| <= |s| && s[..|p|] == p
  {
    p == [] || (s != [] && p[0] == s[0] && IsPrefix(p[1..], s[1..]))
  }

  /** `h.includes(n)`: `n` is a prefix of `h` or of one of its suffixes. */
  predicate Contains(h: string, n: string)
  {
    IsPrefix(n, h) || (h != [] && Contains(h[1..], n))
  }

  /** The window of `h` that starts at `i` spells `n`. */
  predicate WindowAt(h: string, n: string, i: int)
  {
    0 <= i <= |h| - |n| && h[i..i + |n|] == n
  }

  /** `Contains` holds exactly when some window of `h` spells `n`. */
  lemma {:induction false} ContainsWindow(h: string, n: string)
    ensures Contains(h, n) <==> exists i :: WindowAt(h, n, i)
  {
    if IsPrefix(n, h) {
      assert WindowAt(h, n, 0);
    } else if h != [] {
      ContainsWindow(h[1..], n);
      if Contains(h[1..], n) {
        var i :| WindowAt(h[1..], n, i);
        assert h[1..][i..i + |n|] == h[i + 1..i + 1 + |n|];
        assert WindowAt(h, n, i + 1);
      }
      if exists i :: WindowAt(h, n, i) {
        var i :| WindowAt(h, n, i);
        assert i != 0;
        assert h[1..][i - 1..i - 1 + |n|] == h[i..i + |n|];
        assert WindowAt(h[1..], n, i - 1);
      }
    } else {
      assert |n| > 0;
    }
  }

  /** A needle with a character that does not occur in `h` is not in `h`. */
  lemma {:induction false} AbsentChar(h: string, n: string, j: nat)
    requires j < |n| && n[j] !in h
    ensures !Contains(h, n)
  {
    if h != [] {
      if |n| <= |h| {
        assert h[..|n|][j] == h[j] && h[j] in h;
      }
      AbsentChar(h[1..], n, j);
    }
  }

  /** A needle that is a prefix of `h[k..]` is in `h`. */
  lemma {:induction false} ContainsAt(h: string, n: string, k: nat)
    requires k <= |h| && IsPrefix(n, h[k..])
    ensures Contains(h, n)
  {
    if k > 0 {
      assert h[1..][k - 1..] == h[k..];
      ContainsAt(h[1..], n, k - 1);
    }
  }

  // ---------------------------------------------------------------------------
  // Lower-casing (ASCII letters only)
  // ---------------------------------------------------------------------------

  function LowerChar(c: char): char
  {
    if 'A' <= c <= 'Z' then (c as int + 32) as char else c
  }

  /** `s.toLowerCase()` restricted to ASCII: every upper-case ASCII letter is
      replaced by its lower-case form, and nothing else changes. */
  function Lower(s: string): (r: string)
    ensures |r| == |s|
    ensures forall i :: 0 <= i < |s| ==> r[i] == LowerChar(s[i])
    ensures forall i :: 0 <= i < |s| ==> !('A' <= r[i] <= 'Z')
  {
    if s == [] then [] else [LowerChar(s[0])] + Lower(s[1..])
  }

  /** Lower-casing twice is lower-casing once. */
  lemma LowerIdempotent(s: string)
    ensures Lower(Lower(s)) == Lower(s)
  {
    assert forall i :: 0 <= i < |s| ==> LowerChar(LowerChar(s[i])) == LowerChar(s[i]);
  }

  // ---------------------------------------------------------------------------
  // Decimal numerals (`${n}` in a template string) and their inverse
  // ---------------------------------------------------------------------------

  predicate IsDigit(c: char)
  {
    '0' <= c <= '9'
  }

  function DigitChar(d: nat): (c: char)
    requires d < 10
    ensures IsDigit(c) && c as int - '0' as int == d
  {
    ('0' as int + d) as char
  }

  /** Decimal digits of `n`, most significant first, with no leading zero. */
  function NatToString(n: nat): (r: string)
    ensures |r| >= 1
    ensures forall i :: 0 <= i < |r| ==> IsDigit(r[i])
    ensures r[0] == '0' ==> n == 0
  {
    if n < 10 then [DigitChar(n)] else NatToString(n / 10) + [DigitChar(n % 10)]
  }

  /** How JavaScript prints an integral number: a minus sign for negatives. */
  function IntToString(i: int): (r: string)
    ensures |r| >= 1 && (i >= 0 <==> r[0] != '-')
    ensures forall k :: 0 <= k < |r| ==> IsDigit(r[k]) || (k == 0 && r[k] == '-')
    ensures '\n' !in r
  {
    if i < 0 then "-" + NatToString(-i) else NatToString(i)
  }

  function ParseNat(s: string): nat
    requires forall i :: 0 <= i < |s| ==> IsDigit(s[i])
  {
    if s == [] then 0
    else
      assert IsDigit(s[|s| - 1]);
      ParseNat(s[..|s| - 1]) * 10 + (s[|s| - 1] as int - '0' as int)
  }

  function ParseInt(s: string): int
    requires s != []
    requires forall i :: 0 < i < |s| ==> IsDigit(s[i])
    requires s[0] == '-' || IsDigit(s[0])
  {
    if s[0] == '-' then 0 - ParseNat(s[1..]) else ParseNat(s)
  }

  lemma {:induction false} ParseNatToString(n: nat)
    ensures ParseNat(NatToString(n)) == n
  {
    if n >= 10 {
      var r := NatToString(n);
      assert r[..|r| - 1] == NatToString(n / 10);
      ParseNatToString(n / 10);
    }
  }

  /** Reading back a printed integer gives the integer: the printed amounts in
      an order message determine the amounts. */
  lemma ParseIntToString(i: int)
    ensures ParseInt(IntToString(i)) == i
  {
    if i < 0 {
      assert IntToString(i)[1..] == NatToString(-i);
      ParseNatToString(-i);
    } else {
      ParseNatToString(i);
    }
  }

  // ---------------------------------------------------------------------------
  // `Array.prototype.join` and `String.prototype.split` on one character
  // ---------------------------------------------------------------------------

  /** `parts.join(sep)`: empty for no parts, the parts separated by `sep` otherwise. */
  function Join(parts: seq<string>, sep: string): string
  {
    if |parts| == 0 then ""
    else if |parts| == 1 then parts[0]
    else parts[0] + sep + Join(parts[1..], sep)
  }

  /** Appending a part to a non-empty list appends the separator and the part. */
  lemma {:induction false} JoinSnoc(parts: seq<string>, x: string, sep: string)
    requires parts != []
    ensures Join(parts + [x], sep) == Join(parts, sep) + sep + x
  {
    if |parts| > 1 {
      assert (parts + [x])[1..] == parts[1..] + [x];
      JoinSnoc(parts[1..], x, sep);
    }
  }

  /** `s.split(c)`: the maximal pieces of `s` between occurrences of `c`. */
  function Split(s: string, c: char): (r: seq<string>)
    ensures |r| >= 1
    ensures forall k :: 0 <= k < |r| ==> c !in r[k]
  {
    if s == [] then [""]
    else
      var rest := Split(s[1..], c);
      if s[0] == c then [""] + rest else [[s[0]] + rest[0]] + rest[1..]
  }

  /** Joining the pieces with the separator gives back the string. */
  lemma {:induction false} JoinSplit(s: string, c: char)
    ensures Join(Split(s, c), [c]) == s
  {
    if s != [] {
      var rest := Split(s[1..], c);
      JoinSplit(s[1..], c);
      if s[0] == c {
        if |rest| > 1 { assert ([""] + rest)[1..] == rest; }
      } else {
        if |rest| > 1 { assert ([[s[0]] + rest[0]] + rest[1..])[1..] == rest[1..]; }
      }
    }
  }

  lemma {:induction false} SplitNoSeparator(a: string, c: char)
    requires c !in a
    ensures Split(a, c) == [a]
  {
    if a != [] {
      SplitNoSeparator(a[1..], c);
      assert a[0] != c;
      assert [a[0]] + a[1..] == a;
    }
  }

  /** A character absent from every part and from the separator is absent
      from the joined string. */
  lemma {:induction false} JoinAvoids(parts: seq<string>, sep: string, c: char)
    requires c !in sep
    requires forall k :: 0 <= k < |parts| ==> c !in parts[k]
    ensures c !in Join(parts, sep)
  {
    if |parts| > 1 {
      JoinAvoids(parts[1..], sep, c);
      assert c !in parts[0];
    }
  }

  /** A separator-free prefix followed by the separator is split off as one piece. */
  lemma {:induction false} SplitAfter(a: string, b: string, c: char)
    requires c !in a
    ensures Split(a + [c] + b, c) == [a] + Split(b, c)
  {
    if a != [] {
      assert (a + [c] + b)[1..] == a[1..] + [c] + b;
      SplitAfter(a[1..], b, c);
      var rest := Split(a[1..] + [c] + b, c);
      assert rest[0] == a[1..] && rest[1..] == Split(b, c);
      assert [a[0]] + a[1..] == a;
    } else {
      assert a + [c] + b == [c] + b;
    }
  }

  /** Splitting at a separator splits the text before it and the text after
      it independently. */
  lemma {:induction false} SplitConcat(x: string, y: string, c: char)
    ensures Split(x + [c] + y, c) == Split(x, c) + Split(y, c)
  {
    if x == [] {
      assert x + [c] + y == [c] + y;
      assert ([c] + y)[1..] == y;
    } else {
      assert (x + [c] + y)[1..] == x[1..] + [c] + y;
      SplitConcat(x[1..], y, c);
    }
  }

  /** The round trip the other way from `Split`'s contract (`Join(Split(s)) == s`). */
  lemma SplitJoin(parts: seq<string>, c: char)
    requires parts != []
    requires forall k :: 0 <= k < |parts| ==> c !in parts[k]
    ensures Split(Join(parts, [c]), c) == parts
  {
    if |parts| == 1 {
      SplitNoSeparator(parts[0], c);
    } else {
      var tail := Join(parts[1..], [c]);
      assert Join(parts, [c]) == parts[0] + [c] + tail;
      SplitAfter(parts[0], tail, c);
      SplitJoin(parts[1..], c);
    }
  }

  // ---------------------------------------------------------------------------
  // Ordinal string order (standing for `localeCompare(...) <= 0`)
  // ---------------------------------------------------------------------------

  /** `a` comes no later than `b`: `a` is a prefix of `b`, or at the first
      difference `a` has the smaller character. */
  predicate StrLe(a: string, b: string)
  {
    if a == [] then true
    else if b == [] then false
    else if a[0] != b[0] then a[0] < b[0]
    else StrLe(a[1..], b[1..])
  }

  lemma {:induction false} StrLeTotal(a: string, b: string)
    ensures StrLe(a, b) || StrLe(b, a)
  {
    if a != [] && b != [] && a[0] == b[0] {
      StrLeTotal(a[1..], b[1..]);
    }
  }

  lemma {:induction false} StrLeTrans(a: string, b: string, c: string)
    requires StrLe(a, b) && StrLe(b, c)
    ensures StrLe(a, c)
  {
    if a != [] && b != [] && c != [] && a[0] == b[0] && b[0] == c[0] {
      StrLeTrans(a[1..], b[1..], c[1..]);
    }
  }

  lemma {:induction false} StrLeAntisymmetric(a: string, b: string)
    requires StrLe(a, b) && StrLe(b, a)
    ensures a == b
  {
    if a != [] && b != [] {
      StrLeAntisymmetric(a[1..], b[1..]);
    }
  }

  // ---------------------------------------------------------------------------
  // `s.replace(c, '')` for a one-character pattern
  // ---------------------------------------------------------------------------

  function FirstIndex(s: string, c: char): (k: nat)
    requires c in s
    ensures k < |s| && s[k] == c && c !in s[..k]
  {
    if s[0] == c then 0 else 1 + FirstIndex(s[1..], c)
  }

  /** `s.replace(c, '')`. */
  function RemoveFirst(s: string, c: char): string
  {
    if s == [] then []
    else if s[0] == c then s[1..]
    else [s[0]] + RemoveFirst(s[1..], c)
  }

  /** Only the first occurrence of `c` is removed, and nothing when there is
      none; later occurrences stay. */
  lemma {:induction false} RemoveFirstMeaning(s: string, c: char)
    ensures c !in s ==> RemoveFirst(s, c) == s
    ensures c in s ==> RemoveFirst(s, c) == s[..FirstIndex(s, c)] + s[FirstIndex(s, c) + 1..]
  {
    if s != [] && s[0] != c {
      RemoveFirstMeaning(s[1..], c);
      if c in s {
        var k := FirstIndex(s[1..], c);
        assert FirstIndex(s, c) == k + 1;
        assert s[..k + 1] == [s[0]] + s[1..][..k];
        assert s[k + 2..] == s[1..][k + 1..];
      } else {
        assert s == [s[0]] + s[1..];
      }
    }
  }
}
