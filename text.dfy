/** String helpers shared by the routes and the pages: decimal rendering of
  * numbers, `String.prototype.padStart(2, '0')`, the extension taken by
  * `name.split('.').pop()`, JavaScript's `slice`, `indexOf` and `replace`
  * with a one-character pattern, and ASCII lower-casing for searches. */
module Text {

  predicate IsDigit(c: char)
  {
    '0' <= c <= '9'
  }

  function DigitChar(d: nat): (c: char)
    requires d < 10
    ensures IsDigit(c) && c as int - '0' as int == d
  {
    (d + '0' as int) as char
  }

  function DigitValue(c: char): nat
  {
    if IsDigit(c) then c as int - '0' as int else 0
  }

  /** `String(n)` for a non-negative integer. */
  function NatToString(n: nat): (s: string)
    ensures |s| >= 1
    ensures forall i :: 0 <= i < |s| ==> IsDigit(s[i])
    ensures n < 10 ==> |s| == 1
    ensures 10 <= n < 100 ==> |s| == 2
    ensures 1000 <= n < 10000 ==> |s| == 4
  {
    if n < 10 then [DigitChar(n)] else NatToString(n / 10) + [DigitChar(n % 10)]
  }

  /** Reads a string of decimal digits back as a number. */
  function ParseDigits(s: string): nat
  {
    if |s| == 0 then 0 else ParseDigits(s[..|s| - 1]) * 10 + DigitValue(s[|s| - 1])
  }

  lemma {:induction false} ParseNatToString(n: nat)
    ensures ParseDigits(NatToString(n)) == n
  {
    if n >= 10 {
      var s := NatToString(n / 10);
      assert NatToString(n) == s + [DigitChar(n % 10)];
      assert (s + [DigitChar(n % 10)])[..|s|] == s;
      ParseNatToString(n / 10);
    }
  }

  /** `String(n).padStart(2, '0')`. */
  function Pad2(n: nat): (s: string)
    ensures forall i :: 0 <= i < |s| ==> IsDigit(s[i])
    ensures n < 100 ==> |s| == 2
  {
    if n < 10 then "0" + NatToString(n) else NatToString(n)
  }

  lemma ParsePad2(n: nat)
    ensures ParseDigits(Pad2(n)) == n
  {
    ParseNatToString(n);
    if n < 10 {
      assert Pad2(n) == ['0', DigitChar(n)];
      assert Pad2(n)[..1] == "0";
    }
  }

  /** `name.split('.').pop()`. */
  function Extension(name: string): string
  {
    if |name| == 0 then ""
    else if name[|name| - 1] == '.' then ""
    else Extension(name[..|name| - 1]) + [name[|name| - 1]]
  }

  /** The extension is the text after the last '.', or the whole name when
    * it has no '.'. */
  lemma {:induction false} ExtensionIsLastSegment(name: string)
    ensures var ext := Extension(name);
      && '.' !in ext
      && |ext| <= |name| && name[|name| - |ext|..] == ext
      && ('.' !in name ==> ext == name)
      && (|ext| < |name| ==> name[|name| - |ext| - 1] == '.')
  {
    if |name| > 0 && name[|name| - 1] != '.' {
      var init := name[..|name| - 1];
      ExtensionIsLastSegment(init);
      var e := Extension(init);
      assert Extension(name) == e + [name[|name| - 1]];
      assert name[|name| - |e| - 1..] == init[|init| - |e|..] + [name[|name| - 1]];
      if '.' !in name {
        assert '.' !in init by {
          forall i | 0 <= i < |init| ensures init[i] != '.' {
            assert init[i] == name[i];
          }
        }
        assert name == init + [name[|name| - 1]];
      }
      if |e| + 1 < |name| {
        assert name[|name| - |e| - 2] == init[|init| - |e| - 1];
      }
    }
  }

  lemma {:induction false} ExtensionAfterDot(prefix: string, ext: string)
    requires '.' !in ext
    ensures Extension(prefix + "." + ext) == ext
  {
    if |ext| > 0 {
      var last := ext[|ext| - 1];
      assert (prefix + "." + ext)[..|prefix + "." + ext| - 1] == prefix + "." + ext[..|ext| - 1];
      var init := ext[..|ext| - 1];
      assert '.' !in init by {
        forall i | 0 <= i < |init| ensures init[i] != '.' {
          assert init[i] == ext[i];
        }
      }
      ExtensionAfterDot(prefix, init);
      assert ext == ext[..|ext| - 1] + [last];
    }
  }

  /** `s.indexOf(c)`: the first position of `c`, or -1. */
  function IndexOf(s: string, c: char): (i: int)
    ensures -1 <= i < |s|
    ensures i == -1 <==> c !in s
    ensures i >= 0 ==> s[i] == c && c !in s[..i]
  {
    if |s| == 0 then -1
    else if s[0] == c then 0
    else
      var j := IndexOf(s[1..], c);
      assert c !in s[1..] ==> c !in s by {
        if c !in s[1..] {
          forall k | 0 <= k < |s| ensures s[k] != c {
            if k > 0 { assert s[k] == s[1..][k - 1]; }
          }
        }
      }
      if j == -1 then -1
      else
        assert s[..j + 1] == [s[0]] + s[1..][..j];
        j + 1
  }

  /** `s.slice(0, end)`: a negative `end` counts from the end of `s`. */
  function SliceTo(s: string, end: int): (r: string)
    ensures end >= 0 ==> r == s[..if end <= |s| then end else |s|]
    ensures end < 0 ==> r == s[..if |s| + end >= 0 then |s| + end else 0]
  {
    if end >= 0 then s[..if end <= |s| then end else |s|]
    else s[..if |s| + end >= 0 then |s| + end else 0]
  }

  /** `s.replace(from, to)` with a one-character string pattern: only the
    * first occurrence is replaced. */
  function ReplaceFirst(s: string, from: char, to: char): (r: string)
    ensures |r| == |s|
    ensures from !in s ==> r == s
    ensures from in s ==>
      var i := IndexOf(s, from);
      r == s[..i] + [to] + s[i + 1..]
  {
    if |s| == 0 then s
    else if s[0] == from then [to] + s[1..]
    else [s[0]] + ReplaceFirst(s[1..], from, to)
  }

  /** Position by position: the first `from` becomes `to`, every other
    * character stays. */
  lemma ReplaceFirstPointwise(s: string, from: char, to: char)
    ensures |ReplaceFirst(s, from, to)| == |s|
    ensures forall i :: 0 <= i < |s| ==>
      ReplaceFirst(s, from, to)[i] == (if from in s && i == IndexOf(s, from) then to else s[i])
  {
    var r := ReplaceFirst(s, from, to);
    if from in s {
      var d := IndexOf(s, from);
      forall i | 0 <= i < |s| ensures r[i] == (if i == d then to else s[i]) {
        if i < d {
          assert r[i] == s[..d][i];
        } else if i > d {
          assert r[i] == s[d + 1..][i - d - 1];
        }
      }
    }
  }

  function LowerChar(c: char): char
  {
    if 'A' <= c <= 'Z' then (c as int + 32) as char else c
  }

  /** `s.toLowerCase()` restricted to ASCII letters. */
  function Lower(s: string): (r: string)
    ensures |r| == |s|
    ensures forall i :: 0 <= i < |s| ==> r[i] == LowerChar(s[i])
  {
    seq(|s|, i requires 0 <= i < |s| => LowerChar(s[i]))
  }

  lemma LowerIdempotent(s: string)
    ensures Lower(Lower(s)) == Lower(s)
  {
  }

  predicate OccursAt(s: string, sub: string, i: int)
  {
    0 <= i <= |s| - |sub| && s[i..i + |sub|] == sub
  }

  /** `s.includes(sub)`: `sub` occurs in `s` at some offset. */
  predicate Contains(s: string, sub: string)
  {
    exists i :: 0 <= i <= |s| - |sub| && OccursAt(s, sub, i)
  }

  lemma ContainsEmpty(s: string)
    ensures Contains(s, "")
  {
    assert OccursAt(s, "", 0);
  }
}
