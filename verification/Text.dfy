/** The few operations of Go's `strings` package the sources use, on `seq<char>`. */
module Text {

  /** `strings.ReplaceAll`: leftmost, non-overlapping replacement. */
  function ReplaceAll(s: string, what: string, with: string): string
    requires |what| > 0
  {
    if |s| < |what| then s
    else if what <= s then with + ReplaceAll(s[|what|..], what, with)
    else [s[0]] + ReplaceAll(s[1..], what, with)
  }

  /** `strings.Contains`. */
  predicate Contains(s: string, sub: string) {
    sub <= s || (s != [] && Contains(s[1..], sub))
  }

  function CountChar(s: string, c: char): nat {
    if s == [] then 0 else (if s[0] == c then 1 else 0) + CountChar(s[1..], c)
  }

  /**
   * `unicode.ToLower` as far as it can be told apart here: only U+212A and U+0130 fold into ASCII from outside it, and
   * every other letter outside ASCII stays outside.
   */
  function LowerChar(c: char): char {
    if 'A' <= c <= 'Z' then (c as int - 'A' as int + 'a' as int) as char
    else if c == '\U{212A}' then 'k'
    else if c == '\U{0130}' then 'i'
    else c
  }

  /** `strings.ToLower`. */
  function ToLower(s: string): (r: string)
    ensures |r| == |s|
  {
    seq(|s|, i requires 0 <= i < |s| => LowerChar(s[i]))
  }

  predicate IsDigit(c: char) {
    '0' <= c <= '9'
  }

  predicate AllDigits(s: string) {
    s != [] && forall i :: 0 <= i < |s| ==> IsDigit(s[i])
  }

  function Decimal(s: string): nat
    requires forall i :: 0 <= i < |s| ==> IsDigit(s[i])
  {
    if s == [] then 0
    else
      assert IsDigit(s[|s| - 1]);
      10 * Decimal(s[..|s| - 1]) + (s[|s| - 1] as nat - '0' as nat)
  }

  predicate IsAlnum(c: char) {
    IsDigit(c) || 'a' <= c <= 'z' || 'A' <= c <= 'Z'
  }

  lemma {:induction false} CountCharConcat(a: string, b: string, c: char)
    ensures CountChar(a + b, c) == CountChar(a, c) + CountChar(b, c)
  {
    if a == [] {
      assert a + b == b;
    } else {
      assert (a + b)[1..] == a[1..] + b;
      CountCharConcat(a[1..], b, c);
    }
  }

  lemma {:induction false} CountCharAbsent(s: string, c: char)
    requires c !in s
    ensures CountChar(s, c) == 0
  {
    if s != [] {
      CountCharAbsent(s[1..], c);
    }
  }

  /** The first mark splits a text one way only. */
  lemma FirstMarkSplits(x: string, s: string, y: string, t: string, mark: char)
    requires mark !in x && mark !in y && x + [mark] + s == y + [mark] + t
    ensures x == y && s == t
  {
    var a, b := x + [mark] + s, y + [mark] + t;
    assert a[|x|] == mark && b[|y|] == mark;
    assert |x| == |y| by {
      if |x| < |y| {
        assert false;
      } else if |y| < |x| {
        assert false;
      }
    }
    assert x == a[..|x|] && y == b[..|x|];
    assert s == a[|x| + 1..] && t == b[|x| + 1..];
  }

  /** So does the last one. */
  lemma LastMarkSplits(x: string, s: string, y: string, t: string, mark: char)
    requires mark !in s && mark !in t && x + [mark] + s == y + [mark] + t
    ensures x == y && s == t
  {
    var a, b := x + [mark] + s, y + [mark] + t;
    assert a[|x|] == mark && b[|y|] == mark;
    assert |x| == |y| by {
      if |x| < |y| {
        assert false;
      } else if |y| < |x| {
        assert false;
      }
    }
    assert x == a[..|x|] && y == b[..|x|];
    assert s == a[|x| + 1..] && t == b[|x| + 1..];
  }
}
