/** internal/shadow/phantom.go: the phantom pod's name, and exactly when two workloads would share one. */
module Naming {
  import Text

  const PREFIX: string := "shadow-"

  const MAX_LENGTH: nat := 63

  // ----- The suffix --------------------------------------------------------------------

  /** One byte into the hash: exclusive or, then a multiplication by the FNV prime. */
  function Mix(h: bv64, byte: bv64): bv64 {
    (h ^ byte) * 0x100_0000_01b3
  }

  /** FNV-1a over the bytes of an ASCII name. */
  function Fnv1a(name: string, h: bv64): bv64 {
    if name == [] then h else Fnv1a(name[1..], Mix(h, (name[0] as int % 256) as bv64))
  }

  function Hash(name: string): (h: nat)
    ensures h < 0x1_0000_0000_0000_0000
  {
    Fnv1a(name, 0xcbf2_9ce4_8422_2325) as nat
  }

  function HexDigit(d: nat): char
    requires d < 16
  {
    "0123456789abcdef"[d]
  }

  /** Lower-case hexadecimal without leading zeros. */
  function Hex(n: nat): string {
    if n < 16 then [HexDigit(n)] else Hex(n / 16) + [HexDigit(n % 16)]
  }

  function Pad(s: string): string
    decreases 6 - |s|
  {
    if |s| < 6 then Pad("0" + s) else s
  }

  /** `%06x`. */
  function Suffix(h: nat): string {
    Pad(Hex(h))
  }

  // ----- The name ----------------------------------------------------------------------

  lemma {:induction false} HexLength(n: nat, width: nat)
    requires width > 0 && n < Pow16(width)
    ensures 1 <= |Hex(n)| <= width
  {
    if n >= 16 {
      HexLength(n / 16, width - 1);
    }
  }

  function Pow16(k: nat): nat {
    if k == 0 then 1 else 16 * Pow16(k - 1)
  }

  lemma {:induction false} PadLength(s: string)
    ensures |Pad(s)| == if |s| < 6 then 6 else |s|
    decreases 6 - |s|
  {
    if |s| < 6 {
      PadLength("0" + s);
    }
  }

  lemma SuffixLength(h: nat)
    requires h < 0x1_0000_0000_0000_0000
    ensures 6 <= |Suffix(h)| <= 16
  {
    assert Pow16(8) == 0x1_0000_0000;
    assert Pow16(16) == 0x1_0000_0000_0000_0000;
    HexLength(h, 16);
    PadLength(Hex(h));
  }

  predicate Short(name: string) {
    |PREFIX + name| <= MAX_LENGTH
  }

  /** How many characters of a long name survive. */
  function Keep(name: string): (k: nat)
    requires !Short(name)
    ensures 39 <= k <= 49 && k < |name|
  {
    SuffixLength(Hash(name));
    MAX_LENGTH - |PREFIX| - |Suffix(Hash(name))| - 1
  }

  function PhantomName(name: string): (r: string)
    ensures |r| <= MAX_LENGTH && (|r| < MAX_LENGTH ==> Short(name))
  {
    if Short(name) then PREFIX + name
    else PREFIX + name[..Keep(name)] + "-" + Suffix(Hash(name))
  }

  predicate LowerHex(s: string) {
    forall i :: 0 <= i < |s| ==> '0' <= s[i] <= '9' || 'a' <= s[i] <= 'f'
  }

  lemma {:induction false} HexIsLower(n: nat)
    ensures LowerHex(Hex(n))
  {
    if n >= 16 {
      HexIsLower(n / 16);
    }
  }

  lemma {:induction false} PadIsLower(s: string)
    requires LowerHex(s)
    ensures LowerHex(Pad(s))
    decreases 6 - |s|
  {
    if |s| < 6 {
      PadIsLower("0" + s);
    }
  }

  /**
   * A name of at most 56 characters is only prefixed.  A longer one is cut so that with a dash and its hash in
   * lower-case hexadecimal, six digits at least, it fills all 63 characters.
   */
  lemma PhantomNameIs(name: string) returns (k: nat, suffix: string)
    ensures |name| <= 56 ==> PhantomName(name) == "shadow-" + name
    ensures |name| > 56 ==>
              && k < |name| && PhantomName(name) == "shadow-" + name[..k] + "-" + suffix && |PhantomName(name)| == 63
              && |suffix| >= 6 && LowerHex(suffix) && Value(suffix) == Hash(name)
  {
    hide Hash, Hex, Pad;
    k, suffix := if Short(name) then 0 else Keep(name), Suffix(Hash(name));
    SuffixLength(Hash(name));
    SuffixReadsBack(Hash(name));
    HexIsLower(Hash(name));
    PadIsLower(Hex(Hash(name)));
  }

  /** The published 64-bit FNV-1a values of the empty text and of one letter. */
  lemma HashIsFnv1a()
    ensures Fnv1a("", 0xcbf2_9ce4_8422_2325) as nat == Hash("") == 0xcbf2_9ce4_8422_2325
    ensures Hash("a") == 0xaf63_dc4c_8601_ec8c
  {
    hide Mix;
    MixA();
    assert "a"[1..] == "";
    assert ('a' as int % 256) as bv64 == 97;
  }

  lemma MixA()
    ensures Mix(0xcbf2_9ce4_8422_2325, 97) == 0xaf63_dc4c_8601_ec8c
  {
  }

  /** The hash reads the text from the left. */
  lemma {:induction false} HashesInOrder(a: string, b: string, h: bv64)
    ensures Fnv1a(a + b, h) == Fnv1a(b, Fnv1a(a, h))
  {
    hide Mix;
    if a == "" {
      assert a + b == b;
    } else {
      assert (a + b)[1..] == a[1..] + b;
      HashesInOrder(a[1..], b, Mix(h, (a[0] as int % 256) as bv64));
    }
  }

  // ----- Collisions --------------------------------------------------------------------

  function DigitValue(c: char): nat {
    if '0' <= c <= '9' then c as nat - '0' as nat else if 'a' <= c <= 'f' then c as nat - 'a' as nat + 10 else 0
  }

  function Value(s: string): nat {
    if s == [] then 0 else 16 * Value(s[..|s| - 1]) + DigitValue(s[|s| - 1])
  }

  lemma DigitValueOf(d: nat)
    requires d < 16
    ensures DigitValue(HexDigit(d)) == d && HexDigit(d) != '-'
  {
  }

  lemma {:induction false} HexReadsBack(n: nat)
    ensures Value(Hex(n)) == n && '-' !in Hex(n)
  {
    if n < 16 {
      DigitValueOf(n);
      assert Hex(n)[..0] == [];
    } else {
      HexReadsBack(n / 16);
      DigitValueOf(n % 16);
      assert Hex(n)[..|Hex(n)| - 1] == Hex(n / 16);
    }
  }

  lemma {:induction false} LeadingZero(s: string)
    ensures Value("0" + s) == Value(s)
  {
    if s == [] {
      assert ("0" + s)[..0] == [];
    } else {
      LeadingZero(s[..|s| - 1]);
      assert ("0" + s)[..|s|] == "0" + s[..|s| - 1];
    }
  }

  lemma {:induction false} PadKeepsValue(s: string)
    requires '-' !in s
    ensures Value(Pad(s)) == Value(s) && '-' !in Pad(s)
    decreases 6 - |s|
  {
    if |s| < 6 {
      LeadingZero(s);
      PadKeepsValue("0" + s);
    }
  }

  /** Different hashes have different suffixes, and no suffix contains a dash. */
  lemma SuffixReadsBack(h: nat)
    ensures Value(Suffix(h)) == h && '-' !in Suffix(h)
  {
    HexReadsBack(h);
    PadKeepsValue(Hex(h));
  }

  /** What follows the prefix. */
  function Tail(name: string): string {
    if Short(name) then name else name[..Keep(name)] + "-" + Suffix(Hash(name))
  }

  lemma NameIsPrefixed(name: string)
    ensures PhantomName(name) == PREFIX + Tail(name)
  {
    hide Hash, Suffix, Keep;
  }

  lemma StripPrefix(s: string, t: string)
    ensures PREFIX + s == PREFIX + t <==> s == t
  {
    assert (PREFIX + s)[|PREFIX|..] == s && (PREFIX + t)[|PREFIX|..] == t;
  }

  lemma LongTails(a: string, b: string)
    requires !Short(a) && !Short(b)
    ensures Tail(a) == Tail(b) <==> Hash(a) == Hash(b) && a[..Keep(a)] == b[..Keep(b)]
  {
    hide Hash, Suffix, Keep;
    SuffixReadsBack(Hash(a));
    SuffixReadsBack(Hash(b));
    assert "-" == ['-'];
    if Tail(a) == Tail(b) {
      Text.LastMarkSplits(a[..Keep(a)], Suffix(Hash(a)), b[..Keep(b)], Suffix(Hash(b)), '-');
    }
  }

  /**
   * Two workloads share a phantom name exactly when they are the same, or both names are long with equal
   * hash and equal kept prefix, or one name is short and spells out the truncated form of the other.
   */
  lemma SharedNameIff(a: string, b: string)
    ensures PhantomName(a) == PhantomName(b)
            <==> if Short(a) && Short(b) then a == b
                 else if Short(a) then a == b[..Keep(b)] + "-" + Suffix(Hash(b))
                 else if Short(b) then b == a[..Keep(a)] + "-" + Suffix(Hash(a))
                 else Hash(a) == Hash(b) && a[..Keep(a)] == b[..Keep(b)]
  {
    hide PhantomName, Hash, Suffix, Keep, Short;
    NameIsPrefixed(a);
    NameIsPrefixed(b);
    StripPrefix(Tail(a), Tail(b));
    if !Short(a) && !Short(b) {
      LongTails(a, b);
    }
  }
}
