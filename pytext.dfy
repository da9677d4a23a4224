/**
 * The handful of Python string operations the service relies on:
 * `str.isspace`/`str.strip`, `str.lower`, `str.split(" ")`, `sep.join`,
 * `int(s)` and `str(n)` for integers.
 */
module PyText {
  import opened Wrappers

  /** The characters for which Python's `str.isspace()` is true. */
  predicate IsSpace(c: char) {
    || c == ' '
    || ('\t' <= c <= '\r')
    || ('\U{1c}' <= c <= '\U{1f}')
    || c == '\U{85}' || c == '\U{a0}' || c == '\U{1680}'
    || ('\U{2000}' <= c <= '\U{200a}')
    || c == '\U{2028}' || c == '\U{2029}' || c == '\U{202f}' || c == '\U{205f}' || c == '\U{3000}'
  }

  predicate AllSpace(s: string) {
    forall i | 0 <= i < |s| :: IsSpace(s[i])
  }

  /** `s.lstrip()`: the suffix of `s` left after dropping leading whitespace. */
  function StripLeft(s: string): (r: string)
    ensures |r| <= |s| && r == s[|s| - |r|..]
    ensures r == [] || !IsSpace(r[0])
  {
    if s != [] && IsSpace(s[0]) then StripLeft(s[1..]) else s
  }

  /** What `lstrip` drops is whitespace. */
  lemma {:induction false} StripLeftDropsSpace(s: string)
    ensures forall k | 0 <= k < |s| - |StripLeft(s)| :: IsSpace(s[k])
  {
    if s != [] && IsSpace(s[0]) {
      StripLeftDropsSpace(s[1..]);
      forall k | 1 <= k < |s| - |StripLeft(s)| ensures IsSpace(s[k]) {
        assert s[k] == s[1..][k - 1];
      }
    }
  }

  /** `s.rstrip()`: the prefix of `s` left after dropping trailing whitespace. */
  function StripRight(s: string): (r: string)
    ensures |r| <= |s| && r == s[..|r|]
    ensures r == [] || !IsSpace(r[|r| - 1])
  {
    if s != [] && IsSpace(s[|s| - 1]) then StripRight(s[..|s| - 1]) else s
  }

  /** What `rstrip` drops is whitespace. */
  lemma {:induction false} StripRightDropsSpace(s: string)
    ensures forall k | |StripRight(s)| <= k < |s| :: IsSpace(s[k])
  {
    if s != [] && IsSpace(s[|s| - 1]) {
      var init := s[..|s| - 1];
      StripRightDropsSpace(init);
      forall k | |StripRight(s)| <= k < |s| - 1 ensures IsSpace(s[k]) {
        assert s[k] == init[k];
      }
    }
  }

  /** `s.strip()`. */
  function Strip(s: string): string {
    StripRight(StripLeft(s))
  }

  /** Strip removes exactly a whitespace prefix and a whitespace suffix, and what is
      left neither starts nor ends with whitespace. */
  lemma StripSpec(s: string)
    ensures |s| - |StripLeft(s)| + |Strip(s)| <= |s|
    ensures Strip(s) == s[|s| - |StripLeft(s)|..|s| - |StripLeft(s)| + |Strip(s)|]
    ensures forall k | 0 <= k < |s| - |StripLeft(s)| :: IsSpace(s[k])
    ensures forall k | |s| - |StripLeft(s)| + |Strip(s)| <= k < |s| :: IsSpace(s[k])
    ensures Strip(s) == [] || (!IsSpace(Strip(s)[0]) && !IsSpace(Strip(s)[|Strip(s)| - 1]))
  {
    StripInner(s);
    StripLeftDropsSpace(s);
    StripTail(s);
    StripEdges(s);
  }

  lemma StripInner(s: string)
    ensures |s| - |StripLeft(s)| + |Strip(s)| <= |s|
    ensures Strip(s) == s[|s| - |StripLeft(s)|..|s| - |StripLeft(s)| + |Strip(s)|]
  {
    var l := StripLeft(s);
    var r := StripRight(l);
    var i := |s| - |l|;
    assert l == s[i..] && r == l[..|r|];
  }

  lemma StripTail(s: string)
    ensures forall k | |s| - |StripLeft(s)| + |Strip(s)| <= k < |s| :: IsSpace(s[k])
  {
    var l := StripLeft(s);
    StripRightDropsSpace(l);
    SpaceTail(s, l, |StripRight(l)|);
  }

  lemma SpaceTail(s: string, l: string, r: nat)
    requires |l| <= |s| && l == s[|s| - |l|..] && r <= |l|
    requires forall k | r <= k < |l| :: IsSpace(l[k])
    ensures forall k | |s| - |l| + r <= k < |s| :: IsSpace(s[k])
  {
    forall k | |s| - |l| + r <= k < |s| ensures IsSpace(s[k]) {
      assert s[k] == l[k - (|s| - |l|)];
    }
  }

  lemma StripEdges(s: string)
    ensures Strip(s) == [] || (!IsSpace(Strip(s)[0]) && !IsSpace(Strip(s)[|Strip(s)| - 1]))
  {
    var l := StripLeft(s);
    var r := StripRight(l);
    if r != [] {
      assert r == l[..|r|];
      assert r[0] == l[0];
    }
  }

  /** A string is blank, in Python's `not s.strip()` sense, iff every character is whitespace. */
  lemma StripEmptyIffAllSpace(s: string)
    ensures Strip(s) == [] <==> AllSpace(s)
  {
    var l := StripLeft(s);
    var r := StripRight(l);
    if r == [] {
      StripLeftDropsSpace(s);
      StripRightDropsSpace(l);
    }
  }

  /** The code points a `char` can hold: no surrogate, nothing past U+10FFFF. */
  predicate IsScalar(n: int) {
    0 <= n < 0xd800 || 0xe000 <= n < 0x110000
  }

  /** The lower case of one code point under Python's `str.lower()` (Unicode 15.0),
      for every code point whose lower case is a single code point. The table is
      split by script: each part maps the capitals of its scripts, by a fixed
      offset over a run (every code point, or every other one) or one by one, and
      leaves every other code point alone. */
  function LowerCode(n: int): int {
    if n < 0x80 then (if 0x41 <= n <= 0x5a then n + 32 else n)
    else if n < 0x180 then LowerLatin1ExtendedA(n)
    else if n < 0x370 then LowerLatinExtendedB(n)
    else if n < 0x1000 then LowerGreekCyrillic(n)
    else if n < 0x1e00 then LowerGeorgianCherokee(n)
    else if n < 0x2100 then LowerLatinGreekExtended(n)
    else if n < 0xa000 then LowerLetterlike(n)
    else if n < 0xff00 then LowerLatinExtendedD(n)
    else LowerWide(n)
  }

  /** `str.lower()` on Latin-1 Supplement and Latin Extended-A. */
  function LowerLatin1ExtendedA(n: int): int {
    if 0xc0 <= n <= 0xd6 then n + 32
    else if 0xd8 <= n <= 0xde then n + 32
    else if 0x100 <= n <= 0x12e && n % 2 == 0 then n + 1
    else if 0x132 <= n <= 0x136 && n % 2 == 0 then n + 1
    else if 0x139 <= n <= 0x147 && n % 2 == 1 then n + 1
    else if 0x14a <= n <= 0x176 && n % 2 == 0 then n + 1
    else if n == 0x178 then 0xff
    else if 0x179 <= n <= 0x17d && n % 2 == 1 then n + 1
    else n
  }

  /** `str.lower()` on Latin Extended-B. */
  function LowerLatinExtendedB(n: int): int {
    if n == 0x181 then 0x253
    else if 0x182 <= n <= 0x184 && n % 2 == 0 then n + 1
    else if n == 0x186 then 0x254
    else if n == 0x187 then 0x188
    else if 0x189 <= n <= 0x18a then n + 205
    else if n == 0x18b then 0x18c
    else if n == 0x18e then 0x1dd
    else if n == 0x18f then 0x259
    else if n == 0x190 then 0x25b
    else if n == 0x191 then 0x192
    else if n == 0x193 then 0x260
    else if n == 0x194 then 0x263
    else if n == 0x196 then 0x269
    else if n == 0x197 then 0x268
    else if n == 0x198 then 0x199
    else if n == 0x19c then 0x26f
    else if n == 0x19d then 0x272
    else if n == 0x19f then 0x275
    else if 0x1a0 <= n <= 0x1a4 && n % 2 == 0 then n + 1
    else if n == 0x1a6 then 0x280
    else if n == 0x1a7 then 0x1a8
    else if n == 0x1a9 then 0x283
    else if n == 0x1ac then 0x1ad
    else if n == 0x1ae then 0x288
    else if n == 0x1af then 0x1b0
    else if 0x1b1 <= n <= 0x1b2 then n + 217
    else if 0x1b3 <= n <= 0x1b5 && n % 2 == 1 then n + 1
    else if n == 0x1b7 then 0x292
    else if n == 0x1b8 then 0x1b9
    else if n == 0x1bc then 0x1bd
    else if n == 0x1c4 then 0x1c6
    else if n == 0x1c5 then 0x1c6
    else if n == 0x1c7 then 0x1c9
    else if n == 0x1c8 then 0x1c9
    else if n == 0x1ca then 0x1cc
    else if 0x1cb <= n <= 0x1db && n % 2 == 1 then n + 1
    else if 0x1de <= n <= 0x1ee && n % 2 == 0 then n + 1
    else if n == 0x1f1 then 0x1f3
    else if 0x1f2 <= n <= 0x1f4 && n % 2 == 0 then n + 1
    else if n == 0x1f6 then 0x195
    else if n == 0x1f7 then 0x1bf
    else if 0x1f8 <= n <= 0x21e && n % 2 == 0 then n + 1
    else if n == 0x220 then 0x19e
    else if 0x222 <= n <= 0x232 && n % 2 == 0 then n + 1
    else if n == 0x23a then 0x2c65
    else if n == 0x23b then 0x23c
    else if n == 0x23d then 0x19a
    else if n == 0x23e then 0x2c66
    else if n == 0x241 then 0x242
    else if n == 0x243 then 0x180
    else if n == 0x244 then 0x289
    else if n == 0x245 then 0x28c
    else if 0x246 <= n <= 0x24e && n % 2 == 0 then n + 1
    else n
  }

  /** `str.lower()` on Greek, Coptic, Cyrillic and Armenian. */
  function LowerGreekCyrillic(n: int): int {
    if 0x370 <= n <= 0x372 && n % 2 == 0 then n + 1
    else if n == 0x376 then 0x377
    else if n == 0x37f then 0x3f3
    else if n == 0x386 then 0x3ac
    else if 0x388 <= n <= 0x38a then n + 37
    else if n == 0x38c then 0x3cc
    else if 0x38e <= n <= 0x38f then n + 63
    else if 0x391 <= n <= 0x3a1 then n + 32
    else if 0x3a3 <= n <= 0x3ab then n + 32
    else if n == 0x3cf then 0x3d7
    else if 0x3d8 <= n <= 0x3ee && n % 2 == 0 then n + 1
    else if n == 0x3f4 then 0x3b8
    else if n == 0x3f7 then 0x3f8
    else if n == 0x3f9 then 0x3f2
    else if n == 0x3fa then 0x3fb
    else if 0x3fd <= n <= 0x3ff then n - 130
    else if 0x400 <= n <= 0x40f then n + 80
    else if 0x410 <= n <= 0x42f then n + 32
    else if 0x460 <= n <= 0x480 && n % 2 == 0 then n + 1
    else if 0x48a <= n <= 0x4be && n % 2 == 0 then n + 1
    else if n == 0x4c0 then 0x4cf
    else if 0x4c1 <= n <= 0x4cd && n % 2 == 1 then n + 1
    else if 0x4d0 <= n <= 0x52e && n % 2 == 0 then n + 1
    else if 0x531 <= n <= 0x556 then n + 48
    else n
  }

  /** `str.lower()` on Georgian and Cherokee. */
  function LowerGeorgianCherokee(n: int): int {
    if 0x10a0 <= n <= 0x10c5 then n + 7264
    else if n == 0x10c7 then 0x2d27
    else if n == 0x10cd then 0x2d2d
    else if 0x13a0 <= n <= 0x13ef then n + 38864
    else if 0x13f0 <= n <= 0x13f5 then n + 8
    else if 0x1c90 <= n <= 0x1cba then n - 3008
    else if 0x1cbd <= n <= 0x1cbf then n - 3008
    else n
  }

  /** `str.lower()` on Latin Extended Additional and Greek Extended. */
  function LowerLatinGreekExtended(n: int): int {
    if 0x1e00 <= n <= 0x1e94 && n % 2 == 0 then n + 1
    else if n == 0x1e9e then 0xdf
    else if 0x1ea0 <= n <= 0x1efe && n % 2 == 0 then n + 1
    else if 0x1f08 <= n <= 0x1f0f then n - 8
    else if 0x1f18 <= n <= 0x1f1d then n - 8
    else if 0x1f28 <= n <= 0x1f2f then n - 8
    else if 0x1f38 <= n <= 0x1f3f then n - 8
    else if 0x1f48 <= n <= 0x1f4d then n - 8
    else if 0x1f59 <= n <= 0x1f5f && n % 2 == 1 then n - 8
    else if 0x1f68 <= n <= 0x1f6f then n - 8
    else if 0x1f88 <= n <= 0x1f8f then n - 8
    else if 0x1f98 <= n <= 0x1f9f then n - 8
    else if 0x1fa8 <= n <= 0x1faf then n - 8
    else if 0x1fb8 <= n <= 0x1fb9 then n - 8
    else if 0x1fba <= n <= 0x1fbb then n - 74
    else if n == 0x1fbc then 0x1fb3
    else if 0x1fc8 <= n <= 0x1fcb then n - 86
    else if n == 0x1fcc then 0x1fc3
    else if 0x1fd8 <= n <= 0x1fd9 then n - 8
    else if 0x1fda <= n <= 0x1fdb then n - 100
    else if 0x1fe8 <= n <= 0x1fe9 then n - 8
    else if 0x1fea <= n <= 0x1feb then n - 112
    else if n == 0x1fec then 0x1fe5
    else if 0x1ff8 <= n <= 0x1ff9 then n - 128
    else if 0x1ffa <= n <= 0x1ffb then n - 126
    else if n == 0x1ffc then 0x1ff3
    else n
  }

  /** `str.lower()` on letterlike symbols, Roman numerals, circled letters, Glagolitic, Latin Extended-C and Coptic. */
  function LowerLetterlike(n: int): int {
    if n == 0x2126 then 0x3c9
    else if n == 0x212a then 0x6b
    else if n == 0x212b then 0xe5
    else if n == 0x2132 then 0x214e
    else if 0x2160 <= n <= 0x216f then n + 16
    else if n == 0x2183 then 0x2184
    else if 0x24b6 <= n <= 0x24cf then n + 26
    else if 0x2c00 <= n <= 0x2c2f then n + 48
    else if n == 0x2c60 then 0x2c61
    else if n == 0x2c62 then 0x26b
    else if n == 0x2c63 then 0x1d7d
    else if n == 0x2c64 then 0x27d
    else if 0x2c67 <= n <= 0x2c6b && n % 2 == 1 then n + 1
    else if n == 0x2c6d then 0x251
    else if n == 0x2c6e then 0x271
    else if n == 0x2c6f then 0x250
    else if n == 0x2c70 then 0x252
    else if n == 0x2c72 then 0x2c73
    else if n == 0x2c75 then 0x2c76
    else if 0x2c7e <= n <= 0x2c7f then n - 10815
    else if 0x2c80 <= n <= 0x2ce2 && n % 2 == 0 then n + 1
    else if 0x2ceb <= n <= 0x2ced && n % 2 == 1 then n + 1
    else if n == 0x2cf2 then 0x2cf3
    else n
  }

  /** `str.lower()` on Cyrillic Extended-B and Latin Extended-D. */
  function LowerLatinExtendedD(n: int): int {
    if 0xa640 <= n <= 0xa66c && n % 2 == 0 then n + 1
    else if 0xa680 <= n <= 0xa69a && n % 2 == 0 then n + 1
    else if 0xa722 <= n <= 0xa72e && n % 2 == 0 then n + 1
    else if 0xa732 <= n <= 0xa76e && n % 2 == 0 then n + 1
    else if 0xa779 <= n <= 0xa77b && n % 2 == 1 then n + 1
    else if n == 0xa77d then 0x1d79
    else if 0xa77e <= n <= 0xa786 && n % 2 == 0 then n + 1
    else if n == 0xa78b then 0xa78c
    else if n == 0xa78d then 0x265
    else if 0xa790 <= n <= 0xa792 && n % 2 == 0 then n + 1
    else if 0xa796 <= n <= 0xa7a8 && n % 2 == 0 then n + 1
    else if n == 0xa7aa then 0x266
    else if n == 0xa7ab then 0x25c
    else if n == 0xa7ac then 0x261
    else if n == 0xa7ad then 0x26c
    else if n == 0xa7ae then 0x26a
    else if n == 0xa7b0 then 0x29e
    else if n == 0xa7b1 then 0x287
    else if n == 0xa7b2 then 0x29d
    else if n == 0xa7b3 then 0xab53
    else if 0xa7b4 <= n <= 0xa7c2 && n % 2 == 0 then n + 1
    else if n == 0xa7c4 then 0xa794
    else if n == 0xa7c5 then 0x282
    else if n == 0xa7c6 then 0x1d8e
    else if 0xa7c7 <= n <= 0xa7c9 && n % 2 == 1 then n + 1
    else if n == 0xa7d0 then 0xa7d1
    else if 0xa7d6 <= n <= 0xa7d8 && n % 2 == 0 then n + 1
    else if n == 0xa7f5 then 0xa7f6
    else n
  }

  /** `str.lower()` on fullwidth Latin and the supplementary planes (Deseret, Osage, Vithkuqi, Old Hungarian, Warang Citi, Medefaidrin, Adlam). */
  function LowerWide(n: int): int {
    if 0xff21 <= n <= 0xff3a then n + 32
    else if 0x10400 <= n <= 0x10427 then n + 40
    else if 0x104b0 <= n <= 0x104d3 then n + 40
    else if 0x10570 <= n <= 0x1057a then n + 39
    else if 0x1057c <= n <= 0x1058a then n + 39
    else if 0x1058c <= n <= 0x10592 then n + 39
    else if 0x10594 <= n <= 0x10595 then n + 39
    else if 0x10c80 <= n <= 0x10cb2 then n + 64
    else if 0x118a0 <= n <= 0x118bf then n + 32
    else if 0x16e40 <= n <= 0x16e5f then n + 32
    else if 0x1e900 <= n <= 0x1e921 then n + 34
    else n
  }

  /** `str.lower()` on one character whose lower case is a single character. */
  function LowerChar(c: char): char {
    LowerCodeFacts(c as int);
    LowerCode(c as int) as char
  }

  /** Lower-casing a lower-cased code point changes nothing; lower-casing keeps a
      code point a `char`, never yields U+0130, and yields an ASCII code point only
      from an ASCII one or from the Kelvin sign. */
  lemma LowerCodeFacts(n: int)
    ensures LowerCode(LowerCode(n)) == LowerCode(n)
    ensures IsScalar(n) ==> IsScalar(LowerCode(n))
    ensures n != 0x130 ==> LowerCode(n) != 0x130
    ensures LowerCode(n) < 0x80 <==> n < 0x80 || n == 0x212a
  {
    if n < 0x80 {
    } else if n < 0x180 {
      LowerCodeFacts80(n);
    } else if n < 0x196 {
      LowerCodeFacts180(n);
    } else if n < 0x1af {
      LowerCodeFacts196(n);
    } else if n < 0x1de {
      LowerCodeFacts1AF(n);
    } else if n < 0x241 {
      LowerCodeFacts1DE(n);
    } else if n < 0x370 {
      LowerCodeFacts241(n);
    } else if n < 0x3f7 {
      LowerCodeFacts370(n);
    } else if n < 0x1000 {
      LowerCodeFacts3F7(n);
    } else if n < 0x1e00 {
      LowerCodeFacts1000(n);
    } else if n < 0x1fa8 {
      LowerCodeFacts1E00(n);
    } else if n < 0x1ffa {
      LowerCodeFacts1FA8(n);
    } else if n < 0x2100 {
      LowerCodeFacts1FFA(n);
    } else if n < 0x2c67 {
      LowerCodeFacts2100(n);
    } else if n < 0xa000 {
      LowerCodeFacts2C67(n);
    } else if n < 0xa7ab {
      LowerCodeFactsA000(n);
    } else if n < 0xa7c7 {
      LowerCodeFactsA7AB(n);
    } else if n < 0xff00 {
      LowerCodeFactsA7C7(n);
    } else {
      LowerCodeFactsFF00(n);
    }
  }

  lemma LowerCodeFacts80(n: int)
    requires 0x80 <= n < 0x180
    ensures LowerCode(LowerCode(n)) == LowerCode(n)
    ensures IsScalar(n) ==> IsScalar(LowerCode(n))
    ensures n != 0x130 ==> LowerCode(n) != 0x130
    ensures LowerCode(n) < 0x80 <==> n == 0x212a
  {
  }

  lemma LowerCodeFacts180(n: int)
    requires 0x180 <= n < 0x196
    ensures LowerCode(LowerCode(n)) == LowerCode(n)
    ensures IsScalar(n) ==> IsScalar(LowerCode(n))
    ensures n != 0x130 ==> LowerCode(n) != 0x130
    ensures LowerCode(n) < 0x80 <==> n == 0x212a
  {
  }

  lemma LowerCodeFacts196(n: int)
    requires 0x196 <= n < 0x1af
    ensures LowerCode(LowerCode(n)) == LowerCode(n)
    ensures IsScalar(n) ==> IsScalar(LowerCode(n))
    ensures n != 0x130 ==> LowerCode(n) != 0x130
    ensures LowerCode(n) < 0x80 <==> n == 0x212a
  {
  }

  lemma LowerCodeFacts1AF(n: int)
    requires 0x1af <= n < 0x1de
    ensures LowerCode(LowerCode(n)) == LowerCode(n)
    ensures IsScalar(n) ==> IsScalar(LowerCode(n))
    ensures n != 0x130 ==> LowerCode(n) != 0x130
    ensures LowerCode(n) < 0x80 <==> n == 0x212a
  {
  }

  lemma LowerCodeFacts1DE(n: int)
    requires 0x1de <= n < 0x241
    ensures LowerCode(LowerCode(n)) == LowerCode(n)
    ensures IsScalar(n) ==> IsScalar(LowerCode(n))
    ensures n != 0x130 ==> LowerCode(n) != 0x130
    ensures LowerCode(n) < 0x80 <==> n == 0x212a
  {
  }

  lemma LowerCodeFacts241(n: int)
    requires 0x241 <= n < 0x370
    ensures LowerCode(LowerCode(n)) == LowerCode(n)
    ensures IsScalar(n) ==> IsScalar(LowerCode(n))
    ensures n != 0x130 ==> LowerCode(n) != 0x130
    ensures LowerCode(n) < 0x80 <==> n == 0x212a
  {
  }

  lemma LowerCodeFacts370(n: int)
    requires 0x370 <= n < 0x3f7
    ensures LowerCode(LowerCode(n)) == LowerCode(n)
    ensures IsScalar(n) ==> IsScalar(LowerCode(n))
    ensures n != 0x130 ==> LowerCode(n) != 0x130
    ensures LowerCode(n) < 0x80 <==> n == 0x212a
  {
  }

  lemma LowerCodeFacts3F7(n: int)
    requires 0x3f7 <= n < 0x1000
    ensures LowerCode(LowerCode(n)) == LowerCode(n)
    ensures IsScalar(n) ==> IsScalar(LowerCode(n))
    ensures n != 0x130 ==> LowerCode(n) != 0x130
    ensures LowerCode(n) < 0x80 <==> n == 0x212a
  {
  }

  lemma LowerCodeFacts1000(n: int)
    requires 0x1000 <= n < 0x1e00
    ensures LowerCode(LowerCode(n)) == LowerCode(n)
    ensures IsScalar(n) ==> IsScalar(LowerCode(n))
    ensures n != 0x130 ==> LowerCode(n) != 0x130
    ensures LowerCode(n) < 0x80 <==> n == 0x212a
  {
  }

  lemma LowerCodeFacts1E00(n: int)
    requires 0x1e00 <= n < 0x1fa8
    ensures LowerCode(LowerCode(n)) == LowerCode(n)
    ensures IsScalar(n) ==> IsScalar(LowerCode(n))
    ensures n != 0x130 ==> LowerCode(n) != 0x130
    ensures LowerCode(n) < 0x80 <==> n == 0x212a
  {
  }

  lemma LowerCodeFacts1FA8(n: int)
    requires 0x1fa8 <= n < 0x1ffa
    ensures LowerCode(LowerCode(n)) == LowerCode(n)
    ensures IsScalar(n) ==> IsScalar(LowerCode(n))
    ensures n != 0x130 ==> LowerCode(n) != 0x130
    ensures LowerCode(n) < 0x80 <==> n == 0x212a
  {
  }

  lemma LowerCodeFacts1FFA(n: int)
    requires 0x1ffa <= n < 0x2100
    ensures LowerCode(LowerCode(n)) == LowerCode(n)
    ensures IsScalar(n) ==> IsScalar(LowerCode(n))
    ensures n != 0x130 ==> LowerCode(n) != 0x130
    ensures LowerCode(n) < 0x80 <==> n == 0x212a
  {
  }

  lemma LowerCodeFacts2100(n: int)
    requires 0x2100 <= n < 0x2c67
    ensures LowerCode(LowerCode(n)) == LowerCode(n)
    ensures IsScalar(n) ==> IsScalar(LowerCode(n))
    ensures n != 0x130 ==> LowerCode(n) != 0x130
    ensures LowerCode(n) < 0x80 <==> n == 0x212a
  {
  }

  lemma LowerCodeFacts2C67(n: int)
    requires 0x2c67 <= n < 0xa000
    ensures LowerCode(LowerCode(n)) == LowerCode(n)
    ensures IsScalar(n) ==> IsScalar(LowerCode(n))
    ensures n != 0x130 ==> LowerCode(n) != 0x130
    ensures LowerCode(n) < 0x80 <==> n == 0x212a
  {
  }

  lemma LowerCodeFactsA000(n: int)
    requires 0xa000 <= n < 0xa7ab
    ensures LowerCode(LowerCode(n)) == LowerCode(n)
    ensures IsScalar(n) ==> IsScalar(LowerCode(n))
    ensures n != 0x130 ==> LowerCode(n) != 0x130
    ensures LowerCode(n) < 0x80 <==> n == 0x212a
  {
  }

  lemma LowerCodeFactsA7AB(n: int)
    requires 0xa7ab <= n < 0xa7c7
    ensures LowerCode(LowerCode(n)) == LowerCode(n)
    ensures IsScalar(n) ==> IsScalar(LowerCode(n))
    ensures n != 0x130 ==> LowerCode(n) != 0x130
    ensures LowerCode(n) < 0x80 <==> n == 0x212a
  {
  }

  lemma LowerCodeFactsA7C7(n: int)
    requires 0xa7c7 <= n < 0xff00
    ensures LowerCode(LowerCode(n)) == LowerCode(n)
    ensures IsScalar(n) ==> IsScalar(LowerCode(n))
    ensures n != 0x130 ==> LowerCode(n) != 0x130
    ensures LowerCode(n) < 0x80 <==> n == 0x212a
  {
  }

  lemma LowerCodeFactsFF00(n: int)
    requires 0xff00 <= n
    ensures LowerCode(LowerCode(n)) == LowerCode(n)
    ensures IsScalar(n) ==> IsScalar(LowerCode(n))
    ensures n != 0x130 ==> LowerCode(n) != 0x130
    ensures LowerCode(n) < 0x80 <==> n == 0x212a
  {
  }

  /** Lower-casing a lower-cased character changes nothing, and no other character
      lowers to U+0130, the one capital whose lower case is two characters. */
  lemma LowerCharFixed(c: char)
    ensures LowerChar(LowerChar(c)) == LowerChar(c)
    ensures c != '\U{130}' ==> LowerChar(c) != '\U{130}'
  {
    LowerCodeFacts(c as int);
  }

  /** Only the ASCII capitals and the Kelvin sign lower to ASCII letters; every other
      ASCII character is its own lower case. */
  lemma LowerCharAscii(c: char)
    ensures LowerChar(c) < '\U{80}' <==> c < '\U{80}' || c == '\U{212a}'
    ensures c < '\U{80}' && !('A' <= c <= 'Z') ==> LowerChar(c) == c
  {
    LowerCodeFacts(c as int);
  }

  /** `c.lower()`: U+0130, the capital I with a dot above, becomes "i" followed by a
      combining dot above; every other character lowers to one character. */
  function LowerOf(c: char): (r: string)
    ensures ' ' in r <==> c == ' '
  {
    LowerCharAscii(c);
    if c == '\U{130}' then "i\U{307}" else [LowerChar(c)]
  }

  /** A string that `str.lower()` leaves unchanged. */
  predicate IsLower(s: string) {
    forall i | 0 <= i < |s| :: s[i] != '\U{130}' && LowerChar(s[i]) == s[i]
  }

  /** `s.lower()`: each character replaced by its lower case. Python lowers a capital
      sigma at the end of a word to a final sigma; this model does not. */
  function Lower(s: string): string {
    if s == [] then [] else LowerOf(s[0]) + Lower(s[1..])
  }

  /** A lower-cased string is left unchanged by `lower()`, a string that `lower()`
      leaves unchanged is its own lower case, and lower-casing neither adds nor
      removes spaces. */
  lemma LowerIsLower(s: string)
    ensures IsLower(Lower(s))
    ensures IsLower(s) ==> Lower(s) == s
    ensures ' ' in Lower(s) <==> ' ' in s
  {
    LowerMakesLower(s);
    LowerKeepsLower(s);
    LowerKeepsSpaces(s);
  }

  lemma {:induction false} LowerMakesLower(s: string)
    ensures IsLower(Lower(s))
  {
    if s != [] {
      LowerMakesLower(s[1..]);
      LowerOfIsLower(s[0]);
      LowerAppend(LowerOf(s[0]), Lower(s[1..]));
    }
  }

  lemma LowerOfIsLower(c: char)
    ensures IsLower(LowerOf(c))
  {
    LowerCharFixed(c);
    if c == '\U{130}' {
      assert LowerChar('i') == 'i' && LowerChar('\U{307}') == '\U{307}';
    }
  }

  lemma LowerAppend(a: string, b: string)
    requires IsLower(a) && IsLower(b)
    ensures IsLower(a + b)
  {
    forall i | 0 <= i < |a + b| ensures (a + b)[i] != '\U{130}' && LowerChar((a + b)[i]) == (a + b)[i] {
      if i >= |a| {
        assert (a + b)[i] == b[i - |a|];
      }
    }
  }

  lemma {:induction false} LowerKeepsLower(s: string)
    ensures IsLower(s) ==> Lower(s) == s
  {
    if s != [] && IsLower(s) {
      assert s[0] != '\U{130}' && LowerChar(s[0]) == s[0];
      assert IsLower(s[1..]) by {
        forall i | 0 <= i < |s[1..]| ensures s[1..][i] != '\U{130}' && LowerChar(s[1..][i]) == s[1..][i] {
          assert s[1..][i] == s[i + 1];
        }
      }
      LowerKeepsLower(s[1..]);
      assert s == [s[0]] + s[1..];
    }
  }

  lemma {:induction false} LowerKeepsSpaces(s: string)
    ensures ' ' in Lower(s) <==> ' ' in s
  {
    if s != [] {
      LowerKeepsSpaces(s[1..]);
      assert ' ' in Lower(s) <==> ' ' in LowerOf(s[0]) || ' ' in Lower(s[1..]);
      assert ' ' in s <==> s[0] == ' ' || ' ' in s[1..];
    }
  }

  /** Lower-casing reaches beyond ASCII: an accented capital lowers to its small
      letter. */
  lemma LowerAccented()
    ensures Lower("CLAUD\U{c9}") == "claud\U{e9}"
  {
    assert LowerChar('\U{c9}') == '\U{e9}';
    assert Lower("\U{c9}") == "\U{e9}";
    assert Lower("D\U{c9}") == "d\U{e9}";
  }

  /** The dotted capital I lowers to two characters, and the Kelvin sign to "k". */
  lemma LowerSpecialCapitals()
    ensures Lower("\U{130}") == "i\U{307}"
    ensures Lower("\U{212a}") == "k"
  {
    assert Lower("\U{130}") == LowerOf('\U{130}') + Lower([]);
    assert LowerChar('\U{212a}') == 'k';
    assert Lower("\U{212a}") == LowerOf('\U{212a}') + Lower([]);
  }

  lemma LowerIdempotent(s: string)
    ensures Lower(Lower(s)) == Lower(s)
  {
    LowerIsLower(s);
    LowerIsLower(Lower(s));
  }

  /** The number of occurrences of `c` in `s`. */
  function Count(c: char, s: string): nat {
    if s == [] then 0 else (if s[0] == c then 1 else 0) + Count(c, s[1..])
  }

  /** Python's `s.split(c)` for a one-character separator. */
  function Split(s: string, c: char): (parts: seq<string>)
    ensures |parts| == Count(c, s) + 1
  {
    if s == [] then [""]
    else
      var rest := Split(s[1..], c);
      if s[0] == c then [""] + rest else [[s[0]] + rest[0]] + rest[1..]
  }

  /** No part holds the separator. */
  lemma {:induction false} SplitParts(s: string, c: char)
    ensures forall k | 0 <= k < |Split(s, c)| :: c !in Split(s, c)[k]
  {
    if s != [] {
      SplitParts(s[1..], c);
      var rest := Split(s[1..], c);
      if s[0] != c {
        assert c !in [s[0]] + rest[0];
      }
    }
  }

  /** Python's `sep.join(parts)`. */
  function Join(parts: seq<string>, sep: string): string {
    if parts == [] then ""
    else if |parts| == 1 then parts[0]
    else parts[0] + sep + Join(parts[1..], sep)
  }

  /** Splitting on a character and joining back on it gives the original string. */
  lemma {:induction false} JoinSplit(s: string, c: char)
    ensures Join(Split(s, c), [c]) == s
  {
    if s != [] {
      JoinSplit(s[1..], c);
      JoinSplitStep(s, c);
    }
  }

  /** One step of `JoinSplit`: putting the first character back in front. */
  lemma JoinSplitStep(s: string, c: char)
    requires s != [] && Join(Split(s[1..], c), [c]) == s[1..]
    ensures Join(Split(s, c), [c]) == s
  {
    if s[0] == c {
      JoinSplitSep(s, c);
    } else {
      JoinSplitChar(s, c);
    }
  }

  lemma JoinSplitSep(s: string, c: char)
    requires s != [] && s[0] == c && Join(Split(s[1..], c), [c]) == s[1..]
    ensures Join(Split(s, c), [c]) == s
  {
    var rest := Split(s[1..], c);
    assert Split(s, c) == [""] + rest;
    JoinCons("", rest, [c]);
    assert s == [c] + s[1..];
  }

  lemma JoinSplitChar(s: string, c: char)
    requires s != [] && s[0] != c && Join(Split(s[1..], c), [c]) == s[1..]
    ensures Join(Split(s, c), [c]) == s
  {
    var rest := Split(s[1..], c);
    assert Split(s, c) == [[s[0]] + rest[0]] + rest[1..];
    JoinHead(s[0], rest, [c]);
    assert s == [s[0]] + s[1..];
  }

  lemma JoinCons(p: string, rest: seq<string>, sep: string)
    requires rest != []
    ensures Join([p] + rest, sep) == p + sep + Join(rest, sep)
  {
    assert ([p] + rest)[1..] == rest;
  }

  lemma JoinHead(ch: char, rest: seq<string>, sep: string)
    requires rest != []
    ensures Join([[ch] + rest[0]] + rest[1..], sep) == [ch] + Join(rest, sep)
  {
    var parts := [[ch] + rest[0]] + rest[1..];
    if |rest| > 1 {
      assert parts[1..] == rest[1..];
    }
  }

  /** When `c` occurs exactly once, `s.split(c)` is the text before it and the text after it. */
  lemma {:induction false} SplitOnce(s: string, c: char, i: nat)
    requires i < |s| && s[i] == c && c !in s[..i] && c !in s[i + 1..]
    ensures Split(s, c) == [s[..i], s[i + 1..]]
  {
    if i == 0 {
      assert s[1..] == s[i + 1..];
      SplitNone(s[1..], c);
    } else {
      assert s[1..][i - 1] == c;
      assert s[1..][..i - 1] == s[1..i];
      assert s[1..][i..] == s[i + 1..];
      SplitOnce(s[1..], c, i - 1);
      assert [s[0]] + s[1..i] == s[..i];
    }
  }

  lemma {:induction false} SplitNone(s: string, c: char)
    requires c !in s
    ensures Split(s, c) == [s]
  {
    if s != [] {
      assert c !in s[1..];
      SplitNone(s[1..], c);
      assert [s[0]] + s[1..] == s;
    }
  }

  // ---------------------------------------------------------------------------
  // Integers: str(n) and int(s)

  /** An ASCII digit, as `str(n)` writes them. */
  predicate IsDigit(c: char) {
    '0' <= c <= '9'
  }

  /** Does the code point `n` lie in the run of ten digits whose zero is `zero`? */
  predicate InRun(n: int, zero: int) {
    zero <= n < zero + 10
  }

  /** The zero of the run of ten decimal digits holding the code point `n`, for the
      decimal digits of Unicode 15.0 (general category Nd) other than ASCII. */
  function OtherRunZero(n: int): (zero: Option<int>)
    ensures zero.Some? ==> InRun(n, zero.value)
  {
    if InRun(n, 0x660) then Some(0x660)   // Arabic-Indic
    else if InRun(n, 0x6F0) then Some(0x6F0)   // Extended Arabic-Indic
    else if InRun(n, 0x7C0) then Some(0x7C0)   // NKo
    else if InRun(n, 0x966) then Some(0x966)   // Devanagari
    else if InRun(n, 0x9E6) then Some(0x9E6)   // Bengali
    else if InRun(n, 0xA66) then Some(0xA66)   // Gurmukhi
    else if InRun(n, 0xAE6) then Some(0xAE6)   // Gujarati
    else if InRun(n, 0xB66) then Some(0xB66)   // Oriya
    else if InRun(n, 0xBE6) then Some(0xBE6)   // Tamil
    else if InRun(n, 0xC66) then Some(0xC66)   // Telugu
    else if InRun(n, 0xCE6) then Some(0xCE6)   // Kannada
    else if InRun(n, 0xD66) then Some(0xD66)   // Malayalam
    else if InRun(n, 0xDE6) then Some(0xDE6)   // Sinhala Lith
    else if InRun(n, 0xE50) then Some(0xE50)   // Thai
    else if InRun(n, 0xED0) then Some(0xED0)   // Lao
    else if InRun(n, 0xF20) then Some(0xF20)   // Tibetan
    else if InRun(n, 0x1040) then Some(0x1040)  // Myanmar
    else if InRun(n, 0x1090) then Some(0x1090)  // Myanmar Shan
    else if InRun(n, 0x17E0) then Some(0x17E0)  // Khmer
    else if InRun(n, 0x1810) then Some(0x1810)  // Mongolian
    else if InRun(n, 0x1946) then Some(0x1946)  // Limbu
    else if InRun(n, 0x19D0) then Some(0x19D0)  // New Tai Lue
    else if InRun(n, 0x1A80) then Some(0x1A80)  // Tai Tham Hora
    else if InRun(n, 0x1A90) then Some(0x1A90)  // Tai Tham Tham
    else if InRun(n, 0x1B50) then Some(0x1B50)  // Balinese
    else if InRun(n, 0x1BB0) then Some(0x1BB0)  // Sundanese
    else if InRun(n, 0x1C40) then Some(0x1C40)  // Lepcha
    else if InRun(n, 0x1C50) then Some(0x1C50)  // Ol Chiki
    else if InRun(n, 0xA620) then Some(0xA620)  // Vai
    else if InRun(n, 0xA8D0) then Some(0xA8D0)  // Saurashtra
    else if InRun(n, 0xA900) then Some(0xA900)  // Kayah Li
    else if InRun(n, 0xA9D0) then Some(0xA9D0)  // Javanese
    else if InRun(n, 0xA9F0) then Some(0xA9F0)  // Myanmar Tai Laing
    else if InRun(n, 0xAA50) then Some(0xAA50)  // Cham
    else if InRun(n, 0xABF0) then Some(0xABF0)  // Meetei Mayek
    else if InRun(n, 0xFF10) then Some(0xFF10)  // fullwidth
    else if InRun(n, 0x104A0) then Some(0x104A0) // Osmanya
    else if InRun(n, 0x10D30) then Some(0x10D30) // Hanifi Rohingya
    else if InRun(n, 0x11066) then Some(0x11066) // Brahmi
    else if InRun(n, 0x110F0) then Some(0x110F0) // Sora Sompeng
    else if InRun(n, 0x11136) then Some(0x11136) // Chakma
    else if InRun(n, 0x111D0) then Some(0x111D0) // Sharada
    else if InRun(n, 0x112F0) then Some(0x112F0) // Khudawadi
    else if InRun(n, 0x11450) then Some(0x11450) // Newa
    else if InRun(n, 0x114D0) then Some(0x114D0) // Tirhuta
    else if InRun(n, 0x11650) then Some(0x11650) // Modi
    else if InRun(n, 0x116C0) then Some(0x116C0) // Takri
    else if InRun(n, 0x11730) then Some(0x11730) // Ahom
    else if InRun(n, 0x118E0) then Some(0x118E0) // Warang Citi
    else if InRun(n, 0x11950) then Some(0x11950) // Dives Akuru
    else if InRun(n, 0x11C50) then Some(0x11C50) // Bhaiksuki
    else if InRun(n, 0x11D50) then Some(0x11D50) // Masaram Gondi
    else if InRun(n, 0x11DA0) then Some(0x11DA0) // Gunjala Gondi
    else if InRun(n, 0x11F50) then Some(0x11F50) // Kawi
    else if InRun(n, 0x16A60) then Some(0x16A60) // Mro
    else if InRun(n, 0x16AC0) then Some(0x16AC0) // Tangsa
    else if InRun(n, 0x16B50) then Some(0x16B50) // Pahawh Hmong
    else if InRun(n, 0x1D7CE) then Some(0x1D7CE) // mathematical bold
    else if InRun(n, 0x1D7D8) then Some(0x1D7D8) // mathematical double-struck
    else if InRun(n, 0x1D7E2) then Some(0x1D7E2) // mathematical sans-serif
    else if InRun(n, 0x1D7EC) then Some(0x1D7EC) // mathematical sans-serif bold
    else if InRun(n, 0x1D7F6) then Some(0x1D7F6) // mathematical monospace
    else if InRun(n, 0x1E140) then Some(0x1E140) // Nyiakeng Puachue Hmong
    else if InRun(n, 0x1E2F0) then Some(0x1E2F0) // Wancho
    else if InRun(n, 0x1E4F0) then Some(0x1E4F0) // Nag Mundari
    else if InRun(n, 0x1E950) then Some(0x1E950) // Adlam
    else if InRun(n, 0x1FBF0) then Some(0x1FBF0) // segmented
    else None
  }

  /** The value Python's `int()` gives the decimal digit `c` of any script, `None`
      for a character that is not a decimal digit. */
  function DecimalValue(c: char): (d: Option<nat>)
    ensures d.Some? ==> d.value < 10
  {
    if IsDigit(c) then Some(c as int - '0' as int)
    else
      match OtherRunZero(c as int)
      case Some(zero) => Some(c as int - zero)
      case None => None
  }

  predicate IsDecimal(c: char) {
    DecimalValue(c).Some?
  }

  /** An ASCII digit is the decimal digit of its own value. */
  lemma AsciiDecimal(c: char)
    requires IsDigit(c)
    ensures DecimalValue(c) == Some(c as int - '0' as int)
  {
  }

  function DigitChar(d: nat): (c: char)
    requires d < 10
    ensures IsDigit(c)
  {
    ('0' as int + d) as char
  }

  /** Decimal digits of `n` without leading zeros. */
  function ShowNat(n: nat): (s: string)
    ensures |s| > 0
    ensures forall i | 0 <= i < |s| :: IsDigit(s[i])
  {
    if n < 10 then [DigitChar(n)] else ShowNat(n / 10) + [DigitChar(n % 10)]
  }

  /** Python's `str(n)` for an `int`. */
  function ShowInt(n: int): string {
    if n < 0 then "-" + ShowNat(-n) else ShowNat(n)
  }

  /** The body Python's `int()` accepts after the sign: decimal digits of any script,
      mixed freely, with single underscores allowed between two digits. */
  predicate DigitBody(s: string) {
    && |s| > 0
    && IsDecimal(s[0]) && IsDecimal(s[|s| - 1])
    && (forall i | 0 <= i < |s| :: IsDecimal(s[i]) || s[i] == '_')
    && (forall i | 0 <= i < |s| - 1 :: !(s[i] == '_' && s[i + 1] == '_'))
  }

  /** The value of a digit body, underscores ignored. */
  function DigitsValue(s: string): nat
    requires forall i | 0 <= i < |s| :: IsDecimal(s[i]) || s[i] == '_'
  {
    if s == [] then 0
    else if s[|s| - 1] == '_' then DigitsValue(s[..|s| - 1])
    else
      assert IsDecimal(s[|s| - 1]);
      10 * DigitsValue(s[..|s| - 1]) + DecimalValue(s[|s| - 1]).value
  }

  /** Python's `int(s)` in base 10: surrounding whitespace is ignored, an optional
      sign comes first, and `None` stands for the `ValueError` it raises. */
  function ParseInt(s: string): Option<int> {
    var t := Strip(s);
    if |t| > 0 && (t[0] == '-' || t[0] == '+') then
      if DigitBody(t[1..]) then
        var v: int := DigitsValue(t[1..]);
        Some(if t[0] == '-' then -v else v)
      else None
    else if DigitBody(t) then Some(DigitsValue(t))
    else None
  }

  lemma ShowNatBody(n: nat)
    ensures DigitBody(ShowNat(n))
  {
    var s := ShowNat(n);
    forall i | 0 <= i < |s| ensures IsDecimal(s[i]) {
      AsciiDecimal(s[i]);
    }
  }

  lemma {:induction false} ShowNatValue(n: nat)
    ensures DigitBody(ShowNat(n)) && DigitsValue(ShowNat(n)) == n
  {
    ShowNatBody(n);
    if n < 10 {
      AsciiDecimal(DigitChar(n));
    } else {
      var s := ShowNat(n / 10) + [DigitChar(n % 10)];
      assert s[..|s| - 1] == ShowNat(n / 10);
      ShowNatBody(n / 10);
      ShowNatValue(n / 10);
      AsciiDecimal(DigitChar(n % 10));
    }
  }

  lemma NoSpaceStrip(s: string)
    requires forall i | 0 <= i < |s| :: !IsSpace(s[i])
    ensures Strip(s) == s
  {
    if s != [] {
      assert !IsSpace(s[0]) && !IsSpace(s[|s| - 1]);
    }
  }

  /** `int(str(n)) == n`: the decimal rendering of an integer parses back to it. */
  lemma ParseShowInt(n: int)
    ensures ParseInt(ShowInt(n)) == Some(n)
  {
    var s := ShowInt(n);
    NoSpaceStrip(s);
    ShowNatBody(if n < 0 then -n else n);
    ShowNatValue(if n < 0 then -n else n);
    if n < 0 {
      assert s[1..] == ShowNat(-n);
    }
  }

  /** Digits of other scripts read like ASCII ones: Arabic-Indic "+42". */
  lemma ParseIntArabicIndic()
    ensures ParseInt("+\U{0664}\U{0662}") == Some(42)
  {
    var b := "+\U{0664}\U{0662}";
    var t := b[1..];
    assert DecimalValue(t[0]) == Some(4) && DecimalValue(t[1]) == Some(2);
    NoSpaceStrip(b);
    assert DigitBody(t);
    assert t[..1] == t[..|t| - 1];
    assert DigitsValue(t[..1]) == 4;
  }

  /** Scripts may be mixed within one literal, with a sign and an underscore:
      a fullwidth "4", then "_2". */
  lemma ParseIntMixedScripts()
    ensures ParseInt("-\U{ff14}_2") == Some(-42)
  {
    var b := "-\U{ff14}_2";
    var t := b[1..];
    assert DecimalValue(t[0]) == Some(4);
    NoSpaceStrip(b);
    assert DigitBody(t);
    assert t[..2][..1] == t[..1] && t[..2] == t[..|t| - 1];
    assert DigitsValue(t[..1]) == 4;
    assert DigitsValue(t[..2]) == 4;
  }

  // ---------------------------------------------------------------------------
  // Bytes

  /** The characters of a byte string, one per byte (Latin-1). */
  function ByteChars(bs: seq<bv8>): (s: string)
    ensures |s| == |bs|
    ensures forall i | 0 <= i < |bs| :: s[i] as int == bs[i] as int
  {
    seq(|bs|, i requires 0 <= i < |bs| => (bs[i] as int) as char)
  }

  /** Python's `int(b)` for a byte string: only ASCII digits, signs, underscores and
      the six ASCII whitespace characters can take part in a literal, and for
      those it reads like `int()` of the same text. */
  function ParseIntBytes(bs: seq<bv8>): Option<int> {
    if forall i | 0 <= i < |bs| :: bs[i] < 0x80 && !(0x1c <= bs[i] <= 0x1f)
    then ParseInt(ByteChars(bs))
    else None
  }

  /** The lower-case hexadecimal digit of `d`. */
  function HexDigit(d: int): char
    requires 0 <= d < 16
  {
    if d < 10 then ('0' as int + d) as char else ('a' as int + d - 10) as char
  }

  /** One byte as `repr` writes it between the quotes `q`. */
  function ByteRepr(b: bv8, q: char): string {
    var c := (b as int) as char;
    if c == q || c == '\\' then ['\\', c]
    else if c == '\t' then "\\t"
    else if c == '\n' then "\\n"
    else if c == '\r' then "\\r"
    else if b < 0x20 || b >= 0x7f then "\\x" + [HexDigit(b as int / 16), HexDigit(b as int % 16)]
    else [c]
  }

  /** Python's `repr(b)` for a byte string: single quotes unless the bytes hold a
      single quote and no double quote. */
  function BytesRepr(bs: seq<bv8>): string {
    var q := if 0x27 in bs && 0x22 !in bs then '"' else '\'';
    "b" + [q] + BytesBody(bs, q) + [q]
  }

  function BytesBody(bs: seq<bv8>, q: char): string {
    if bs == [] then "" else ByteRepr(bs[0], q) + BytesBody(bs[1..], q)
  }

  /** `str.isprintable()` on one character (Unicode 15.0): false for controls,
      format characters, separators other than the space, surrogates and private
      use. Unassigned code points are not covered. */
  predicate IsPrintable(c: char) {
    if c < '\U{80}' then ' ' <= c < '\U{7f}' else !NonPrintable(c as int)
  }

  /** The assigned code points from U+0080 on that are not printable, run by run. */
  predicate NonPrintable(n: int) {
    || 0x80 <= n <= 0xa0  // C1 controls and the no-break space
    || n == 0xad  // soft hyphen
    || 0x600 <= n <= 0x605  // Arabic number signs
    || n == 0x61c  // Arabic letter mark
    || n == 0x6dd  // Arabic end of ayah
    || n == 0x70f  // Syriac abbreviation mark
    || 0x890 <= n <= 0x891  // Arabic pound and piastre marks
    || n == 0x8e2  // Arabic disputed end of ayah
    || n == 0x1680  // Ogham space mark
    || n == 0x180e  // Mongolian vowel separator
    || 0x2000 <= n <= 0x200f  // spaces, zero-width characters and direction marks
    || 0x2028 <= n <= 0x202f  // line and paragraph separators, embeddings and the narrow no-break space
    || 0x205f <= n <= 0x2064  // medium mathematical space and invisible operators
    || 0x2066 <= n <= 0x206f  // isolates and deprecated format characters
    || n == 0x3000  // ideographic space
    || 0xd800 <= n <= 0xf8ff  // surrogates and the private use area
    || n == 0xfeff  // zero-width no-break space
    || 0xfff9 <= n <= 0xfffb  // interlinear annotation controls
    || n == 0x110bd  // Kaithi number sign
    || n == 0x110cd  // Kaithi number sign above
    || 0x13430 <= n <= 0x1343f  // Egyptian hieroglyph format controls
    || 0x1bca0 <= n <= 0x1bca3  // shorthand format controls
    || 0x1d173 <= n <= 0x1d17a  // musical symbol format controls
    || n == 0xe0001  // language tag
    || 0xe0020 <= n <= 0xe007f  // tag characters
    || 0xf0000 <= n <= 0xffffd  // supplementary private use area A
    || 0x100000 <= n <= 0x10fffd  // supplementary private use area B
  }

  function Pow16(w: nat): nat {
    if w == 0 then 1 else 16 * Pow16(w - 1)
  }

  /** `n` in exactly `w` lower-case hexadecimal digits. */
  function Hex(n: nat, w: nat): (h: string)
    ensures |h| == w
  {
    if w == 0 then "" else Hex(n / 16, w - 1) + [HexDigit(n % 16)]
  }

  function HexDigitValue(c: char): Option<nat> {
    if '0' <= c <= '9' then Some(c as int - '0' as int)
    else if 'a' <= c <= 'f' then Some(c as int - 'a' as int + 10)
    else if 'A' <= c <= 'F' then Some(c as int - 'A' as int + 10)
    else None
  }

  /** The number a string of hexadecimal digits denotes. */
  function HexValue(h: string): Option<nat> {
    if h == [] then Some(0)
    else
      match (HexValue(h[..|h| - 1]), HexDigitValue(h[|h| - 1]))
      case (Some(hi), Some(lo)) => Some(16 * hi + lo)
      case _ => None
  }

  /** Reading back `w` hexadecimal digits gives the number written. */
  lemma {:induction false} HexRoundTrip(n: nat, w: nat)
    requires n < Pow16(w)
    ensures HexValue(Hex(n, w)) == Some(n)
  {
    if w > 0 {
      var h := Hex(n, w);
      assert h[..|h| - 1] == Hex(n / 16, w - 1);
      HexRoundTrip(n / 16, w - 1);
    }
  }

  /** One character as `repr` writes it between the quotes `q`. */
  function CharRepr(c: char, q: char): string {
    if c == q || c == '\\' then ['\\', c]
    else if c == '\t' then "\\t"
    else if c == '\n' then "\\n"
    else if c == '\r' then "\\r"
    else if IsPrintable(c) then [c]
    else if c as int <= 0xff then "\\x" + Hex(c as int, 2)
    else if c as int <= 0xffff then "\\u" + Hex(c as int, 4)
    else "\\U" + Hex(c as int, 8)
  }

  /** The quote `repr` puts around `s`: a double quote when `s` holds a single quote
      and no double quote, a single quote otherwise. */
  function ReprQuote(s: string): char {
    if '\'' in s && '"' !in s then '"' else '\''
  }

  /** Python's `repr(s)` for a string. */
  function StrRepr(s: string): (r: string)
    ensures |r| >= 2 && r[0] == r[|r| - 1] == ReprQuote(s)
  {
    var q := ReprQuote(s);
    [q] + StrBody(s, q) + [q]
  }

  function StrBody(s: string, q: char): string {
    if s == [] then "" else CharRepr(s[0], q) + StrBody(s[1..], q)
  }

  function Prepend(c: char, r: Option<string>): Option<string> {
    match r
    case Some(t) => Some([c] + t)
    case None => None
  }

  /** Reads back the text between the quotes `q` of a string literal as Python reads
      the escapes `repr` writes; an unescaped `q` or an unknown escape is an error. */
  function ReadBody(t: string, q: char): Option<string>
    decreases |t|
  {
    if t == [] then Some("")
    else if t[0] == q then None
    else if t[0] != '\\' then Prepend(t[0], ReadBody(t[1..], q))
    else if |t| < 2 then None
    else if t[1] in "\\'\"" then Prepend(t[1], ReadBody(t[2..], q))
    else if t[1] == 't' then Prepend('\t', ReadBody(t[2..], q))
    else if t[1] == 'n' then Prepend('\n', ReadBody(t[2..], q))
    else if t[1] == 'r' then Prepend('\r', ReadBody(t[2..], q))
    else
      var w := if t[1] == 'x' then 2 else if t[1] == 'u' then 4 else if t[1] == 'U' then 8 else 0;
      if w == 0 || |t| < 2 + w then None
      else
        match HexValue(t[2..2 + w])
        case Some(n) => if IsScalar(n) then Prepend(n as char, ReadBody(t[2 + w..], q)) else None
        case None => None
  }

  /** The value of a quoted string literal. */
  function ReadLiteral(t: string): Option<string> {
    if |t| >= 2 && (t[0] == '\'' || t[0] == '"') && t[|t| - 1] == t[0] then ReadBody(t[1..|t| - 1], t[0])
    else None
  }

  /** Reading back one character's escape, then the rest. */
  lemma CharReprRead(c: char, q: char, rest: string)
    requires q == '\'' || q == '"'
    ensures ReadBody(CharRepr(c, q) + rest, q) == Prepend(c, ReadBody(rest, q))
  {
    var e := CharRepr(c, q);
    var t := e + rest;
    if c == q || c == '\\' {
      assert e == ['\\', c] && t[1] == c && t[2..] == rest;
    } else if c == '\t' || c == '\n' || c == '\r' {
      assert t[2..] == rest;
    } else if IsPrintable(c) {
      assert e == [c] && t[1..] == rest;
    } else if c as int <= 0xff {
      HexEscapeRead(c, q, rest, 'x', 2);
    } else if c as int <= 0xffff {
      HexEscapeRead(c, q, rest, 'u', 4);
    } else {
      HexEscapeRead(c, q, rest, 'U', 8);
    }
  }

  /** Reading back a `\\x`, `\\u` or `\\U` escape of `w` hexadecimal digits. */
  lemma HexEscapeRead(c: char, q: char, rest: string, letter: char, w: nat)
    requires q == '\'' || q == '"'
    requires (letter, w) in {('x', 2), ('u', 4), ('U', 8)}
    requires c as int < Pow16(w)
    ensures ReadBody(['\\', letter] + Hex(c as int, w) + rest, q) == Prepend(c, ReadBody(rest, q))
  {
    var t := ['\\', letter] + Hex(c as int, w) + rest;
    assert t[0] == '\\' && t[1] == letter;
    assert t[2..2 + w] == Hex(c as int, w);
    assert t[2 + w..] == rest;
    HexRoundTrip(c as int, w);
  }

  /** `repr` can be read back: the literal it writes denotes the string. */
  lemma {:induction false} StrBodyRead(s: string, q: char)
    requires q == '\'' || q == '"'
    ensures ReadBody(StrBody(s, q), q) == Some(s)
  {
    if s != [] {
      StrBodyRead(s[1..], q);
      CharReprRead(s[0], q, StrBody(s[1..], q));
      assert [s[0]] + s[1..] == s;
    }
  }

  lemma StrReprRoundTrip(s: string)
    ensures ReadLiteral(StrRepr(s)) == Some(s)
  {
    var q := ReprQuote(s);
    var r := StrRepr(s);
    assert r[1..|r| - 1] == StrBody(s, q);
    StrBodyRead(s, q);
  }

  /** Example: a single quote and no double quote makes `repr` use double quotes. */
  lemma StrReprPrefersDoubleQuotes()
    ensures StrRepr("it's") == "\"it's\""
  {
  }

  /** Example: tabs, newlines and backslashes are written as two-character escapes. */
  lemma StrReprEscapesControls()
    ensures StrRepr("a\tb\n") == "'a\\tb\\n'"
    ensures StrRepr("a\\b") == "'a\\\\b'"
  {
    assert StrBody("\n", '\'') == "\\n";
    assert StrBody("b\n", '\'') == "b\\n";
    assert StrBody("\tb\n", '\'') == "\\tb\\n";
    assert StrBody("\\b", '\'') == "\\\\b";
  }

  /** Example: a zero-width space is not printable and is written as a `\u` escape. */
  lemma StrReprEscapesNonPrintable()
    ensures StrRepr("\U{200b}") == "'\\u200b'"
  {
    assert Hex(0x200b, 4) == "200b";
    assert CharRepr('\U{200b}', '\'') == "\\u200b";
  }

  /** The first `n` items of `xs`, or all of them when there are fewer. */
  function Truncate<T>(xs: seq<T>, n: nat): (r: seq<T>)
    ensures |r| <= n && |r| <= |xs| && r == xs[..|r|]
    ensures |xs| <= n ==> r == xs
  {
    if |xs| <= n then xs else xs[..n]
  }
}
