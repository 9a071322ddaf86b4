/** The string primitives the screens use: `toLowerCase`, `includes`, `trim` and the `<` order on strings. */
module Text {

  /** `toLowerCase` on one character, restricted to the ASCII letters. */
  function LowerChar(c: char): (r: char)
    ensures 'A' <= c <= 'Z' ==> 'a' <= r <= 'z' && r as int - c as int == 32
    ensures !('A' <= c <= 'Z') ==> r == c
  {
    if 'A' <= c <= 'Z' then (c as int + 32) as char else c
  }

  /** `String.prototype.toLowerCase`, character by character. */
  function Lower(s: string): (r: string)
    ensures |r| == |s|
    ensures forall i :: 0 <= i < |s| ==> r[i] == LowerChar(s[i])
  {
    seq(|s|, i requires 0 <= i < |s| => LowerChar(s[i]))
  }

  /** Lowering twice is lowering once. */
  lemma LowerIdempotent(s: string)
    ensures Lower(Lower(s)) == Lower(s)
  {
    var l := Lower(s);
    assert forall i :: 0 <= i < |s| ==> LowerChar(l[i]) == l[i];
  }

  /** A lowered string holds no upper-case ASCII letter. */
  lemma LowerHasNoCapitals(s: string)
    ensures forall i :: 0 <= i < |s| ==> !('A' <= Lower(s)[i] <= 'Z')
  {
  }

  /** `needle` occurs in `hay` starting at position `i`. */
  predicate OccursAt(hay: string, needle: string, i: int)
  {
    0 <= i && i + |needle| <= |hay| && hay[i..i + |needle|] == needle
  }

  /** `hay.includes(needle)`: `needle` occurs in `hay` at some position. */
  predicate Contains(hay: string, needle: string)
  {
    exists i :: 0 <= i <= |hay| - |needle| && OccursAt(hay, needle, i)
  }

  /** Every string contains the empty string, which is why an empty search term keeps every row. */
  lemma ContainsEmpty(hay: string)
    ensures Contains(hay, "")
  {
    assert OccursAt(hay, "", 0);
  }

  /** A string contains every prefix of itself. */
  lemma ContainsPrefix(hay: string, n: nat)
    requires n <= |hay|
    ensures Contains(hay, hay[..n])
  {
    assert OccursAt(hay, hay[..n], 0);
  }

  /** A needle whose first character does not occur in the haystack is not contained in it. */
  lemma NotContainsFirstChar(hay: string, needle: string)
    requires |needle| > 0
    requires needle[0] !in hay
    ensures !Contains(hay, needle)
  {
    forall i | 0 <= i <= |hay| - |needle|
      ensures !OccursAt(hay, needle, i)
    {
      assert hay[i] in hay;
      assert hay[i..i + |needle|][0] == hay[i];
    }
  }

  /** A lowered string contains a lower-case ASCII letter only if the original has it in either case. */
  lemma LowerCharIn(s: string, c: char)
    requires 'a' <= c <= 'z'
    requires c !in s
    requires (c as int - 32) as char !in s
    ensures c !in Lower(s)
  {
    forall i | 0 <= i < |s|
      ensures Lower(s)[i] != c
    {
      assert s[i] != c && s[i] != (c as int - 32) as char;
    }
  }

  /** The characters `String.prototype.trim` removes: ECMAScript WhiteSpace and LineTerminator. */
  predicate IsSpace(c: char)
  {
    || c == ' ' || c == '\t' || c == '\n' || c == '\r'
    || c == '\U{000B}' || c == '\U{000C}' || c == '\U{00A0}' || c == '\U{1680}'
    || ('\U{2000}' <= c <= '\U{200A}')
    || c == '\U{2028}' || c == '\U{2029}' || c == '\U{202F}' || c == '\U{205F}'
    || c == '\U{3000}' || c == '\U{FEFF}'
  }

  /** Drops leading white space. */
  function TrimStart(s: string): (r: string)
    ensures |r| <= |s| && r == s[|s| - |r|..]
    ensures |r| > 0 ==> !IsSpace(r[0])
    ensures forall i :: 0 <= i < |s| - |r| ==> IsSpace(s[i])
  {
    if |s| > 0 && IsSpace(s[0]) then TrimStart(s[1..]) else s
  }

  /** Drops trailing white space. */
  function TrimEnd(s: string): (r: string)
    ensures |r| <= |s| && r == s[..|r|]
    ensures |r| > 0 ==> !IsSpace(r[|r| - 1])
    ensures forall i :: |r| <= i < |s| ==> IsSpace(s[i])
  {
    if |s| > 0 && IsSpace(s[|s| - 1]) then TrimEnd(s[..|s| - 1]) else s
  }

  /** `String.prototype.trim`. */
  function Trim(s: string): string
  {
    TrimEnd(TrimStart(s))
  }

  /** `!s.trim()`: a string trims to nothing exactly when it is all white space. */
  lemma TrimEmptyIffBlank(s: string)
    ensures Trim(s) == "" <==> forall i :: 0 <= i < |s| ==> IsSpace(s[i])
  {
    var t := TrimStart(s);
    if Trim(s) == "" {
      assert |t| == 0;
    } else {
      var r := Trim(s);
      assert !IsSpace(r[0]);
      assert r[0] == t[0];
      assert t[0] == s[|s| - |t|];
    }
  }

  /** Trimming is idempotent. */
  lemma TrimIdempotent(s: string)
    ensures Trim(Trim(s)) == Trim(s)
  {
    var r := Trim(s);
    if |r| > 0 {
      assert r[0] == TrimStart(s)[0];
      assert TrimStart(r) == r;
    }
  }

  /**
   * The UTF-16 code units of one character, as JavaScript strings store it: a character of
   * the Basic Multilingual Plane is one unit holding its code point; any other character is
   * a surrogate pair, a lead unit in D800-DBFF followed by a trail unit in DC00-DFFF.
   */
  function CodeUnits(c: char): (r: seq<int>)
    ensures |r| == 1 || |r| == 2
    ensures |r| == 1 <==> c as int < 0x1_0000
    ensures |r| == 1 ==> r[0] == c as int && !(0xD800 <= r[0] < 0xDC00)
    ensures |r| == 2 ==> 0xD800 <= r[0] < 0xDC00 && 0xDC00 <= r[1] < 0xE000
    ensures |r| == 2 ==> c as int == 0x1_0000 + (r[0] - 0xD800) * 0x400 + (r[1] - 0xDC00)
  {
    var v := c as int;
    if v < 0x1_0000 then [v]
    else [0xD800 + (v - 0x1_0000) / 0x400, 0xDC00 + (v - 0x1_0000) % 0x400]
  }

  /** A character is recovered from its code units. */
  lemma CodeUnitsInjective(c: char, d: char)
    requires CodeUnits(c) == CodeUnits(d)
    ensures c == d
  {
  }

  /** The UTF-16 encoding of a string: the code units of its characters, in order. */
  function Utf16(s: string): (r: seq<int>)
    ensures |s| <= |r| <= 2 * |s|
  {
    if |s| == 0 then [] else CodeUnits(s[0]) + Utf16(s[1..])
  }

  /** Two strings with the same code units are the same string. */
  lemma {:induction false} Utf16Injective(a: string, b: string)
    requires Utf16(a) == Utf16(b)
    ensures a == b
  {
    if |a| > 0 && |b| > 0 {
      var ua, ub := CodeUnits(a[0]), CodeUnits(b[0]);
      assert Utf16(a) == ua + Utf16(a[1..]) && Utf16(b) == ub + Utf16(b[1..]);
      assert ua[0] == Utf16(a)[0] == ub[0];
      assert |ua| == |ub|;
      assert ua == Utf16(a)[..|ua|] == ub;
      CodeUnitsInjective(a[0], b[0]);
      assert Utf16(a[1..]) == Utf16(a)[|ua|..] == Utf16(b[1..]);
      Utf16Injective(a[1..], b[1..]);
      assert a == [a[0]] + a[1..] && b == [b[0]] + b[1..];
    }
  }

  /** Lexicographic order on code-unit sequences, a proper prefix first. */
  predicate UnitsLess(a: seq<int>, b: seq<int>)
  {
    if |a| == 0 then |b| > 0
    else if |b| == 0 then false
    else if a[0] != b[0] then a[0] < b[0]
    else UnitsLess(a[1..], b[1..])
  }

  lemma {:induction false} UnitsLessIrreflexive(a: seq<int>)
    ensures !UnitsLess(a, a)
  {
    if |a| > 0 {
      UnitsLessIrreflexive(a[1..]);
    }
  }

  lemma {:induction false} UnitsLessTransitive(a: seq<int>, b: seq<int>, c: seq<int>)
    requires UnitsLess(a, b) && UnitsLess(b, c)
    ensures UnitsLess(a, c)
  {
    if |a| > 0 && |b| > 0 && |c| > 0 && a[0] == b[0] && b[0] == c[0] {
      UnitsLessTransitive(a[1..], b[1..], c[1..]);
    }
  }

  lemma {:induction false} UnitsLessTotal(a: seq<int>, b: seq<int>)
    ensures a == b || UnitsLess(a, b) || UnitsLess(b, a)
  {
    if |a| > 0 && |b| > 0 && a[0] == b[0] {
      UnitsLessTotal(a[1..], b[1..]);
      if a[1..] == b[1..] {
        assert a == [a[0]] + a[1..] && b == [b[0]] + b[1..];
      }
    }
  }

  /**
   * JavaScript's `<` on strings: lexicographic order on UTF-16 code units, a proper prefix
   * first. It is not code-point order: a character beyond the Basic Multilingual Plane
   * starts with a surrogate and so sorts before the BMP characters from E000 up.
   */
  predicate StrLess(a: string, b: string)
  {
    UnitsLess(Utf16(a), Utf16(b))
  }

  lemma StrLessIrreflexive(a: string)
    ensures !StrLess(a, a)
  {
    UnitsLessIrreflexive(Utf16(a));
  }

  lemma StrLessTransitive(a: string, b: string, c: string)
    requires StrLess(a, b) && StrLess(b, c)
    ensures StrLess(a, c)
  {
    UnitsLessTransitive(Utf16(a), Utf16(b), Utf16(c));
  }

  lemma StrLessTotal(a: string, b: string)
    ensures a == b || StrLess(a, b) || StrLess(b, a)
  {
    UnitsLessTotal(Utf16(a), Utf16(b));
    if Utf16(a) == Utf16(b) {
      Utf16Injective(a, b);
    }
  }

  /**
   * On two BMP characters the order is their code-point order; a character beyond the BMP
   * sorts before every BMP character from E000 up, whatever its code point.
   */
  lemma CharOrder(c: char, d: char, x: string, y: string)
    requires c != d
    ensures c as int < 0x1_0000 && d as int < 0x1_0000 ==> (StrLess([c] + x, [d] + y) <==> c < d)
    ensures c as int >= 0x1_0000 && 0xE000 <= d as int < 0x1_0000 ==> StrLess([c] + x, [d] + y)
  {
    assert ([c] + x)[0] == c && ([c] + x)[1..] == x;
    assert ([d] + y)[0] == d && ([d] + y)[1..] == y;
    var ux, uy := Utf16([c] + x), Utf16([d] + y);
    assert ux == CodeUnits(c) + Utf16(x) && uy == CodeUnits(d) + Utf16(y);
    assert ux[0] == CodeUnits(c)[0] && uy[0] == CodeUnits(d)[0];
    if CodeUnits(c)[0] == CodeUnits(d)[0] {
      assert c as int >= 0x1_0000 && d as int >= 0x1_0000;
    }
  }

  /** The emoji U+1F600 sorts before the fullwidth tilde U+FF5E, though its code point is larger. */
  lemma EmojiBeforeFullwidthTilde()
    ensures StrLess("\U{1F600}", "\U{FF5E}") && !StrLess("\U{FF5E}", "\U{1F600}")
    ensures '\U{FF5E}' < '\U{1F600}'
  {
    CharOrder('\U{1F600}', '\U{FF5E}', "", "");
    StrLessTotal("\U{1F600}", "\U{FF5E}");
    StrLessIrreflexive("\U{1F600}");
    if StrLess("\U{FF5E}", "\U{1F600}") {
      StrLessTransitive("\U{1F600}", "\U{FF5E}", "\U{1F600}");
    }
  }
}
