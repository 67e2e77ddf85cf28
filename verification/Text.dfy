/** Byte strings and the few operations of Go's strings and bytes packages that
    the modelled code relies on. One `char` stands for one byte. */
module Text {

  datatype Option<+T> = None | Some(value: T)

  type Bytes = string

  /** The UTF-8 encodings of the white-space runes: ASCII space, tab, newline, vertical tab, form feed and
      carriage return; U+0085 and U+00A0; U+1680, U+2000 to U+200A, U+2028, U+2029, U+202F, U+205F, U+3000. */
  predicate IsSpaceRune(t: Bytes) {
    if |t| == 1 then
      t[0] == ' ' || '\t' <= t[0] <= '\r'
    else if |t| == 2 then
      t[0] == '\U{C2}' && (t[1] == '\U{85}' || t[1] == '\U{A0}')
    else if |t| == 3 then
      || (t[0] == '\U{E1}' && t[1] == '\U{9A}' && t[2] == '\U{80}')
      || (t[0] == '\U{E2}' && t[1] == '\U{80}' &&
          ('\U{80}' <= t[2] <= '\U{8A}' || t[2] == '\U{A8}' || t[2] == '\U{A9}' || t[2] == '\U{AF}'))
      || (t[0] == '\U{E2}' && t[1] == '\U{81}' && t[2] == '\U{9F}')
      || (t[0] == '\U{E3}' && t[1] == '\U{80}' && t[2] == '\U{80}')
    else false
  }

  /** Length of the white-space rune that s starts with, 0 if there is none. */
  function SpaceAt(s: Bytes): (n: nat)
    ensures n <= |s|
    ensures n > 0 ==> n <= 3 && IsSpaceRune(s[..n])
  {
    if |s| >= 1 && IsSpaceRune(s[..1]) then 1
    else if |s| >= 2 && IsSpaceRune(s[..2]) then 2
    else if |s| >= 3 && IsSpaceRune(s[..3]) then 3
    else 0
  }

  /** Length of the white-space rune that s ends with, 0 if there is none. */
  function SpaceEnd(s: Bytes): (n: nat)
    ensures n <= |s|
    ensures n > 0 ==> n <= 3 && IsSpaceRune(s[|s| - n..])
  {
    if |s| >= 1 && IsSpaceRune(s[|s| - 1..]) then 1
    else if |s| >= 2 && IsSpaceRune(s[|s| - 2..]) then 2
    else if |s| >= 3 && IsSpaceRune(s[|s| - 3..]) then 3
    else 0
  }

  function TrimLeft(s: Bytes): (r: Bytes)
    ensures |r| <= |s|
    ensures |r| == |s| ==> r == s
    decreases |s|
  {
    var n := SpaceAt(s);
    if n == 0 then s else TrimLeft(s[n..])
  }

  function TrimRight(s: Bytes): (r: Bytes)
    ensures |r| <= |s|
    ensures |r| == |s| ==> r == s && SpaceEnd(s) == 0
    decreases |s|
  {
    var n := SpaceEnd(s);
    if n == 0 then s else TrimRight(s[..|s| - n])
  }

  function TrimSpace(s: Bytes): Bytes {
    TrimRight(TrimLeft(s))
  }

  predicate HasPrefix(s: Bytes, prefix: Bytes) {
    prefix <= s
  }

  predicate Contains(s: Bytes, part: Bytes) {
    exists i :: 0 <= i <= |s| && HasPrefix(s[i..], part)
  }

  /** Go's strings.TrimRight(s, "\r\n"). */
  function TrimNewlines(s: Bytes): (r: Bytes)
    ensures r <= s
    decreases |s|
  {
    if s != [] && s[|s| - 1] in {'\r', '\n'} then TrimNewlines(s[..|s| - 1]) else s
  }

  function Join(parts: seq<Bytes>, sep: Bytes): Bytes {
    if parts == [] then ""
    else if |parts| == 1 then parts[0]
    else parts[0] + sep + Join(parts[1..], sep)
  }

  /** Joining is joining the parts of two lists with the separator in between. */
  lemma {:induction false} JoinTwo(a: seq<Bytes>, b: seq<Bytes>, sep: Bytes)
    requires a != [] && b != []
    ensures Join(a + b, sep) == Join(a, sep) + sep + Join(b, sep)
    ensures |a| == 1 ==> Join(a, sep) == a[0]
    decreases |a|
  {
    if |a| == 1 {
      assert (a + b)[1..] == b;
    } else {
      assert (a + b)[1..] == a[1..] + b;
      JoinTwo(a[1..], b, sep);
      var x, y, z := a[0], Join(a[1..], sep), Join(b, sep);
      assert x + sep + (y + sep + z) == x + sep + y + sep + z;
    }
  }

  function Concat(parts: seq<Bytes>): Bytes {
    if parts == [] then "" else parts[0] + Concat(parts[1..])
  }

  /** Position of the first occurrence of c in s, |s| when there is none. */
  function IndexByte(s: Bytes, c: char): (i: nat)
    ensures i <= |s|
    ensures c !in s[..i]
    ensures i < |s| ==> s[i] == c
  {
    if s == [] || s[0] == c then 0 else 1 + IndexByte(s[1..], c)
  }

  lemma IndexByteUnique(s: Bytes, c: char, i: nat)
    requires i <= |s| && (forall j :: 0 <= j < i ==> s[j] != c) && (i < |s| ==> s[i] == c)
    ensures IndexByte(s, c) == i
  {
    if s != [] && s[0] != c {
      IndexByteUnique(s[1..], c, i - 1);
    }
  }

  /** A byte string that strings.TrimSpace leaves alone neither starts nor ends with white space. */
  lemma TrimmedEnds(s: Bytes)
    requires TrimSpace(s) == s
    ensures SpaceAt(s) == 0 && SpaceEnd(s) == 0
    ensures s != [] ==> s[|s| - 1] !in {'\r', '\n'}
  {
    assert |TrimLeft(s)| == |s|;
    if s != [] {
      assert s[|s| - 1..] == [s[|s| - 1]];
    }
  }

  // ---- what TrimSpace does, in terms of white space alone ----

  /** A run of white-space runes. */
  predicate Blank(s: Bytes)
    decreases |s|
  {
    s == "" ||
    (|s| >= 1 && IsSpaceRune(s[..1]) && Blank(s[1..])) ||
    (|s| >= 2 && IsSpaceRune(s[..2]) && Blank(s[2..])) ||
    (|s| >= 3 && IsSpaceRune(s[..3]) && Blank(s[3..]))
  }

  lemma {:induction false} BlankConcat(a: Bytes, b: Bytes)
    requires Blank(a) && Blank(b)
    ensures Blank(a + b)
    decreases |a|
  {
    hide IsSpaceRune;
    if a == "" {
      assert a + b == b;
    } else if IsSpaceRune(a[..1]) && Blank(a[1..]) {
      BlankFront(a, b, 1);
    } else if |a| >= 2 && IsSpaceRune(a[..2]) && Blank(a[2..]) {
      BlankFront(a, b, 2);
    } else {
      BlankFront(a, b, 3);
    }
  }

  lemma {:induction false} BlankFront(a: Bytes, b: Bytes, n: nat)
    requires 1 <= n <= 3 && n <= |a| && IsSpaceRune(a[..n]) && Blank(a[n..]) && Blank(b)
    ensures Blank(a + b)
    decreases |a|, 0
  {
    hide IsSpaceRune;
    BlankConcat(a[n..], b);
    assert (a + b)[..n] == a[..n] && (a + b)[n..] == a[n..] + b;
  }

  lemma OneRune(t: Bytes)
    requires 1 <= |t| <= 3 && IsSpaceRune(t)
    ensures Blank(t)
  {
    hide IsSpaceRune;
    assert t[..|t|] == t && t[|t|..] == "";
  }

  lemma NothingBlank()
    ensures Blank("")
  {
  }

  lemma {:induction false} LeftCut(s: Bytes)
    ensures |TrimLeft(s)| <= |s| && s[|s| - |TrimLeft(s)|..] == TrimLeft(s)
    ensures Blank(s[..|s| - |TrimLeft(s)|]) && SpaceAt(TrimLeft(s)) == 0
    decreases |s|
  {
    hide IsSpaceRune, SpaceAt, Blank;
    NothingBlank();
    var n := SpaceAt(s);
    if n == 0 {
      assert s[..0] == "";
    } else {
      var t := s[n..];
      LeftCut(t);
      OneRune(s[..n]);
      var k := |t| - |TrimLeft(t)|;
      BlankConcat(s[..n], t[..k]);
      assert s[..n + k] == s[..n] + t[..k];
    }
  }

  lemma {:induction false} RightCut(s: Bytes)
    ensures |TrimRight(s)| <= |s| && s[..|TrimRight(s)|] == TrimRight(s)
    ensures Blank(s[|TrimRight(s)|..]) && SpaceEnd(TrimRight(s)) == 0
    decreases |s|
  {
    hide IsSpaceRune, SpaceEnd, Blank;
    NothingBlank();
    var n := SpaceEnd(s);
    if n == 0 {
      assert s[|s|..] == "";
    } else {
      var t := s[..|s| - n];
      RightCut(t);
      OneRune(s[|s| - n..]);
      var k := |TrimRight(t)|;
      BlankConcat(t[k..], s[|s| - n..]);
      assert s[k..] == t[k..] + s[|s| - n..];
    }
  }

  /** TrimSpace takes white space from both ends and leaves none there. */
  lemma TrimSpaceCuts(s: Bytes)
    ensures exists i, j :: 0 <= i <= j <= |s| && TrimSpace(s) == s[i..j] && Blank(s[..i]) && Blank(s[j..])
    ensures SpaceEnd(TrimSpace(s)) == 0 && SpaceAt(TrimSpace(s)) == 0
  {
    hide IsSpaceRune, Blank, TrimLeft, TrimRight, SpaceAt, SpaceEnd;
    var l, t := TrimLeft(s), TrimSpace(s);
    LeftCut(s);
    RightCut(l);
    var i := |s| - |l|;
    var j := i + |t|;
    assert s[i..j] == l[..|t|] && s[j..] == l[|t|..];
    PrefixStart(l, |t|);
  }

  lemma PrefixStart(s: Bytes, n: nat)
    requires SpaceAt(s) == 0 && n <= |s|
    ensures SpaceAt(s[..n]) == 0
  {
    hide IsSpaceRune;
    var t := s[..n];
    assert |t| >= 1 ==> t[..1] == s[..1];
    assert |t| >= 2 ==> t[..2] == s[..2];
    assert |t| >= 3 ==> t[..3] == s[..3];
  }

  /** What has no white space at its ends is left alone. */
  lemma Untouched(s: Bytes)
    requires SpaceAt(s) == 0 && SpaceEnd(s) == 0
    ensures TrimSpace(s) == s
  {
    hide SpaceAt, SpaceEnd, IsSpaceRune;
  }

  lemma OneByte(c: char)
    requires !IsSpaceRune([c])
    ensures SpaceAt([c]) == 0 && SpaceEnd([c]) == 0
  {
    hide IsSpaceRune;
    assert [c][..1] == [c] && [c][0..] == [c];
  }

  /** The UTF-8 encoding of a code point of the basic plane. */
  function Utf8(c: nat): Bytes
    requires c < 0x10000
  {
    if c < 0x80 then [c as char]
    else if c < 0x800 then [(0xC0 + c / 64) as char, (0x80 + c % 64) as char]
    else [(0xE0 + c / 4096) as char, (0x80 + c / 64 % 64) as char, (0x80 + c % 64) as char]
  }

  /** White space is exactly what Unicode calls so: the code points of unicode.IsSpace. */
  lemma SpaceCodePoints(c: nat)
    requires c < 0x10000
    ensures IsSpaceRune(Utf8(c)) <==>
            0x09 <= c <= 0x0D || c == 0x20 || c == 0x85 || c == 0xA0 || c == 0x1680 || 0x2000 <= c <= 0x200A ||
            c == 0x2028 || c == 0x2029 || c == 0x202F || c == 0x205F || c == 0x3000
  {
    if c >= 0x800 {
      var a, b, d := 0xE0 + c / 4096, 0x80 + c / 64 % 64, 0x80 + c % 64;
      assert c == 4096 * (a - 0xE0) + 64 * (b - 0x80) + (d - 0x80);
      ThreeBytes(a, b, d);
    }
  }

  lemma ThreeBytes(a: nat, b: nat, d: nat)
    requires 0xE0 <= a <= 0xEF && 0x80 <= b <= 0xBF && 0x80 <= d <= 0xBF
    ensures IsSpaceRune([a as char, b as char, d as char]) <==>
            || (a == 0xE1 && b == 0x9A && d == 0x80)
            || (a == 0xE2 && b == 0x80 && (d <= 0x8A || d == 0xA8 || d == 0xA9 || d == 0xAF))
            || (a == 0xE2 && b == 0x81 && d == 0x9F)
            || (a == 0xE3 && b == 0x80 && d == 0x80)
  {
  }
}
