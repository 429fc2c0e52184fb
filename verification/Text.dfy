/** Go strings and the few string operations the relay's identifiers rest on.

    A Go string is a sequence of bytes; a byte is written here as the character with that code,
    so that ASCII literals read as usual. */
module Text {

  type Byte = c: char | c as int < 256

  type Bytes = seq<Byte>

  datatype Option<+T> = None | Some(value: T)

  predicate Between(c: Byte, lo: int, hi: int) {
    lo <= c as int <= hi
  }

  /** Length of the white-space rune, in UTF-8, that `s` starts with; 0 when it starts with none. */
  function SpacePrefix(s: Bytes): (n: nat)
    ensures n <= |s|
  {
    if |s| >= 1 && (Between(s[0], 9, 13) || Between(s[0], 32, 32)) then 1
    else if |s| >= 2 && IsWideSpace2(s[0], s[1]) then 2
    else if |s| >= 3 && IsWideSpace3(s[0], s[1], s[2]) then 3
    else 0
  }

  /** The same for the end of `s`. */
  function SpaceSuffix(s: Bytes): (n: nat)
    ensures n <= |s|
  {
    if |s| >= 1 && (Between(s[|s| - 1], 9, 13) || Between(s[|s| - 1], 32, 32)) then 1
    else if |s| >= 2 && IsWideSpace2(s[|s| - 2], s[|s| - 1]) then 2
    else if |s| >= 3 && IsWideSpace3(s[|s| - 3], s[|s| - 2], s[|s| - 1]) then 3
    else 0
  }

  /** U+0085 and U+00A0. */
  predicate IsWideSpace2(a: Byte, b: Byte) {
    Between(a, 0xC2, 0xC2) && (Between(b, 0x85, 0x85) || Between(b, 0xA0, 0xA0))
  }

  /** U+1680, U+2000 to U+200A, U+2028, U+2029, U+202F, U+205F and U+3000. */
  predicate IsWideSpace3(a: Byte, b: Byte, c: Byte) {
    || (Between(a, 0xE1, 0xE1) && Between(b, 0x9A, 0x9A) && Between(c, 0x80, 0x80))
    || (Between(a, 0xE2, 0xE2) && Between(b, 0x80, 0x80) &&
        (Between(c, 0x80, 0x8A) || Between(c, 0xA8, 0xA9) || Between(c, 0xAF, 0xAF)))
    || (Between(a, 0xE2, 0xE2) && Between(b, 0x81, 0x81) && Between(c, 0x9F, 0x9F))
    || (Between(a, 0xE3, 0xE3) && Between(b, 0x80, 0x80) && Between(c, 0x80, 0x80))
  }

  function TrimLeft(s: Bytes): (t: Bytes)
    decreases |s|
  {
    if SpacePrefix(s) == 0 then s else TrimLeft(s[SpacePrefix(s)..])
  }

  function TrimRight(s: Bytes): (t: Bytes)
    decreases |s|
  {
    if SpaceSuffix(s) == 0 then s else TrimRight(s[..|s| - SpaceSuffix(s)])
  }

  /** Go's strings.TrimSpace. */
  function TrimSpace(s: Bytes): Bytes {
    TrimRight(TrimLeft(s))
  }

  predicate Blank(s: Bytes) {
    TrimSpace(s) == []
  }

  predicate Trimmed(s: Bytes) {
    TrimSpace(s) == s
  }

  lemma {:induction false} TrimLeftStops(s: Bytes)
    ensures SpacePrefix(TrimLeft(s)) == 0
    decreases |s|
  {
    if SpacePrefix(s) != 0 {
      TrimLeftStops(s[SpacePrefix(s)..]);
    }
  }

  lemma {:induction false} TrimRightStops(s: Bytes)
    ensures TrimRight(s) <= s
    ensures SpaceSuffix(TrimRight(s)) == 0
    decreases |s|
  {
    if SpaceSuffix(s) != 0 {
      TrimRightStops(s[..|s| - SpaceSuffix(s)]);
    }
  }

  /** What TrimSpace returns has no white space left at either end. */
  lemma TrimSpaceIdempotent(s: Bytes)
    ensures Trimmed(TrimSpace(s))
  {
    TrimLeftStops(s);
    TrimRightStops(TrimLeft(s));
  }

  /** Text whose first and last bytes are visible ASCII is already trimmed. */
  lemma VisibleEndsAreTrimmed(s: Bytes)
    requires s != []
    requires Between(s[0], 33, 126) && Between(s[|s| - 1], 33, 126)
    ensures Trimmed(s) && !Blank(s)
  {
  }

  /** Go's strings.Split for a one-byte separator. */
  function Split(s: Bytes, separator: Byte): (parts: seq<Bytes>)
    ensures |parts| >= 1
  {
    if s == [] then [[]]
    else
      var rest := Split(s[1..], separator);
      if s[0] == separator then [[]] + rest else [[s[0]] + rest[0]] + rest[1..]
  }

  lemma {:induction false} SplitWhole(part: Bytes, separator: Byte)
    requires separator !in part
    ensures Split(part, separator) == [part]
  {
    if part != [] {
      SplitWhole(part[1..], separator);
      assert part == [part[0]] + part[1..];
    }
  }

  lemma {:induction false} SplitHead(part: Bytes, separator: Byte, rest: Bytes)
    requires separator !in part
    ensures Split(part + [separator] + rest, separator) == [part] + Split(rest, separator)
  {
    var s := part + [separator] + rest;
    if part == [] {
      assert s[1..] == rest;
    } else {
      SplitHead(part[1..], separator, rest);
      assert s[1..] == part[1..] + [separator] + rest;
      assert part == [part[0]] + part[1..];
    }
  }

  /** Joining three separator-free parts and splitting gives them back. */
  lemma SplitThree(a: Bytes, b: Bytes, c: Bytes, separator: Byte)
    requires separator !in a && separator !in b && separator !in c
    ensures Split(a + [separator] + b + [separator] + c, separator) == [a, b, c]
  {
    assert a + [separator] + b + [separator] + c == a + [separator] + (b + [separator] + c);
    SplitHead(a, separator, b + [separator] + c);
    SplitHead(b, separator, c);
    SplitWhole(c, separator);
  }
}
