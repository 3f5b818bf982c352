/** The string printer of inspect: two replacement passes, and a reader that undoes them. */
module InspectStrings {

  /** Strings are sequences of UTF-16 code units. */
  type Unit = u: int | 0 <= u < 0x10000

  const QUOTE: Unit := 39
  const BACKSLASH: Unit := 92
  const X: Unit := 120

  // ---- printing

  /** str.replace(/(['\\])/g, '\\$1') */
  function EscapeQuotes(s: seq<Unit>): seq<Unit> {
    if s == [] then []
    else (if s[0] == QUOTE || s[0] == BACKSLASH then [BACKSLASH, s[0]] else [s[0]]) + EscapeQuotes(s[1..])
  }

  function HexDigit(d: nat): Unit
    requires d < 16
  {
    if d < 10 then 48 + d else 87 + d
  }

  function LowByte(c: Unit): seq<Unit>
    requires c < 0x20
  {
    if c == 8 then [BACKSLASH, 98]        // b
    else if c == 9 then [BACKSLASH, 116]  // t
    else if c == 10 then [BACKSLASH, 110] // n
    else if c == 12 then [BACKSLASH, 102] // f
    else if c == 13 then [BACKSLASH, 114] // r
    else [BACKSLASH, X] + if c < 0x10 then [48, HexDigit(c)] else [HexDigit(c / 16), HexDigit(c % 16)]
  }

  /** .replace(/[\x00-\x1f]/g, lowbyte) */
  function EscapeControls(s: seq<Unit>): seq<Unit> {
    if s == [] then [] else (if s[0] < 0x20 then LowByte(s[0]) else [s[0]]) + EscapeControls(s[1..])
  }

  function InspectString(s: seq<Unit>): seq<Unit> {
    [QUOTE] + EscapeControls(EscapeQuotes(s)) + [QUOTE]
  }

  // ---- reading

  datatype Literal = Literal(value: seq<Unit>, rest: seq<Unit>) | NoLiteral

  function Prepend(c: Unit, literal: Literal): Literal {
    match literal
    case NoLiteral => NoLiteral
    case Literal(value, rest) => Literal([c] + value, rest)
  }

  predicate IsHexDigit(c: Unit) {
    48 <= c <= 57 || 97 <= c <= 102 || 65 <= c <= 70
  }

  function DigitValue(c: Unit): (d: nat)
    requires IsHexDigit(c)
    ensures d < 16
  {
    if c <= 57 then c - 48 else if c <= 70 then c - 55 else c - 87
  }

  /** The character that a one-letter escape stands for. */
  function Named(c: Unit): Unit {
    if c == 98 then 8 else if c == 116 then 9 else if c == 110 then 10
    else if c == 102 then 12 else if c == 114 then 13 else c
  }

  /** The rest of a single-quoted string literal, up to its first quote that is not escaped. */
  function ReadBody(t: seq<Unit>): Literal {
    if t == [] then NoLiteral
    else if t[0] == QUOTE then Literal([], t[1..])
    else if t[0] != BACKSLASH then Prepend(t[0], ReadBody(t[1..]))
    else if |t| < 2 then NoLiteral
    else if t[1] != X then Prepend(Named(t[1]), ReadBody(t[2..]))
    else if |t| < 4 || !IsHexDigit(t[2]) || !IsHexDigit(t[3]) then NoLiteral
    else Prepend(DigitValue(t[2]) * 16 + DigitValue(t[3]), ReadBody(t[4..]))
  }

  function ReadLiteral(t: seq<Unit>): Literal {
    if t == [] || t[0] != QUOTE then NoLiteral else ReadBody(t[1..])
  }

  // ---- printing is undone by reading

  /** What the two passes make of one character. */
  function Escaped(c: Unit): seq<Unit> {
    if c == QUOTE || c == BACKSLASH then [BACKSLASH, c] else if c < 0x20 then LowByte(c) else [c]
  }

  /** The second pass does not touch what the first one wrote. */
  lemma PassesTogether(s: seq<Unit>)
    requires s != []
    ensures EscapeControls(EscapeQuotes(s)) == Escaped(s[0]) + EscapeControls(EscapeQuotes(s[1..]))
  {
    var rest := EscapeQuotes(s[1..]);
    if s[0] == QUOTE || s[0] == BACKSLASH {
      var t := [BACKSLASH, s[0]] + rest;
      assert t[1..] == [s[0]] + rest && t[1..][1..] == rest;
      assert EscapeControls(t) == [BACKSLASH] + EscapeControls(t[1..]);
    } else {
      assert ([s[0]] + rest)[1..] == rest;
    }
  }

  lemma HexIsRead(c: Unit)
    requires c < 0x20
    ensures IsHexDigit(HexDigit(c / 16)) && IsHexDigit(HexDigit(c % 16))
    ensures DigitValue(HexDigit(c / 16)) * 16 + DigitValue(HexDigit(c % 16)) == c
    ensures c < 0x10 ==> HexDigit(c / 16) == 48 && c % 16 == c
  {
  }

  lemma OneIsRead(c: Unit, tail: seq<Unit>)
    ensures ReadBody(Escaped(c) + tail) == Prepend(c, ReadBody(tail))
  {
    var t := Escaped(c) + tail;
    if |Escaped(c)| == 1 {
      assert t[1..] == tail;
    } else if |Escaped(c)| == 2 {
      assert t[2..] == tail;
    } else {
      HexEscapeIsRead(c, tail);
    }
  }

  lemma HexEscapeIsRead(c: Unit, tail: seq<Unit>)
    requires c < 0x20 && |LowByte(c)| == 4
    ensures ReadBody(LowByte(c) + tail) == Prepend(c, ReadBody(tail))
  {
    var t := LowByte(c) + tail;
    HexIsRead(c);
    assert t[0] == BACKSLASH && t[1] == X && t[2] == HexDigit(c / 16) && t[3] == HexDigit(c % 16);
    assert t[4..] == tail;
  }

  lemma {:induction false} BodyIsRead(s: seq<Unit>, rest: seq<Unit>)
    ensures ReadBody(EscapeControls(EscapeQuotes(s)) + [QUOTE] + rest) == Literal(s, rest)
  {
    if s == [] {
      assert EscapeControls(EscapeQuotes(s)) + [QUOTE] + rest == [QUOTE] + rest;
    } else {
      PassesTogether(s);
      BodyIsRead(s[1..], rest);
      var tail := EscapeControls(EscapeQuotes(s[1..])) + [QUOTE] + rest;
      assert EscapeControls(EscapeQuotes(s)) + [QUOTE] + rest == Escaped(s[0]) + tail;
      OneIsRead(s[0], tail);
      assert [s[0]] + s[1..] == s;
    }
  }

  // ---- what is printed, character by character

  /** The control characters that have a letter of their own: b, t, n, f and r. */
  const LETTERS: map<Unit, Unit> := map[8 := 98, 9 := 116, 10 := 110, 12 := 102, 13 := 114]

  /** 0 to 9 and a to f. */
  const DIGITS: seq<Unit> := [48, 49, 50, 51, 52, 53, 54, 55, 56, 57, 97, 98, 99, 100, 101, 102]

  /** A quote or backslash after a backslash, a control character by its letter or two digits, any other as it is. */
  function Shown(c: Unit): seq<Unit> {
    if c == 39 || c == 92 then [92, c]
    else if c in LETTERS then [92, LETTERS[c]]
    else if c < 32 then [92, 120, DIGITS[c / 16], DIGITS[c % 16]]
    else [c]
  }

  function AllShown(s: seq<Unit>): seq<Unit> {
    if s == [] then [] else Shown(s[0]) + AllShown(s[1..])
  }

  lemma ShownAsEscaped(c: Unit)
    ensures Escaped(c) == Shown(c)
  {
  }

  /** The two passes together print each character for itself, between two quotes. */
  lemma {:induction false} PrintsEachCharacter(s: seq<Unit>)
    ensures InspectString(s) == [39] + AllShown(s) + [39]
  {
    if s != [] {
      PassesTogether(s);
      PrintsEachCharacter(s[1..]);
      ShownAsEscaped(s[0]);
      assert InspectString(s[1..])[1..|InspectString(s[1..])| - 1] == AllShown(s[1..]);
      assert InspectString(s[1..])[1..|InspectString(s[1..])| - 1] == EscapeControls(EscapeQuotes(s[1..]));
    }
  }

  /** Whatever follows a printed string, the reader gives back the string and stops right after its last quote. */
  lemma PrintedIsRead(s: seq<Unit>, rest: seq<Unit>)
    ensures ReadLiteral(InspectString(s) + rest) == Literal(s, rest)
  {
    BodyIsRead(s, rest);
    var body := EscapeControls(EscapeQuotes(s));
    assert (InspectString(s) + rest)[1..] == body + [QUOTE] + rest;
  }

  /** Distinct strings print differently, and no printed string is the beginning of another. */
  lemma PrintsDifferently(s: seq<Unit>, t: seq<Unit>)
    ensures InspectString(s) <= InspectString(t) <==> s == t
  {
    if InspectString(s) <= InspectString(t) {
      var rest := InspectString(t)[|InspectString(s)|..];
      assert InspectString(t) == InspectString(s) + rest && InspectString(t) == InspectString(t) + [];
      PrintedIsRead(s, rest);
      PrintedIsRead(t, []);
    }
  }

  lemma {:induction false} NoControlsLeft(s: seq<Unit>)
    ensures forall i :: 0 <= i < |EscapeControls(s)| ==> EscapeControls(s)[i] >= 0x20
  {
    if s != [] {
      NoControlsLeft(s[1..]);
    }
  }

  /** A printed string has no control characters, and its first quote that is not escaped is its last character. */
  lemma PrintsPlainly(s: seq<Unit>)
    ensures forall i :: 0 <= i < |InspectString(s)| ==> InspectString(s)[i] >= 0x20
    ensures ReadLiteral(InspectString(s)) == Literal(s, [])
  {
    NoControlsLeft(EscapeQuotes(s));
    PrintedIsRead(s, []);
    assert InspectString(s) + [] == InspectString(s);
  }
}
