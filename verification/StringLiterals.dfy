/**
 C string and character literals: what the emitter writes for a byte string, and how C reads it back
 (sections 6.1.3.4 and 6.1.4 of ISO/IEC 9899:1990, without trigraphs).
 */
module StringLiterals {
  import opened Options

  type Byte = b: int | 0 <= b < 256

  const QUOTE := '\"'
  const BACKSLASH := '\\'

  function OctalDigit(d: int): char
    requires 0 <= d < 8
  {
    '0' + d as char
  }

  /** The text for one byte inside a string literal, or inside a character literal. */
  function Escape(b: Byte, inChar: bool): string {
    if b == 7 then "\\a"
    else if b == 8 then "\\b"
    else if b == 12 then "\\f"
    else if b == 10 then "\\n"
    else if b == 13 then "\\r"
    else if b == 9 then "\\t"
    else if b == 11 then "\\v"
    else if b == 92 then "\\\\"
    else if b == 39 then (if inChar then "\\'" else "'")
    else if b == 34 then (if inChar then "\"" else "\\\"")
    else if 32 <= b <= 126 then [b as char]
    else [BACKSLASH, OctalDigit(b / 64), OctalDigit(b / 8 % 8), OctalDigit(b % 8)]
  }

  /** The rest of a literal whose current chunk already holds `used` bytes; a NUL byte ends the C string. */
  function LiteralTail(value: seq<Byte>, chunk: nat, used: nat): string {
    if value == [] || value[0] == 0 then "\""
    else if used >= chunk then "\" \"" + Escape(value[0], false) + LiteralTail(value[1..], chunk, 1)
    else Escape(value[0], false) + LiteralTail(value[1..], chunk, used + 1)
  }

  function LiteralText(value: seq<Byte>, chunk: nat): string {
    "\"" + LiteralTail(value, chunk, 0)
  }

  /** The bytes before the first NUL. */
  function CString(value: seq<Byte>): seq<Byte> {
    if value == [] || value[0] == 0 then [] else [value[0]] + CString(value[1..])
  }

  method EmitStringLiteral(value: seq<Byte>, chunk: nat) returns (out: string)
    ensures out == LiteralText(value, chunk)
  {
    hide Escape, LiteralTail;
    var used := 0;
    out := "\"";
    var p := 0;
    while p < |value| && value[p] != 0
      invariant 0 <= p <= |value|
      invariant out + LiteralTail(value[p..], chunk, used) == LiteralText(value, chunk)
    {
      TailStep(value[p..], chunk, used);
      assert value[p..][1..] == value[p + 1..];
      ghost var before := out;
      ghost var gap := if used >= chunk then "\" \"" else "";
      if used >= chunk {
        out := out + "\" \"";
        used := 0;
      }
      out := out + Escape(value[p], false);
      p := p + 1;
      used := used + 1;
      Regroup(before, gap, Escape(value[p - 1], false), LiteralTail(value[p..], chunk, used));
    }
    TailStep(value[p..], chunk, used);
    out := out + "\"";
  }

  lemma TailStep(rest: seq<Byte>, chunk: nat, used: nat)
    ensures LiteralTail(rest, chunk, used) ==
      if rest == [] || rest[0] == 0 then "\""
      else (if used >= chunk then "\" \"" else "") +
           (Escape(rest[0], false) + LiteralTail(rest[1..], chunk, if used >= chunk then 1 else used + 1))
  {
    hide Escape;
  }

  lemma Regroup(a: string, b: string, c: string, d: string)
    ensures a + (b + (c + d)) == ((a + b) + c) + d
    ensures b == "" ==> a + (b + (c + d)) == (a + c) + d
  {
  }

  // ----- Reading literals back -----

  predicate IsOctal(c: char) {
    '0' <= c <= '7'
  }

  function OctalValue(c: char): int
    requires IsOctal(c)
  {
    c as int - '0' as int
  }

  /** Adjacent string literals separated by spaces, concatenated after their escapes are resolved. */
  function ReadOutside(text: string): Option<seq<Byte>>
    decreases |text|
  {
    if text == "" then Some([])
    else if text[0] == ' ' then ReadOutside(text[1..])
    else if text[0] == QUOTE then ReadInside(text[1..])
    else None
  }

  function ReadInside(text: string): Option<seq<Byte>>
    decreases |text|
  {
    if text == "" || text[0] == '\n' then None
    else if text[0] == QUOTE then ReadOutside(text[1..])
    else
      match ReadChar(text)
      case None => None
      case Some((b, n)) => Prepend(b, ReadInside(text[n..]))
  }

  function Prepend(b: Byte, rest: Option<seq<Byte>>): Option<seq<Byte>> {
    if rest.None? then None else Some([b] + rest.value)
  }

  /** The value of a one-letter escape, if the letter has one. */
  function LetterValue(c: char): Option<Byte> {
    match c
    case 'a' => Some(7)
    case 'b' => Some(8)
    case 'f' => Some(12)
    case 'n' => Some(10)
    case 'r' => Some(13)
    case 't' => Some(9)
    case 'v' => Some(11)
    case '\\' => Some(92)
    case '\'' => Some(39)
    case '\"' => Some(34)
    case '?' => Some(63)
    case _ => None
  }

  /** One source character or escape sequence: its value and its length; octal escapes take up to three digits. */
  function ReadChar(text: string): (r: Option<(Byte, nat)>)
    requires text != ""
    ensures r.Some? ==> 1 <= r.value.1 <= |text|
  {
    if text[0] != BACKSLASH then
      if text[0] as int < 256 then Some((text[0] as int, 1)) else None
    else if |text| == 1 then None
    else if IsOctal(text[1]) then
      var v1 := OctalValue(text[1]);
      if |text| > 2 && IsOctal(text[2]) then
        var v2 := 8 * v1 + OctalValue(text[2]);
        if |text| > 3 && IsOctal(text[3]) then
          var v3 := 8 * v2 + OctalValue(text[3]);
          if v3 < 256 then Some((v3, 4)) else None
        else Some((v2, 3))
      else Some((v1, 2))
    else
      match LetterValue(text[1])
      case None => None
      case Some(v) => Some((v, 2))
  }

  /** A character literal holds exactly one character or escape sequence. */
  function ReadCharLiteral(text: string): Option<Byte> {
    if |text| < 3 || text[0] != '\'' || text[|text| - 1] != '\'' || text[1] == '\'' || text[1] == '\n' then None
    else
      match ReadChar(text[1..])
      case None => None
      case Some((b, n)) => if n == |text| - 2 then Some(b) else None
  }

  lemma OctalReads(text: string, a: int, b: int, c: int)
    requires 0 <= a < 4 && 0 <= b < 8 && 0 <= c < 8 && |text| >= 4
    requires text[0] == BACKSLASH && text[1] == OctalDigit(a) && text[2] == OctalDigit(b) && text[3] == OctalDigit(c)
    ensures ReadChar(text) == Some((64 * a + 8 * b + c, 4))
  {
    DigitReads(a);
    DigitReads(b);
    DigitReads(c);
  }

  lemma DigitReads(d: int)
    requires 0 <= d < 8
    ensures IsOctal(OctalDigit(d)) && OctalValue(OctalDigit(d)) == d
  {
  }

  lemma LetterReads(text: string)
    requires |text| >= 2 && text[0] == BACKSLASH && !IsOctal(text[1]) && LetterValue(text[1]).Some?
    ensures ReadChar(text) == Some((LetterValue(text[1]).value, 2))
  {
  }

  lemma SingleReads(text: string)
    requires text != "" && text[0] != BACKSLASH && text[0] as int < 256
    ensures ReadChar(text) == Some((text[0] as int, 1))
  {
  }

  /** An escape is self-delimiting: whatever follows, reading takes exactly the escape and yields its byte. */
  lemma EscapeReads(b: Byte, inChar: bool, rest: string)
    ensures ReadChar(Escape(b, inChar) + rest) == Some((b, |Escape(b, inChar)|))
    ensures Escape(b, inChar)[0] != '\n' && Escape(b, inChar)[0] != (if inChar then '\'' else QUOTE)
  {
    hide ReadChar;
    var esc := Escape(b, inChar);
    var text := esc + rest;
    if |esc| == 4 {
      assert b == 64 * (b / 64) + 8 * (b / 8 % 8) + b % 8;
      assert text[0] == esc[0] && text[1] == esc[1] && text[2] == esc[2] && text[3] == esc[3];
      OctalReads(text, b / 64, b / 8 % 8, b % 8);
    } else if |esc| == 2 {
      assert text[0] == esc[0] && text[1] == esc[1];
      LetterReads(text);
    } else {
      assert text[0] == esc[0];
      SingleReads(text);
    }
  }

  /** Closing one literal and opening the next is invisible to the reader. */
  lemma GapReads(body: string)
    ensures ReadInside("\" \"" + body) == ReadInside(body)
  {
    var text := "\" \"" + body;
    var t1 := " \"" + body;
    var t2 := "\"" + body;
    assert text[1..] == t1 && t1[1..] == t2 && t2[1..] == body;
    assert ReadOutside(t2) == ReadInside(body);
    assert ReadOutside(t1) == ReadOutside(t2);
  }

  lemma {:induction false} TailReads(value: seq<Byte>, chunk: nat, used: nat)
    ensures ReadInside(LiteralTail(value, chunk, used)) == Some(CString(value))
    decreases |value|
  {
    hide Escape, ReadChar;
    var text := LiteralTail(value, chunk, used);
    if value == [] || value[0] == 0 {
      assert text[1..] == "";
    } else {
      var b := value[0];
      var next := if used >= chunk then 1 else used + 1;
      var tail := LiteralTail(value[1..], chunk, next);
      var e := Escape(b, false);
      TailReads(value[1..], chunk, next);
      EscapeReads(b, false, tail);
      var body := e + tail;
      assert body[|e|..] == tail && body[0] == e[0];
      assert ReadInside(body) == Prepend(b, ReadInside(tail));
      if used >= chunk {
        GapReads(body);
        assert text == "\" \"" + body;
      } else {
        assert text == body;
      }
    }
  }

  lemma {:induction false} CStringOfNulFree(value: seq<Byte>)
    requires 0 !in value
    ensures CString(value) == value
    decreases |value|
  {
    if value != [] {
      CStringOfNulFree(value[1..]);
    }
  }

  /** C reads the emitted literal back as the bytes before the first NUL, whatever the chunk size. */
  lemma LiteralRoundTrip(value: seq<Byte>, chunk: nat)
    ensures ReadOutside(LiteralText(value, chunk)) == Some(CString(value))
    ensures 0 !in value ==> ReadOutside(LiteralText(value, chunk)) == Some(value)
  {
    hide LiteralTail, ReadInside;
    TailReads(value, chunk, 0);
    assert LiteralText(value, chunk)[1..] == LiteralTail(value, chunk, 0);
    if 0 !in value {
      CStringOfNulFree(value);
    }
  }

  /** Every byte, NUL included, survives a character literal. */
  lemma CharLiteralRoundTrip(b: Byte)
    ensures ReadCharLiteral("'" + Escape(b, true) + "'") == Some(b)
  {
    hide ReadChar;
    var e := Escape(b, true);
    var text := "'" + e + "'";
    EscapeReads(b, true, "'");
    assert text[1..] == e + "'";
    assert text[1] == e[0];
  }

  // ----- The pieces of a literal -----

  /** The adjacent literals of a text one by one, each as the bytes it stands for. */
  function PiecesOutside(text: string): Option<seq<seq<Byte>>>
    decreases |text|
  {
    if text == "" then Some([])
    else if text[0] == ' ' then PiecesOutside(text[1..])
    else if text[0] == QUOTE then PiecesInside(text[1..], [])
    else None
  }

  function PiecesInside(text: string, current: seq<Byte>): Option<seq<seq<Byte>>>
    decreases |text|
  {
    if text == "" || text[0] == '\n' then None
    else if text[0] == QUOTE then
      match PiecesOutside(text[1..])
      case None => None
      case Some(rest) => Some([current] + rest)
    else
      match ReadChar(text)
      case None => None
      case Some((b, n)) => PiecesInside(text[n..], current + [b])
  }

  function Concat(pieces: seq<seq<Byte>>): seq<Byte> {
    if pieces == [] then [] else pieces[0] + Concat(pieces[1..])
  }

  /** Every piece holds at most `chunk` bytes, and all but the last hold that many; chunks of 0 hold at most one. */
  ghost predicate Filled(pieces: seq<seq<Byte>>, chunk: nat) {
    forall i :: 0 <= i < |pieces| ==> Holds(|pieces[i]|, chunk, i == |pieces| - 1)
  }

  predicate Holds(n: nat, chunk: nat, last: bool) {
    if chunk == 0 then n <= 1 else n <= chunk && (last || n == chunk)
  }

  lemma GapPieces(body: string, current: seq<Byte>)
    ensures PiecesInside("\" \"" + body, current) ==
      match PiecesInside(body, []) case None => None case Some(rest) => Some([current] + rest)
  {
    var text := "\" \"" + body;
    var t1 := " \"" + body;
    var t2 := "\"" + body;
    assert text[1..] == t1 && t1[1..] == t2 && t2[1..] == body;
    assert PiecesOutside(t2) == PiecesInside(body, []);
    assert PiecesOutside(t1) == PiecesOutside(t2);
  }

  lemma ReadsOn(b: Byte, tail: string, current: seq<Byte>)
    ensures var e := Escape(b, false); PiecesInside(e + tail, current) == PiecesInside(tail, current + [b])
  {
    hide Escape, ReadChar;
    var e := Escape(b, false);
    EscapeReads(b, false, tail);
    assert (e + tail)[|e|..] == tail && (e + tail)[0] == e[0];
  }

  lemma {:induction false} TailPieces(value: seq<Byte>, chunk: nat, used: nat, current: seq<Byte>)
    requires |current| == used && Holds(used, chunk, true)
    ensures var p := PiecesInside(LiteralTail(value, chunk, used), current);
            p.Some? && p.value != [] && Filled(p.value, chunk) && Concat(p.value) == current + CString(value)
    decreases |value|
  {
    hide Escape, ReadChar, LiteralTail, PiecesInside;
    TailStep(value, chunk, used);
    if value == [] || value[0] == 0 {
      LastPiece(current);
    } else {
      var b := value[0];
      var e := Escape(b, false);
      if used >= chunk {
        var tail := LiteralTail(value[1..], chunk, 1);
        TailPieces(value[1..], chunk, 1, [b]);
        GapPieces(e + tail, current);
        ReadsOn(b, tail, []);
        assert [] + [b] == [b];
        FullPiece(current, PiecesInside(tail, [b]).value, chunk);
        assert current + ([b] + CString(value[1..])) == current + CString(value);
      } else {
        var tail := LiteralTail(value[1..], chunk, used + 1);
        TailPieces(value[1..], chunk, used + 1, current + [b]);
        ReadsOn(b, tail, current);
        assert "" + (e + tail) == e + tail;
        assert (current + [b]) + CString(value[1..]) == current + CString(value);
      }
    }
  }

  lemma LastPiece(current: seq<Byte>)
    ensures PiecesInside("\"", current) == Some([current]) && Concat([current]) == current + []
  {
    assert "\""[1..] == "";
    assert [current] + [] == [current] && [current][1..] == [];
  }

  lemma FullPiece(current: seq<Byte>, rest: seq<seq<Byte>>, chunk: nat)
    requires Holds(|current|, chunk, false) && rest != [] && Filled(rest, chunk)
    ensures Filled([current] + rest, chunk) && Concat([current] + rest) == current + Concat(rest)
  {
    var all := [current] + rest;
    assert all[1..] == rest;
    forall i | 0 <= i < |all| ensures Holds(|all[i]|, chunk, i == |all| - 1) {
      assert i > 0 ==> all[i] == rest[i - 1];
    }
  }

  /** An emitted literal is split into pieces of exactly the chunk size, but for the last. */
  lemma PiecesFit(value: seq<Byte>, chunk: nat)
    ensures var p := PiecesOutside(LiteralText(value, chunk));
            p.Some? && p.value != [] && Filled(p.value, chunk) && Concat(p.value) == CString(value)
  {
    hide LiteralTail, PiecesInside, Filled;
    TailPieces(value, chunk, 0, []);
    assert LiteralText(value, chunk)[1..] == LiteralTail(value, chunk, 0);
    assert [] + CString(value) == CString(value);
  }
}
