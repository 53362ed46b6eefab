/** The Code 128 symbol alphabet and the `Encoding` contract
    (src/internals/code128/mod.rs, src/barcode/code128/encodings.rs):
    symbologies, the 107 patterns, the conversions to and from `u8`, the
    structural symbols of the two `Encoding` implementations and the text a
    symbol value stands for. */
module Encodings {
  import opened Format

  /** The `u8` the generic code is instantiated with. */
  newtype Byte = b: int | 0 <= b < 256

  /** The three Code 128 alphabets. */
  datatype Symbology = A | B | C

  /** `Symbology as u8`: the enum gives A, B and C the explicit
      discriminants 103, 104 and 105, the values of their start codes. */
  function Discriminant(s: Symbology): Byte {
    match s
    case A => 103
    case B => 104
    case C => 105
  }

  // ---------------------------------------------------------------------
  // Patterns

  /** The patterns C0 .. C106. They are declared in numeric order without
      explicit discriminants, so C<k> is represented by its discriminant k;
      the derived ordering is declaration order, that is, numeric order. */
  newtype Pattern = p: int | 0 <= p <= 106

  /** `From<u8> for Pattern`: the jump table sends k to C<k> for k <= 105
      and every other value to C106. */
  function PatternFrom(u: Byte): Pattern {
    if u <= 105 then u as Pattern else 106
  }

  /** `Pattern::as_u8` and `Into<u8>`: the discriminant cast. */
  function PatternAsU8(p: Pattern): Byte {
    p as Byte
  }

  // The `Encoding` implementation for `Pattern`.

  function PatternStop(): Pattern { 106 }

  function PatternSwitch(s: Symbology): Pattern {
    match s
    case A => 101
    case B => 100
    case C => 99
  }

  function PatternStart(s: Symbology): Pattern {
    match s
    case A => 103
    case B => 104
    case C => 105
  }

  function PatternShift(): Pattern { 98 }

  function PatternFnc1(): Pattern { 102 }

  function PatternFnc2(): Pattern { 97 }

  function PatternFnc3(): Pattern { 96 }

  function PatternFnc4(s: Symbology): Option<Pattern> {
    match s
    case A => Some(101)
    case B => Some(100)
    case C => None
  }

  // The `Encoding` implementation for `u8`.

  function ByteStop(): Byte { 106 }

  function ByteSwitch(s: Symbology): Byte {
    match s
    case A => 101
    case B => 100
    case C => 99
  }

  function ByteStart(s: Symbology): Byte {
    match s
    case A => 103
    case B => 104
    case C => 105
  }

  function ByteShift(): Byte { 98 }

  function ByteFnc1(): Byte { 102 }

  function ByteFnc2(): Byte { 97 }

  function ByteFnc3(): Byte { 96 }

  function ByteFnc4(s: Symbology): Option<Byte> {
    match s
    case A => Some(101)
    case B => Some(100)
    case C => None
  }

  function ByteAsU8(b: Byte): Byte { b }

  /** Whether `b` is one of the three start codes. */
  predicate IsStart(b: Byte) {
    b == ByteStart(A) || b == ByteStart(B) || b == ByteStart(C)
  }

  // ---------------------------------------------------------------------
  // Characters

  predicate IsDigit(c: char) {
    '0' <= c <= '9'
  }

  /** Values with a character meaning in a symbology: 0..95 in A and B,
      0..99 in C. */
  predicate IsPlain(s: Symbology, v: Byte) {
    if s == C then v < 100 else v < 96
  }

  /** The text a plain value stands for: in A, 0..63 are ASCII 32..95 and
      64..95 are ASCII 0..31; in B, 0..95 are ASCII 32..127; in C, a value
      is its two decimal digits. */
  function PlainText(s: Symbology, v: Byte): (t: string)
    requires IsPlain(s, v)
    ensures s != C ==> |t| == 1
    ensures s == A ==> t[0] < 96 as char
    ensures s == B ==> 32 as char <= t[0] < 128 as char
    ensures s == C ==> |t| == 2 && IsDigit(t[0]) && IsDigit(t[1])
  {
    match s
    case A => if v < 64 then [(v as int + 32) as char] else [(v as int - 64) as char]
    case B => [(v as int + 32) as char]
    case C => [(v as int / 10 + 48) as char, (v as int % 10 + 48) as char]
  }

  /** The inverse of `PlainText`: the value whose text is `t` in `s`, if
      any. The source has no encoder; this is the table read backwards. */
  function SymbolFor(s: Symbology, t: string): Option<Byte> {
    match s
    case A =>
      if |t| == 1 && t[0] < 96 as char then
        Some(if t[0] >= 32 as char then (t[0] as int - 32) as Byte else (t[0] as int + 64) as Byte)
      else None
    case B =>
      if |t| == 1 && 32 as char <= t[0] < 128 as char then Some((t[0] as int - 32) as Byte) else None
    case C =>
      if |t| == 2 && IsDigit(t[0]) && IsDigit(t[1]) then
        Some(((t[0] as int - 48) * 10 + (t[1] as int - 48)) as Byte)
      else None
  }

  /** What `repr` gives for FNC 3 (96) and FNC 2 (97) in A and B. No source
      file implements `repr`, and the doc table gives these values no
      character, so the model takes the four texts as a parameter. */
  datatype Reserved = Reserved(fnc3A: string, fnc2A: string, fnc3B: string, fnc2B: string)

  /** All four reserved texts are ASCII. */
  predicate AsciiReserved(r: Reserved) {
    IsAscii(r.fnc3A) && IsAscii(r.fnc2A) && IsAscii(r.fnc3B) && IsAscii(r.fnc2B)
  }

  predicate IsAscii(t: string) {
    forall i :: 0 <= i < |t| ==> t[i] < 128 as char
  }

  /** `Encoding::repr` for `u8`, on the values the decoder passes it:
      below 98 in A and B, below 100 in C. */
  function Repr(v: Byte, s: Symbology, reserved: Reserved): string
    requires if s == C then v < 100 else v < 98
  {
    if IsPlain(s, v) then PlainText(s, v)
    else if v == 96 then (if s == A then reserved.fnc3A else reserved.fnc3B)
    else (if s == A then reserved.fnc2A else reserved.fnc2B)
  }

  // ---------------------------------------------------------------------
  // Properties

  /** From and as_u8 round trip on the 107 values, and only there: every
      value above 106 comes back as 106. */
  lemma ByteRoundTrip(u: Byte)
    ensures PatternAsU8(PatternFrom(u)) == u <==> u <= 106
    ensures u > 106 ==> PatternAsU8(PatternFrom(u)) == 106
  {
  }

  /** The property the quickcheck `pattern_from_u8_to_u8` asserts for every
      u8 fails at 107. */
  lemma ByteRoundTripFailsAt107()
    ensures PatternAsU8(PatternFrom(107)) != 107
  {
  }

  /** Every pattern survives as_u8 and From. */
  lemma PatternRoundTrip(p: Pattern)
    ensures PatternFrom(PatternAsU8(p)) == p
  {
  }

  /** The derived ordering on patterns is the numeric order of as_u8. */
  lemma PatternOrderIsNumeric(p: Pattern, q: Pattern)
    ensures p < q <==> PatternAsU8(p) < PatternAsU8(q)
    ensures p == q <==> PatternAsU8(p) == PatternAsU8(q)
  {
  }

  /** The structural symbols have the values of the Code 128 table,
      including the doc-test on `switch`. */
  lemma StructuralConstants()
    ensures ByteStop() == 106 && ByteShift() == 98
    ensures ByteFnc1() == 102 && ByteFnc2() == 97 && ByteFnc3() == 96
    ensures ByteStart(A) == 103 && ByteStart(B) == 104 && ByteStart(C) == 105
    ensures ByteSwitch(A) == 101 && ByteSwitch(B) == 100 && ByteSwitch(C) == 99
  {
  }

  /** FNC 4 exists only in A and B, where it is the code of that
      symbology's own switch. */
  lemma Fnc4AliasesSwitch(s: Symbology)
    ensures ByteFnc4(s) == if s == C then None else Some(ByteSwitch(s))
    ensures PatternFnc4(s) == if s == C then None else Some(PatternSwitch(s))
  {
  }

  /** The start code of a symbology is its discriminant, which is what the
      checksum adds. */
  lemma StartIsDiscriminant(s: Symbology)
    ensures ByteStart(s) == Discriminant(s)
    ensures PatternAsU8(PatternStart(s)) == Discriminant(s)
  {
  }

  /** The `Pattern` and `u8` implementations agree value for value, and
      `u8::as_u8` is the identity. */
  lemma EncodingImplsAgree(s: Symbology, b: Byte)
    ensures PatternAsU8(PatternStop()) == ByteStop()
    ensures PatternAsU8(PatternShift()) == ByteShift()
    ensures PatternAsU8(PatternFnc1()) == ByteFnc1()
    ensures PatternAsU8(PatternFnc2()) == ByteFnc2()
    ensures PatternAsU8(PatternFnc3()) == ByteFnc3()
    ensures PatternAsU8(PatternSwitch(s)) == ByteSwitch(s)
    ensures PatternAsU8(PatternStart(s)) == ByteStart(s)
    ensures PatternFnc4(s).Some? <==> ByteFnc4(s).Some?
    ensures PatternFnc4(s).Some? ==> PatternAsU8(PatternFnc4(s).value) == ByteFnc4(s).value
    ensures ByteAsU8(b) == b
  {
  }

  /** Every plain row of the doc table's A column, cell by cell: values 0
      to 63 are the characters from space to underscore, 64 to 95 the
      control characters NUL to US. */
  lemma DocTableColumnA()
    ensures PlainText(A, 0) == " " && PlainText(A, 1) == "!" && PlainText(A, 2) == "\"" && PlainText(A, 3) == "#" && PlainText(A, 4) == "$" && PlainText(A, 5) == "%" && PlainText(A, 6) == "&" && PlainText(A, 7) == "'"
    ensures PlainText(A, 8) == "(" && PlainText(A, 9) == ")" && PlainText(A, 10) == "*" && PlainText(A, 11) == "+" && PlainText(A, 12) == "," && PlainText(A, 13) == "-" && PlainText(A, 14) == "." && PlainText(A, 15) == "/"
    ensures PlainText(A, 16) == "0" && PlainText(A, 17) == "1" && PlainText(A, 18) == "2" && PlainText(A, 19) == "3" && PlainText(A, 20) == "4" && PlainText(A, 21) == "5" && PlainText(A, 22) == "6" && PlainText(A, 23) == "7"
    ensures PlainText(A, 24) == "8" && PlainText(A, 25) == "9" && PlainText(A, 26) == ":" && PlainText(A, 27) == ";" && PlainText(A, 28) == "<" && PlainText(A, 29) == "=" && PlainText(A, 30) == ">" && PlainText(A, 31) == "?"
    ensures PlainText(A, 32) == "@" && PlainText(A, 33) == "A" && PlainText(A, 34) == "B" && PlainText(A, 35) == "C" && PlainText(A, 36) == "D" && PlainText(A, 37) == "E" && PlainText(A, 38) == "F" && PlainText(A, 39) == "G"
    ensures PlainText(A, 40) == "H" && PlainText(A, 41) == "I" && PlainText(A, 42) == "J" && PlainText(A, 43) == "K" && PlainText(A, 44) == "L" && PlainText(A, 45) == "M" && PlainText(A, 46) == "N" && PlainText(A, 47) == "O"
    ensures PlainText(A, 48) == "P" && PlainText(A, 49) == "Q" && PlainText(A, 50) == "R" && PlainText(A, 51) == "S" && PlainText(A, 52) == "T" && PlainText(A, 53) == "U" && PlainText(A, 54) == "V" && PlainText(A, 55) == "W"
    ensures PlainText(A, 56) == "X" && PlainText(A, 57) == "Y" && PlainText(A, 58) == "Z" && PlainText(A, 59) == "[" && PlainText(A, 60) == "\\" && PlainText(A, 61) == "]" && PlainText(A, 62) == "^" && PlainText(A, 63) == "_"
    ensures PlainText(A, 64) == "\U{0}" && PlainText(A, 65) == "\U{1}" && PlainText(A, 66) == "\U{2}" && PlainText(A, 67) == "\U{3}" && PlainText(A, 68) == "\U{4}" && PlainText(A, 69) == "\U{5}" && PlainText(A, 70) == "\U{6}" && PlainText(A, 71) == "\U{7}"
    ensures PlainText(A, 72) == "\U{8}" && PlainText(A, 73) == "\U{9}" && PlainText(A, 74) == "\U{A}" && PlainText(A, 75) == "\U{B}" && PlainText(A, 76) == "\U{C}" && PlainText(A, 77) == "\U{D}" && PlainText(A, 78) == "\U{E}" && PlainText(A, 79) == "\U{F}"
    ensures PlainText(A, 80) == "\U{10}" && PlainText(A, 81) == "\U{11}" && PlainText(A, 82) == "\U{12}" && PlainText(A, 83) == "\U{13}" && PlainText(A, 84) == "\U{14}" && PlainText(A, 85) == "\U{15}" && PlainText(A, 86) == "\U{16}" && PlainText(A, 87) == "\U{17}"
    ensures PlainText(A, 88) == "\U{18}" && PlainText(A, 89) == "\U{19}" && PlainText(A, 90) == "\U{1A}" && PlainText(A, 91) == "\U{1B}" && PlainText(A, 92) == "\U{1C}" && PlainText(A, 93) == "\U{1D}" && PlainText(A, 94) == "\U{1E}" && PlainText(A, 95) == "\U{1F}"
  {
  }

  /** Every plain row of the doc table's B column, cell by cell: values 0
      to 95 are the characters from space to DEL. */
  lemma DocTableColumnB()
    ensures PlainText(B, 0) == " " && PlainText(B, 1) == "!" && PlainText(B, 2) == "\"" && PlainText(B, 3) == "#" && PlainText(B, 4) == "$" && PlainText(B, 5) == "%" && PlainText(B, 6) == "&" && PlainText(B, 7) == "'"
    ensures PlainText(B, 8) == "(" && PlainText(B, 9) == ")" && PlainText(B, 10) == "*" && PlainText(B, 11) == "+" && PlainText(B, 12) == "," && PlainText(B, 13) == "-" && PlainText(B, 14) == "." && PlainText(B, 15) == "/"
    ensures PlainText(B, 16) == "0" && PlainText(B, 17) == "1" && PlainText(B, 18) == "2" && PlainText(B, 19) == "3" && PlainText(B, 20) == "4" && PlainText(B, 21) == "5" && PlainText(B, 22) == "6" && PlainText(B, 23) == "7"
    ensures PlainText(B, 24) == "8" && PlainText(B, 25) == "9" && PlainText(B, 26) == ":" && PlainText(B, 27) == ";" && PlainText(B, 28) == "<" && PlainText(B, 29) == "=" && PlainText(B, 30) == ">" && PlainText(B, 31) == "?"
    ensures PlainText(B, 32) == "@" && PlainText(B, 33) == "A" && PlainText(B, 34) == "B" && PlainText(B, 35) == "C" && PlainText(B, 36) == "D" && PlainText(B, 37) == "E" && PlainText(B, 38) == "F" && PlainText(B, 39) == "G"
    ensures PlainText(B, 40) == "H" && PlainText(B, 41) == "I" && PlainText(B, 42) == "J" && PlainText(B, 43) == "K" && PlainText(B, 44) == "L" && PlainText(B, 45) == "M" && PlainText(B, 46) == "N" && PlainText(B, 47) == "O"
    ensures PlainText(B, 48) == "P" && PlainText(B, 49) == "Q" && PlainText(B, 50) == "R" && PlainText(B, 51) == "S" && PlainText(B, 52) == "T" && PlainText(B, 53) == "U" && PlainText(B, 54) == "V" && PlainText(B, 55) == "W"
    ensures PlainText(B, 56) == "X" && PlainText(B, 57) == "Y" && PlainText(B, 58) == "Z" && PlainText(B, 59) == "[" && PlainText(B, 60) == "\\" && PlainText(B, 61) == "]" && PlainText(B, 62) == "^" && PlainText(B, 63) == "_"
    ensures PlainText(B, 64) == "`" && PlainText(B, 65) == "a" && PlainText(B, 66) == "b" && PlainText(B, 67) == "c" && PlainText(B, 68) == "d" && PlainText(B, 69) == "e" && PlainText(B, 70) == "f" && PlainText(B, 71) == "g"
    ensures PlainText(B, 72) == "h" && PlainText(B, 73) == "i" && PlainText(B, 74) == "j" && PlainText(B, 75) == "k" && PlainText(B, 76) == "l" && PlainText(B, 77) == "m" && PlainText(B, 78) == "n" && PlainText(B, 79) == "o"
    ensures PlainText(B, 80) == "p" && PlainText(B, 81) == "q" && PlainText(B, 82) == "r" && PlainText(B, 83) == "s" && PlainText(B, 84) == "t" && PlainText(B, 85) == "u" && PlainText(B, 86) == "v" && PlainText(B, 87) == "w"
    ensures PlainText(B, 88) == "x" && PlainText(B, 89) == "y" && PlainText(B, 90) == "z" && PlainText(B, 91) == "{" && PlainText(B, 92) == "|" && PlainText(B, 93) == "}" && PlainText(B, 94) == "~" && PlainText(B, 95) == "\U{7F}"
  {
  }

  /** Rows 0 to 49 of the doc table's C column, cell by cell: the digit
      pairs "00" to "49". */
  lemma DocTableColumnCLow()
    ensures PlainText(C, 0) == "00" && PlainText(C, 1) == "01" && PlainText(C, 2) == "02" && PlainText(C, 3) == "03" && PlainText(C, 4) == "04" && PlainText(C, 5) == "05" && PlainText(C, 6) == "06" && PlainText(C, 7) == "07" && PlainText(C, 8) == "08" && PlainText(C, 9) == "09"
    ensures PlainText(C, 10) == "10" && PlainText(C, 11) == "11" && PlainText(C, 12) == "12" && PlainText(C, 13) == "13" && PlainText(C, 14) == "14" && PlainText(C, 15) == "15" && PlainText(C, 16) == "16" && PlainText(C, 17) == "17" && PlainText(C, 18) == "18" && PlainText(C, 19) == "19"
    ensures PlainText(C, 20) == "20" && PlainText(C, 21) == "21" && PlainText(C, 22) == "22" && PlainText(C, 23) == "23" && PlainText(C, 24) == "24" && PlainText(C, 25) == "25" && PlainText(C, 26) == "26" && PlainText(C, 27) == "27" && PlainText(C, 28) == "28" && PlainText(C, 29) == "29"
    ensures PlainText(C, 30) == "30" && PlainText(C, 31) == "31" && PlainText(C, 32) == "32" && PlainText(C, 33) == "33" && PlainText(C, 34) == "34" && PlainText(C, 35) == "35" && PlainText(C, 36) == "36" && PlainText(C, 37) == "37" && PlainText(C, 38) == "38" && PlainText(C, 39) == "39"
    ensures PlainText(C, 40) == "40" && PlainText(C, 41) == "41" && PlainText(C, 42) == "42" && PlainText(C, 43) == "43" && PlainText(C, 44) == "44" && PlainText(C, 45) == "45" && PlainText(C, 46) == "46" && PlainText(C, 47) == "47" && PlainText(C, 48) == "48" && PlainText(C, 49) == "49"
  {
  }

  /** Rows 50 to 99 of the doc table's C column, cell by cell: the digit
      pairs "50" to "99". */
  lemma DocTableColumnCHigh()
    ensures PlainText(C, 50) == "50" && PlainText(C, 51) == "51" && PlainText(C, 52) == "52" && PlainText(C, 53) == "53" && PlainText(C, 54) == "54" && PlainText(C, 55) == "55" && PlainText(C, 56) == "56" && PlainText(C, 57) == "57" && PlainText(C, 58) == "58" && PlainText(C, 59) == "59"
    ensures PlainText(C, 60) == "60" && PlainText(C, 61) == "61" && PlainText(C, 62) == "62" && PlainText(C, 63) == "63" && PlainText(C, 64) == "64" && PlainText(C, 65) == "65" && PlainText(C, 66) == "66" && PlainText(C, 67) == "67" && PlainText(C, 68) == "68" && PlainText(C, 69) == "69"
    ensures PlainText(C, 70) == "70" && PlainText(C, 71) == "71" && PlainText(C, 72) == "72" && PlainText(C, 73) == "73" && PlainText(C, 74) == "74" && PlainText(C, 75) == "75" && PlainText(C, 76) == "76" && PlainText(C, 77) == "77" && PlainText(C, 78) == "78" && PlainText(C, 79) == "79"
    ensures PlainText(C, 80) == "80" && PlainText(C, 81) == "81" && PlainText(C, 82) == "82" && PlainText(C, 83) == "83" && PlainText(C, 84) == "84" && PlainText(C, 85) == "85" && PlainText(C, 86) == "86" && PlainText(C, 87) == "87" && PlainText(C, 88) == "88" && PlainText(C, 89) == "89"
    ensures PlainText(C, 90) == "90" && PlainText(C, 91) == "91" && PlainText(C, 92) == "92" && PlainText(C, 93) == "93" && PlainText(C, 94) == "94" && PlainText(C, 95) == "95" && PlainText(C, 96) == "96" && PlainText(C, 97) == "97" && PlainText(C, 98) == "98" && PlainText(C, 99) == "99"
  {
  }

  /** Reading a plain value's text back gives the value. */
  lemma SymbolForPlainText(s: Symbology, v: Byte)
    requires IsPlain(s, v)
    ensures SymbolFor(s, PlainText(s, v)) == Some(v)
  {
    if s == C {
      var t := PlainText(s, v);
      assert (t[0] as int - 48) * 10 + (t[1] as int - 48) == (v as int / 10) * 10 + v as int % 10;
    }
  }

  /** Every text `SymbolFor` accepts is the text of the value it gives. */
  lemma PlainTextOfSymbolFor(s: Symbology, t: string)
    requires SymbolFor(s, t).Some?
    ensures IsPlain(s, SymbolFor(s, t).value)
    ensures PlainText(s, SymbolFor(s, t).value) == t
  {
    if s == C {
      var tens, units := t[0] as int - 48, t[1] as int - 48;
      var v := tens * 10 + units;
      assert v / 10 == tens && v % 10 == units;
    }
  }

  /** Distinct plain values have distinct texts. */
  lemma PlainTextInjective(s: Symbology, v: Byte, w: Byte)
    requires IsPlain(s, v) && IsPlain(s, w)
    requires PlainText(s, v) == PlainText(s, w)
    ensures v == w
  {
    SymbolForPlainText(s, v);
    SymbolForPlainText(s, w);
  }
}
