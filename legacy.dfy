/** The legacy struct-based codec of src/code128.rs: its own pattern enum,
    which stops at C102 and then declares C106, the conversion from `u8`,
    the checksum of a `Code128` value and the three-state decoder. */
module Legacy {
  import opened Encodings
  import opened Mod103

  /** The legacy patterns C0 .. C102 followed by C106. None has an explicit
      discriminant, so C<k> is k for k <= 102 and C106 is 103. */
  newtype LegacyPattern = p: int | 0 <= p <= 103

  /** The last constructor, `C106`, whose discriminant is 103. */
  const C106: LegacyPattern := 103

  /** `From<u8> for Pattern`: 0 ..= 102 go to C0 .. C102, every other value
      (103, 104, 105 included) to C106. */
  function LegacyFrom(u: Byte): LegacyPattern {
    if u <= 102 then u as LegacyPattern else C106
  }

  /** `*pattern as u8`: the discriminant. */
  function LegacyAsU8(p: LegacyPattern): Byte {
    p as Byte
  }

  /** A full legacy datum: start symbology, data symbols and the stored
      check pattern. */
  datatype Code128 = Code128(start: Symbology, symbols: seq<LegacyPattern>, checksum: LegacyPattern)

  /** The `u8` values of the patterns (`*sym as u8`). */
  function LegacyBytes(s: seq<LegacyPattern>): seq<Byte> {
    seq(|s|, i requires 0 <= i < |s| => LegacyAsU8(s[i]))
  }

  /** The check value of a datum: its start value plus its position-weighted
      data values, modulo 103. */
  function LegacyCheckValue(code: Code128): nat {
    CheckValue(Discriminant(code.start) as nat, Values(LegacyBytes(code.symbols)))
  }

  /** `calc_checksum`: fold the data symbols with a running position,
      add the start value and convert the remainder modulo 103 back into a
      pattern. The result is the check value itself, never C106. */
  method CalcChecksum(code: Code128) returns (p: LegacyPattern)
    ensures p as nat == LegacyCheckValue(code)
    ensures p != C106
  {
    ghost var values := Values(LegacyBytes(code.symbols));
    var sum: nat := 0;
    var pos: nat := 0;
    while pos < |code.symbols|
      invariant pos <= |code.symbols|
      invariant sum == WeightedSum(values[..pos])
    {
      var raw: nat := code.symbols[pos] as nat;
      WeightedSumPrefixStep(values, pos, sum);
      pos := pos + 1;
      sum := sum + raw * pos;
    }
    assert values[..pos] == values;
    sum := sum + Discriminant(code.start) as nat;
    p := LegacyFrom((sum % 103) as Byte);
  }

  /** `verify_checksum`: the computed checksum equals the stored one. */
  method VerifyChecksum(code: Code128) returns (ok: bool)
    ensures ok <==> code.checksum as nat == LegacyCheckValue(code)
  {
    var computed := CalcChecksum(code);
    ok := computed == code.checksum;
  }

  // ---------------------------------------------------------------------
  // Decoding

  /** What one symbol does in the legacy decoder: append text and move to
      a symbology, leave the loop, or reach `unimplemented!()`. */
  datatype LegacyAction = Push(text: string, next: Symbology) | Break | Panic

  /** One arm of the `match symbology` in `decode`, on the symbol's `u8`
      value. The 106 arms are kept although no legacy pattern has that
      value. */
  function LegacyStep(s: Symbology, v: Byte): LegacyAction {
    match s
    case A =>
      if v < 96 then Push(PlainText(A, v), A)
      else if v == 96 || v == 97 || v == 101 || v == 102 then Push("", A)
      else if v == 98 then Panic
      else if v == 99 then Push("", C)
      else if v == 100 then Push("", B)
      else if v == 106 then Break
      else Panic
    case B =>
      if v < 96 then Push(PlainText(B, v), B)
      else if v == 96 || v == 97 || v == 100 || v == 102 then Push("", B)
      else if v == 98 then Panic
      else if v == 99 then Push("", C)
      else if v == 101 then Push("", A)
      else if v == 106 then Break
      else Panic
    case C =>
      if v < 100 then Push(PlainText(C, v), C)
      else if v == 100 then Push("", B)
      else if v == 101 then Push("", A)
      else if v == 102 then Push("", C)
      else if v == 106 then Break
      else Panic
  }

  /** What `decode` ends with: the text, or the value that reached
      `unimplemented!()`. */
  datatype Outcome = Decoded(text: string) | Unimplemented(symbol: Byte)

  function PrependText(t: string, o: Outcome): Outcome {
    match o
    case Decoded(u) => Decoded(t + u)
    case Unimplemented(v) => Unimplemented(v)
  }

  lemma PrependTextEmpty(o: Outcome)
    ensures PrependText("", o) == o
  {
    if o.Decoded? {
      assert "" + o.text == o.text;
    }
  }

  lemma PrependTextTwice(t: string, u: string, o: Outcome)
    ensures PrependText(t, PrependText(u, o)) == PrependText(t + u, o)
  {
    if o.Decoded? {
      assert t + (u + o.text) == (t + u) + o.text;
    }
  }

  /** The decoder run over patterns from a symbology. */
  function LegacyRun(s: Symbology, symbols: seq<LegacyPattern>): Outcome
    decreases |symbols|
  {
    if symbols == [] then Decoded("")
    else
      match LegacyStep(s, LegacyAsU8(symbols[0]))
      case Push(t, next) => PrependText(t, LegacyRun(next, symbols[1..]))
      case Break => Decoded("")
      case Panic => Unimplemented(LegacyAsU8(symbols[0]))
  }

  /** The legacy digit arithmetic, `unit = v % 10` and `tens = (v - unit) /
      10`, gives the two digits of `PlainText`. */
  lemma DigitPair(v: Byte, tens: Byte, unit: Byte)
    requires v < 100 && unit == v % 10 && tens == (v - unit) / 10
    ensures PlainText(C, v) == [(tens as int + 48) as char, (unit as int + 48) as char]
  {
    assert v as int == tens as int * 10 + unit as int;
  }

  /** `decode`: the labelled loop over the symbols' values, pushing
      characters onto `encoded` and reassigning `symbology`. */
  method LegacyDecode(code: Code128) returns (r: Outcome)
    ensures r == LegacyRun(code.start, code.symbols)
  {
    var encoded: string := "";
    var symbology := code.start;
    var symbols := code.symbols;
    var i := 0;
    PrependTextEmpty(LegacyRun(code.start, symbols));
    while i < |symbols|
      invariant i <= |symbols|
      invariant LegacyRun(code.start, symbols) == PrependText(encoded, LegacyRun(symbology, symbols[i..]))
    {
      var symbol := LegacyAsU8(symbols[i]);
      assert symbols[i..][1..] == symbols[i + 1..];
      assert symbols[i..][0] == symbols[i];
      ghost var action := LegacyStep(symbology, symbol);
      ghost var before := encoded;
      if action.Push? {
        assert LegacyRun(symbology, symbols[i..]) == PrependText(action.text, LegacyRun(action.next, symbols[i + 1..]));
        PrependTextTwice(encoded, action.text, LegacyRun(action.next, symbols[i + 1..]));
      }
      match symbology {
      case A =>
        if symbol < 64 {
          encoded := encoded + [(symbol as int + 32) as char];
        } else if symbol < 96 {
          encoded := encoded + [(symbol as int - 64) as char];
        } else if symbol == 96 || symbol == 97 || symbol == 101 || symbol == 102 {
          symbology := A;
        } else if symbol == 98 {
          return Unimplemented(symbol);
        } else if symbol == 99 {
          symbology := C;
        } else if symbol == 100 {
          symbology := B;
        } else if symbol == 106 {
          // no legacy pattern has the value 106
          break;
        } else {
          return Unimplemented(symbol);
        }
      case B =>
        if symbol < 96 {
          encoded := encoded + [(symbol as int + 32) as char];
        } else if symbol == 96 || symbol == 97 || symbol == 100 || symbol == 102 {
          symbology := B;
        } else if symbol == 98 {
          return Unimplemented(symbol);
        } else if symbol == 99 {
          symbology := C;
        } else if symbol == 101 {
          symbology := A;
        } else if symbol == 106 {
          // no legacy pattern has the value 106
          break;
        } else {
          return Unimplemented(symbol);
        }
      case C =>
        if symbol < 100 {
          var unit := symbol % 10;
          var tens := (symbol - unit) / 10;
          DigitPair(symbol, tens, unit);
          encoded := encoded + [(tens as int + 48) as char, (unit as int + 48) as char];
        } else if symbol == 100 {
          symbology := B;
        } else if symbol == 101 {
          symbology := A;
        } else if symbol == 102 {
          symbology := C;
        } else if symbol == 106 {
          // no legacy pattern has the value 106
          break;
        } else {
          return Unimplemented(symbol);
        }
      }
      assert action.Push? && encoded == before + action.text && symbology == action.next;
      i := i + 1;
    }
    assert encoded + "" == encoded;
    return Decoded(encoded);
  }
}
