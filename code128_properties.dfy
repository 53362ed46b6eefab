/** Properties of the generic codec: framing, the checksum decision and the
    decoder's state machine, with the test vectors of
    src/internals/code128/mod.rs. */
module Code128Properties {
  import opened Format
  import opened Encodings
  import opened Mod103
  import opened Code128

  // ---------------------------------------------------------------------
  // Framing

  /** Fewer than three symbols never frame. */
  lemma NoFrameBelowThree(code: seq<Byte>)
    requires |code| < 3
    ensures Data(code) == None
  {
  }

  /** The quickcheck `short_data_is_invalid` claims every slice shorter
      than four has no frame; three symbols already frame, with no data. */
  lemma ThreeSymbolsFrame(x: Byte)
    ensures Data([103, x, 106]) == Some(Frame(A, [], x))
  {
  }

  /** Framing takes apart exactly what start, data, check and stop put
      together. */
  lemma FrameRoundTrip(s: Symbology, symbols: seq<Byte>, check: Byte)
    ensures Data([ByteStart(s)] + symbols + [check, ByteStop()]) == Some(Frame(s, symbols, check))
  {
    var code := [ByteStart(s)] + symbols + [check, ByteStop()];
    var f := Data(code).value;
    assert code[0] == ByteStart(s);
    assert [ByteStart(f.start)] + f.symbols + [f.check, ByteStop()] == code;
    assert ByteStart(f.start) == ByteStart(s);
    assert f.symbols == code[1..|code| - 2] == symbols;
  }

  /** The framing test vectors. */
  lemma FramingVectors()
    ensures Data([103]) == None
    ensures Data([103, 106]) == None
    ensures Data([103, 48, 15, 106]) == Some(Frame(A, [48], 15))
    ensures Data([103, 48, 42, 42, 17, 18, 19, 35, 54, 106]) == Some(Frame(A, [48, 42, 42, 17, 18, 19, 35], 54))
  {
    FrameRoundTrip(A, [48], 15);
    FrameRoundTrip(A, [48, 42, 42, 17, 18, 19, 35], 54);
    assert [103, 48, 15, 106] == [ByteStart(A)] + [48] + [15, ByteStop()];
    assert [103, 48, 42, 42, 17, 18, 19, 35, 54, 106]
        == [ByteStart(A)] + [48, 42, 42, 17, 18, 19, 35] + [54, ByteStop()];
  }

  // ---------------------------------------------------------------------
  // Checksum

  /** An unframed slice never has a valid checksum. */
  lemma UnframedChecksumFails(code: seq<Byte>)
    requires Data(code) == None
    ensures !ValidChecksum(code)
  {
  }

  /** A framed datum has a valid checksum exactly when its check symbol is
      the check value of its start and data. */
  lemma ChecksumOfFrame(s: Symbology, symbols: seq<Byte>, check: Byte)
    ensures ValidChecksum([ByteStart(s)] + symbols + [check, ByteStop()])
        <==> check as nat == CheckValue(Discriminant(s) as nat, Values(symbols))
  {
    FrameRoundTrip(s, symbols, check);
  }

  /** A valid checksum has a frame whose check symbol is below 103. */
  lemma ValidCheckBelow103(code: seq<Byte>)
    requires ValidChecksum(code)
    ensures Data(code).Some? && Data(code).value.check < 103
  {
  }

  /** There is no length guard: a datum with no data symbols can pass. */
  lemma ChecksumAcceptsEmptyData()
    ensures ValidChecksum([103, 0, 106])
  {
    ChecksumOfFrame(A, [], 0);
    assert [103, 0, 106] == [ByteStart(A)] + [] + [0, ByteStop()];
  }

  // ---------------------------------------------------------------------
  // Decoding: the outer checks

  /** Fewer than four symbols is a length error carrying the length. */
  lemma DecodeShort(code: seq<Byte>, reserved: Reserved)
    requires |code| < 4
    ensures Decoding(code, reserved) == Err(InvalidLength(|code|))
  {
  }

  /** Four or more symbols that do not frame are a format error. */
  lemma DecodeUnframed(code: seq<Byte>, reserved: Reserved)
    requires |code| >= 4 && Data(code).None?
    ensures Decoding(code, reserved) == Err(BadFormat)
  {
  }

  /** A frame with no data symbols is still a length error. */
  lemma EmptyDataRejected(s: Symbology, check: Byte, reserved: Reserved)
    ensures Data([ByteStart(s), check, ByteStop()]) == Some(Frame(s, [], check))
    ensures Decoding([ByteStart(s), check, ByteStop()], reserved) == Err(InvalidLength(3))
  {
    FrameRoundTrip(s, [], check);
    assert [ByteStart(s), check, ByteStop()] == [ByteStart(s)] + [] + [check, ByteStop()];
  }

  /** The check symbol is discarded: replacing it never changes the
      decoding. */
  lemma DecodeIgnoresCheck(code: seq<Byte>, x: Byte, reserved: Reserved)
    requires |code| >= 2
    ensures Decoding(code[|code| - 2 := x], reserved) == Decoding(code, reserved)
  {
    var code' := code[|code| - 2 := x];
    if |code| >= 4 {
      assert code'[0] == code[0] && code'[|code| - 1] == code[|code| - 1];
      if Data(code).Some? {
        var f, f' := Data(code).value, Data(code').value;
        assert code[1..|code| - 2] == code'[1..|code| - 2];
        assert code[0] == ByteStart(f.start) && code'[0] == ByteStart(f'.start);
        assert f.symbols == code[1..|code| - 2];
        assert f'.symbols == code'[1..|code| - 2];
      }
    }
  }

  // ---------------------------------------------------------------------
  // Decoding: one symbol at a time

  /** The states that use one symbology until a switch. */
  predicate Settled(state: Parser) {
    state == StateA || state == StateB || state == StateC
  }

  /** The symbology of a settled state. */
  function Alphabet(state: Parser): Symbology
    requires Settled(state)
  {
    match state
    case StateA => A
    case StateB => B
    case StateC => C
  }

  /** A value below 98 in A or B, below 100 in C, appends its `repr` and
      keeps the state. */
  lemma PlainSymbolAppends(state: Parser, v: Byte, rest: seq<Byte>, reserved: Reserved)
    requires Settled(state)
    requires if state == StateC then v < 100 else v < 98
    ensures Run(state, [v] + rest, reserved) == Prepend(Repr(v, Alphabet(state), reserved), Run(state, rest, reserved))
  {
    assert ([v] + rest)[1..] == rest;
  }

  /** FNC 1 is consumed without output in every settled state, and FNC 4
      in A (101) and B (100). */
  lemma FunctionCodesAreNoOps(state: Parser, rest: seq<Byte>, reserved: Reserved)
    requires Settled(state)
    ensures Run(state, [102] + rest, reserved) == Run(state, rest, reserved)
    ensures Run(StateA, [101] + rest, reserved) == Run(StateA, rest, reserved)
    ensures Run(StateB, [100] + rest, reserved) == Run(StateB, rest, reserved)
  {
    assert ([102] + rest)[1..] == rest;
    assert ([101] + rest)[1..] == rest;
    assert ([100] + rest)[1..] == rest;
    PrependEmpty(Run(state, rest, reserved));
    PrependEmpty(Run(StateA, rest, reserved));
    PrependEmpty(Run(StateB, rest, reserved));
  }

  /** The switches: A goes to B on 100 and to C on 99; C goes to B on 100
      and to A on 101. */
  lemma SwitchCodes(rest: seq<Byte>, reserved: Reserved)
    ensures Run(StateA, [100] + rest, reserved) == Run(StateB, rest, reserved)
    ensures Run(StateA, [99] + rest, reserved) == Run(StateC, rest, reserved)
    ensures Run(StateC, [100] + rest, reserved) == Run(StateB, rest, reserved)
    ensures Run(StateC, [101] + rest, reserved) == Run(StateA, rest, reserved)
  {
    assert ([100] + rest)[1..] == rest;
    assert ([99] + rest)[1..] == rest;
    assert ([101] + rest)[1..] == rest;
    PrependEmpty(Run(StateA, rest, reserved));
    PrependEmpty(Run(StateB, rest, reserved));
    PrependEmpty(Run(StateC, rest, reserved));
  }

  /** As written, state B stays in B on 99 and on 101. */
  lemma StateBKeepsStateOnSwitchCodes(rest: seq<Byte>, reserved: Reserved)
    ensures Run(StateB, [99] + rest, reserved) == Run(StateB, rest, reserved)
    ensures Run(StateB, [101] + rest, reserved) == Run(StateB, rest, reserved)
  {
    assert ([99] + rest)[1..] == rest;
    assert ([101] + rest)[1..] == rest;
    PrependEmpty(Run(StateB, rest, reserved));
  }

  /** Corrected, state B switches to C on 99 and to A on 101. */
  lemma CorrectedSwitchCodesInB(rest: seq<Byte>, reserved: Reserved)
    ensures CorrectedRun(StateB, [99] + rest, reserved) == CorrectedRun(StateC, rest, reserved)
    ensures CorrectedRun(StateB, [101] + rest, reserved) == CorrectedRun(StateA, rest, reserved)
  {
    assert ([99] + rest)[1..] == rest;
    assert ([101] + rest)[1..] == rest;
    PrependEmpty(CorrectedRun(StateC, rest, reserved));
    PrependEmpty(CorrectedRun(StateA, rest, reserved));
  }

  /** The correction changes nothing on data without the codes 99 and 101. */
  lemma {:induction false} CorrectedRunAgreesWithout99And101(state: Parser, symbols: seq<Byte>, reserved: Reserved)
    requires forall i :: 0 <= i < |symbols| ==> symbols[i] != 99 && symbols[i] != 101
    ensures CorrectedRun(state, symbols, reserved) == Run(state, symbols, reserved)
    decreases |symbols|
  {
    if symbols != [] {
      assert symbols[0] != 99 && symbols[0] != 101;
      match Step(state, symbols[0], reserved)
      case Emit(t, next) =>
        CorrectedRunAgreesWithout99And101(next, symbols[1..], reserved);
      case Halt =>
      case Reject(v) =>
    }
  }

  /** A shift in A or B reads exactly the next symbol in the other
      symbology and returns; a next symbol of 98 or more fails. */
  lemma ShiftReadsOneSymbol(v: Byte, rest: seq<Byte>, reserved: Reserved)
    ensures Run(StateA, [98, v] + rest, reserved)
         == if v < 98 then Prepend(Repr(v, B, reserved), Run(StateA, rest, reserved)) else Err(DecodeErr(v as nat))
    ensures Run(StateB, [98, v] + rest, reserved)
         == if v < 98 then Prepend(Repr(v, A, reserved), Run(StateB, rest, reserved)) else Err(DecodeErr(v as nat))
  {
    var code := [98, v] + rest;
    assert code[1..] == [v] + rest && ([v] + rest)[1..] == rest;
    PrependEmpty(Run(ShiftB, [v] + rest, reserved));
    PrependEmpty(Run(ShiftA, [v] + rest, reserved));
  }

  /** The stop value ends decoding in every settled state, whatever
      follows. */
  lemma StopEndsDecoding(state: Parser, rest: seq<Byte>, reserved: Reserved)
    requires Settled(state)
    ensures Run(state, [106] + rest, reserved) == Ok("")
  {
  }

  /** Start codes and values above 106 fail in every settled state, and a
      shift state fails on anything but a value below 98. */
  lemma UnexpectedSymbolsRejected(state: Parser, v: Byte, rest: seq<Byte>, reserved: Reserved)
    ensures Settled(state) && (103 <= v <= 105 || v > 106) ==> Run(state, [v] + rest, reserved) == Err(DecodeErr(v as nat))
    ensures (state == ShiftA || state == ShiftB) && v >= 98 ==> Run(state, [v] + rest, reserved) == Err(DecodeErr(v as nat))
  {
  }

  // ---------------------------------------------------------------------
  // Decoding: sequences

  /** Where the decoder stands after some symbols: still running with the
      text so far, stopped, or failed. */
  datatype Progress = Running(text: string, state: Parser) | Stopped(text: string) | Failed(symbol: Byte)

  function ProgressAfter(t: string, p: Progress): Progress {
    match p
    case Running(u, s) => Running(t + u, s)
    case Stopped(u) => Stopped(t + u)
    case Failed(v) => Failed(v)
  }

  /** The decoder fed a prefix of the data symbols. */
  function Feed(state: Parser, symbols: seq<Byte>, reserved: Reserved): Progress
    decreases |symbols|
  {
    if symbols == [] then Running("", state)
    else
      match Step(state, symbols[0], reserved)
      case Emit(t, next) => ProgressAfter(t, Feed(next, symbols[1..], reserved))
      case Halt => Stopped("")
      case Reject(v) => Failed(v)
  }

  /** Carrying on from a point of progress with more symbols. */
  function Resume(p: Progress, rest: seq<Byte>, reserved: Reserved): Result<string> {
    match p
    case Running(t, s) => Prepend(t, Run(s, rest, reserved))
    case Stopped(t) => Ok(t)
    case Failed(v) => Err(DecodeErr(v as nat))
  }

  /** Decoding a concatenation is decoding the first part and resuming from
      where it left the decoder. */
  lemma {:induction false} RunAppend(state: Parser, xs: seq<Byte>, ys: seq<Byte>, reserved: Reserved)
    ensures Run(state, xs + ys, reserved) == Resume(Feed(state, xs, reserved), ys, reserved)
    decreases |xs|
  {
    if xs == [] {
      assert xs + ys == ys;
      PrependEmpty(Run(state, ys, reserved));
    } else {
      assert (xs + ys)[0] == xs[0] && (xs + ys)[1..] == xs[1..] + ys;
      match Step(state, xs[0], reserved)
      case Emit(t, next) =>
        RunAppend(next, xs[1..], ys, reserved);
        var p := Feed(next, xs[1..], reserved);
        if p.Running? {
          PrependTwice(t, p.text, Run(p.state, ys, reserved));
        }
      case Halt =>
      case Reject(v) =>
    }
  }

  /** An FNC 1 inserted at any point where the decoder is in a settled
      state changes nothing. */
  lemma Fnc1InsertionIsInvisible(state: Parser, xs: seq<Byte>, ys: seq<Byte>, reserved: Reserved)
    requires Feed(state, xs, reserved).Running? && Settled(Feed(state, xs, reserved).state)
    ensures Run(state, xs + [102] + ys, reserved) == Run(state, xs + ys, reserved)
  {
    assert xs + [102] + ys == xs + ([102] + ys);
    RunAppend(state, xs, [102] + ys, reserved);
    RunAppend(state, xs, ys, reserved);
    FunctionCodesAreNoOps(Feed(state, xs, reserved).state, ys, reserved);
  }

  /** Whatever follows a stop reached in a settled state is ignored. */
  lemma AfterStopIgnored(state: Parser, xs: seq<Byte>, ys: seq<Byte>, zs: seq<Byte>, reserved: Reserved)
    requires Feed(state, xs, reserved).Running? && Settled(Feed(state, xs, reserved).state)
    ensures Run(state, xs + [106] + ys, reserved) == Run(state, xs + [106] + zs, reserved)
    ensures Run(state, xs + [106] + ys, reserved) == Ok(Feed(state, xs, reserved).text)
  {
    var p := Feed(state, xs, reserved);
    assert xs + [106] + ys == xs + ([106] + ys);
    assert xs + [106] + zs == xs + ([106] + zs);
    RunAppend(state, xs, [106] + ys, reserved);
    RunAppend(state, xs, [106] + zs, reserved);
    StopEndsDecoding(p.state, ys, reserved);
    StopEndsDecoding(p.state, zs, reserved);
    assert p.text + "" == p.text;
  }

  /** Decoded text is ASCII when the reserved texts are. */
  lemma {:induction false} RunIsAscii(state: Parser, symbols: seq<Byte>, reserved: Reserved)
    requires AsciiReserved(reserved)
    ensures Run(state, symbols, reserved).Ok? ==> IsAscii(Run(state, symbols, reserved).value)
    decreases |symbols|
  {
    if symbols != [] {
      match Step(state, symbols[0], reserved)
      case Emit(t, next) =>
        RunIsAscii(next, symbols[1..], reserved);
        assert IsAscii(t);
      case Halt =>
      case Reject(v) =>
    }
  }

  lemma DecodedIsAscii(code: seq<Byte>, reserved: Reserved)
    requires AsciiReserved(reserved)
    ensures Decoding(code, reserved).Ok? ==> IsAscii(Decoding(code, reserved).value)
  {
    if |code| >= 4 && Data(code).Some? {
      RunIsAscii(Initial(Data(code).value.start), Data(code).value.symbols, reserved);
    }
  }

  // ---------------------------------------------------------------------
  // Decoding: round trip with the table read backwards

  /** Characters per symbol: one in A and B, two in C. */
  function Width(s: Symbology): nat {
    if s == C then 2 else 1
  }

  /** Whether a text can be written with plain symbols of `s` alone. */
  predicate InAlphabet(s: Symbology, text: string)
    decreases |text|
  {
    text == [] || (|text| >= Width(s) && SymbolFor(s, text[..Width(s)]).Some? && InAlphabet(s, text[Width(s)..]))
  }

  /** The plain symbols that spell a text in symbology `s`. */
  function SymbolsFor(s: Symbology, text: string): (r: seq<Byte>)
    requires InAlphabet(s, text)
    ensures forall i :: 0 <= i < |r| ==> IsPlain(s, r[i])
    decreases |text|
  {
    if text == [] then []
    else
      PlainTextOfSymbolFor(s, text[..Width(s)]);
      [SymbolFor(s, text[..Width(s)]).value] + SymbolsFor(s, text[Width(s)..])
  }

  /** Decoding the spelled symbols in their symbology gives the text back. */
  lemma {:induction false} RunSpelledText(s: Symbology, text: string, reserved: Reserved)
    requires InAlphabet(s, text)
    ensures Run(Initial(s), SymbolsFor(s, text), reserved) == Ok(text)
    decreases |text|
  {
    if text != [] {
      var w := Width(s);
      var v := SymbolFor(s, text[..w]).value;
      PlainTextOfSymbolFor(s, text[..w]);
      RunSpelledText(s, text[w..], reserved);
      PlainSymbolAppends(Initial(s), v, SymbolsFor(s, text[w..]), reserved);
      assert Alphabet(Initial(s)) == s;
      assert text[..w] + text[w..] == text;
    }
  }

  /** Any non-empty text in a symbology's alphabet, framed with its start
      code and any check symbol, decodes to itself. */
  lemma DecodeSpelledText(s: Symbology, text: string, check: Byte, reserved: Reserved)
    requires InAlphabet(s, text) && text != []
    ensures Decoding([ByteStart(s)] + SymbolsFor(s, text) + [check, ByteStop()], reserved) == Ok(text)
  {
    FrameRoundTrip(s, SymbolsFor(s, text), check);
    RunSpelledText(s, text, reserved);
  }
}
