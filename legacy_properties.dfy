/** Properties of the legacy codec of src/code128.rs: its pattern
    conversion, the three-state decoder, its agreement with the generic
    decoder, and the decoder it would be if `C106` had the stop value. */
module LegacyProperties {
  import opened Encodings
  import opened Code128
  import opened Legacy

  // ---------------------------------------------------------------------
  // Pattern conversion

  /** Every legacy pattern survives a trip through its `u8` value. */
  lemma LegacyPatternRoundTrip(p: LegacyPattern)
    ensures LegacyFrom(LegacyAsU8(p)) == p
  {
  }

  /** A `u8` survives a trip through the legacy pattern exactly up to 103;
      every value from 103 on becomes `C106`. */
  lemma LegacyByteRoundTrip(u: Byte)
    ensures LegacyAsU8(LegacyFrom(u)) == u <==> u <= 103
    ensures LegacyFrom(u) == C106 <==> u >= 103
  {
  }

  /** `C106` is the only pattern with the value 103 and no pattern has the
      stop value 106. */
  lemma C106IsNotStop(p: LegacyPattern)
    ensures LegacyAsU8(p) == 103 <==> p == C106
    ensures LegacyAsU8(p) != ByteStop()
  {
  }

  // ---------------------------------------------------------------------
  // The decoder, symbol by symbol

  /** The `106 => break` arms are never taken on a legacy pattern. */
  lemma StopArmUnreachable(s: Symbology, p: LegacyPattern)
    ensures LegacyStep(s, LegacyAsU8(p)) != Break
  {
    C106IsNotStop(p);
  }

  /** A `C106` in the data reaches `unimplemented!()` in every symbology,
      whatever follows it. */
  lemma C106Unimplemented(s: Symbology, rest: seq<LegacyPattern>)
    ensures LegacyRun(s, [C106] + rest) == Unimplemented(103)
  {
  }

  /** A plain value appends its character or digit pair and keeps the
      symbology. */
  lemma LegacyPlainSymbol(s: Symbology, p: LegacyPattern, rest: seq<LegacyPattern>)
    requires IsPlain(s, LegacyAsU8(p))
    ensures LegacyRun(s, [p] + rest) == PrependText(PlainText(s, LegacyAsU8(p)), LegacyRun(s, rest))
  {
    assert ([p] + rest)[1..] == rest;
  }

  /** The disabled function codes are consumed without text: 96, 97, 101
      and 102 in A; 96, 97, 100 and 102 in B; 102 in C. */
  lemma LegacyFunctionCodes(s: Symbology, p: LegacyPattern, rest: seq<LegacyPattern>)
    requires match s
      case A => p == 96 || p == 97 || p == 101 || p == 102
      case B => p == 96 || p == 97 || p == 100 || p == 102
      case C => p == 102
    ensures LegacyRun(s, [p] + rest) == LegacyRun(s, rest)
  {
    assert ([p] + rest)[1..] == rest;
    PrependTextEmpty(LegacyRun(s, rest));
  }

  /** The switch codes: 99 goes to C from A and B, 100 to B from A and C,
      101 to A from B and C. */
  lemma LegacySwitchCodes(rest: seq<LegacyPattern>)
    ensures LegacyRun(A, [99] + rest) == LegacyRun(C, rest)
    ensures LegacyRun(A, [100] + rest) == LegacyRun(B, rest)
    ensures LegacyRun(B, [99] + rest) == LegacyRun(C, rest)
    ensures LegacyRun(B, [101] + rest) == LegacyRun(A, rest)
    ensures LegacyRun(C, [100] + rest) == LegacyRun(B, rest)
    ensures LegacyRun(C, [101] + rest) == LegacyRun(A, rest)
  {
    assert ([99] + rest)[1..] == rest;
    assert ([100] + rest)[1..] == rest;
    assert ([101] + rest)[1..] == rest;
    PrependTextEmpty(LegacyRun(A, rest));
    PrependTextEmpty(LegacyRun(B, rest));
    PrependTextEmpty(LegacyRun(C, rest));
  }

  /** The shift code 98 reaches `unimplemented!()` in A and B. */
  lemma LegacyShiftUnimplemented(s: Symbology, rest: seq<LegacyPattern>)
    requires s != C
    ensures LegacyRun(s, [98] + rest) == Unimplemented(98)
  {
  }

  // ---------------------------------------------------------------------
  // The decoder over a sequence

  /** How far the legacy decoder gets through a prefix: still pushing
      text in some symbology, or finished with an outcome. */
  datatype LegacyProgress = Pushing(text: string, state: Symbology) | Ended(outcome: Outcome)

  function LegacyProgressAfter(t: string, p: LegacyProgress): LegacyProgress {
    match p
    case Pushing(u, s) => Pushing(t + u, s)
    case Ended(o) => Ended(PrependText(t, o))
  }

  /** The legacy decoder fed a prefix of the symbols. */
  function LegacyFeed(s: Symbology, symbols: seq<LegacyPattern>): LegacyProgress
    decreases |symbols|
  {
    if symbols == [] then Pushing("", s)
    else
      match LegacyStep(s, LegacyAsU8(symbols[0]))
      case Push(t, next) => LegacyProgressAfter(t, LegacyFeed(next, symbols[1..]))
      case Break => Ended(Decoded(""))
      case Panic => Ended(Unimplemented(LegacyAsU8(symbols[0])))
  }

  /** Carrying on from a point of progress with more symbols. */
  function LegacyResume(p: LegacyProgress, rest: seq<LegacyPattern>): Outcome {
    match p
    case Pushing(t, s) => PrependText(t, LegacyRun(s, rest))
    case Ended(o) => o
  }

  /** Decoding a concatenation is decoding the first part and resuming from
      where it left the decoder. */
  lemma {:induction false} LegacyRunAppend(s: Symbology, xs: seq<LegacyPattern>, ys: seq<LegacyPattern>)
    ensures LegacyRun(s, xs + ys) == LegacyResume(LegacyFeed(s, xs), ys)
    decreases |xs|
  {
    if xs == [] {
      assert xs + ys == ys;
      PrependTextEmpty(LegacyRun(s, ys));
    } else {
      assert (xs + ys)[0] == xs[0] && (xs + ys)[1..] == xs[1..] + ys;
      match LegacyStep(s, LegacyAsU8(xs[0]))
      case Push(t, next) =>
        LegacyRunAppend(next, xs[1..], ys);
        var p := LegacyFeed(next, xs[1..]);
        if p.Pushing? {
          PrependTextTwice(t, p.text, LegacyRun(p.state, ys));
        }
      case Break =>
      case Panic =>
    }
  }

  /** Every character the legacy decoder emits is ASCII. */
  lemma {:induction false} LegacyRunIsAscii(s: Symbology, symbols: seq<LegacyPattern>)
    ensures LegacyRun(s, symbols).Decoded? ==> IsAscii(LegacyRun(s, symbols).text)
    decreases |symbols|
  {
    if symbols != [] {
      match LegacyStep(s, LegacyAsU8(symbols[0]))
      case Push(t, next) =>
        LegacyRunIsAscii(next, symbols[1..]);
        assert IsAscii(t);
      case Break =>
      case Panic =>
    }
  }

  /** The legacy decoder reaches `unimplemented!()` only on a shift (98) or
      on `C106` (103), and only on a value that occurs in the data. */
  lemma {:induction false} LegacyFailures(s: Symbology, symbols: seq<LegacyPattern>)
    ensures LegacyRun(s, symbols).Unimplemented? ==>
      var v := LegacyRun(s, symbols).symbol;
      (v == 98 || v == 103) && exists i :: 0 <= i < |symbols| && LegacyAsU8(symbols[i]) == v
    decreases |symbols|
  {
    if symbols != [] {
      match LegacyStep(s, LegacyAsU8(symbols[0]))
      case Push(t, next) =>
        LegacyFailures(next, symbols[1..]);
        if LegacyRun(next, symbols[1..]).Unimplemented? {
          var v := LegacyRun(next, symbols[1..]).symbol;
          var i :| 0 <= i < |symbols[1..]| && LegacyAsU8(symbols[1..][i]) == v;
          assert LegacyAsU8(symbols[i + 1]) == v;
        }
      case Break =>
      case Panic =>
        assert LegacyAsU8(symbols[0]) == LegacyRun(s, symbols).symbol;
    }
  }

  /** Data with neither a shift nor a `C106` always decodes to text. */
  lemma {:induction false} LegacyDecodesWithoutShiftOrC106(s: Symbology, symbols: seq<LegacyPattern>)
    requires forall i :: 0 <= i < |symbols| ==> symbols[i] != 98 && symbols[i] != C106
    ensures LegacyRun(s, symbols).Decoded?
    decreases |symbols|
  {
    if symbols != [] {
      assert symbols[0] != 98 && symbols[0] != C106;
      match LegacyStep(s, LegacyAsU8(symbols[0]))
      case Push(t, next) =>
        LegacyDecodesWithoutShiftOrC106(next, symbols[1..]);
      case Break =>
      case Panic =>
        assert false;
    }
  }

  // ---------------------------------------------------------------------
  // Agreement with the generic decoder

  /** A legacy step read as a step of the generic decoder. */
  function AsGenericAction(a: LegacyAction, v: Byte): Action {
    match a
    case Push(t, next) => Emit(t, Initial(next))
    case Break => Halt
    case Panic => Reject(v)
  }

  /** The two decoders take the same step in the settled states, once the
      state-B switch codes act as their comments say, except on what only
      one of them defines: the shift and the codes 96 and 97 in A and B. */
  lemma CorrectedStepAgreesWithLegacy(s: Symbology, v: Byte, reserved: Reserved)
    requires s == C || (v != 96 && v != 97 && v != 98)
    ensures CorrectedStep(Initial(s), v, reserved) == AsGenericAction(LegacyStep(s, v), v)
  {
    if v < 96 || (s == C && v < 100) {
      assert IsPlain(s, v);
    }
  }

  /** The as-written generic decoder and the legacy one differ on 99 and
      101 in B: the generic one stays in B, the legacy one switches. */
  lemma StepDisagreesWithLegacyInB(reserved: Reserved)
    ensures Step(StateB, 99, reserved) != AsGenericAction(LegacyStep(B, 99), 99)
    ensures Step(StateB, 101, reserved) != AsGenericAction(LegacyStep(B, 101), 101)
  {
  }

  // ---------------------------------------------------------------------
  // The stop pattern with its intended value

  /** The value of a pattern if `C106` had the stop value 106, as its name
      and the `106 => break` arms intend. */
  function IntendedAsU8(p: LegacyPattern): (v: Byte)
    ensures v <= 102 || v == ByteStop()
    ensures v == ByteStop() <==> p == C106
  {
    if p == C106 then 106 else p as Byte
  }

  /** The legacy decoder over the intended values. */
  function IntendedRun(s: Symbology, symbols: seq<LegacyPattern>): Outcome
    decreases |symbols|
  {
    if symbols == [] then Decoded("")
    else
      match LegacyStep(s, IntendedAsU8(symbols[0]))
      case Push(t, next) => PrependText(t, IntendedRun(next, symbols[1..]))
      case Break => Decoded("")
      case Panic => Unimplemented(IntendedAsU8(symbols[0]))
  }

  /** With the intended value, `C106` ends decoding in every symbology and
      what follows it is ignored. */
  lemma IntendedStopEndsDecoding(s: Symbology, rest: seq<LegacyPattern>)
    ensures IntendedRun(s, [C106] + rest) == Decoded("")
  {
  }

  /** With the intended value the decoder is total except on the shift
      code, which it leaves unimplemented. */
  lemma {:induction false} IntendedFailsOnlyOnShift(s: Symbology, symbols: seq<LegacyPattern>)
    ensures IntendedRun(s, symbols).Unimplemented? ==> IntendedRun(s, symbols).symbol == 98
    decreases |symbols|
  {
    if symbols != [] {
      match LegacyStep(s, IntendedAsU8(symbols[0]))
      case Push(t, next) =>
        IntendedFailsOnlyOnShift(next, symbols[1..]);
      case Break =>
      case Panic =>
    }
  }

  /** Both readings agree on data without `C106`. */
  lemma {:induction false} IntendedAgreesWithoutC106(s: Symbology, symbols: seq<LegacyPattern>)
    requires forall i :: 0 <= i < |symbols| ==> symbols[i] != C106
    ensures IntendedRun(s, symbols) == LegacyRun(s, symbols)
    decreases |symbols|
  {
    if symbols != [] {
      assert symbols[0] != C106;
      assert IntendedAsU8(symbols[0]) == LegacyAsU8(symbols[0]);
      match LegacyStep(s, LegacyAsU8(symbols[0]))
      case Push(t, next) =>
        IntendedAgreesWithoutC106(next, symbols[1..]);
      case Break =>
      case Panic =>
    }
  }
}
