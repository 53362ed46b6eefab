/** The generic Code 128 codec of src/internals/code128/mod.rs, instantiated
    with `u8` symbols: framing (`Code128::data`), the checksum
    (`Format::checksum`) and the five-state decoder (`Decode::decode`). */
module Code128 {
  import opened Format
  import opened Encodings
  import opened Mod103

  // ---------------------------------------------------------------------
  // Framing

  /** The parts of a framed datum: the symbology of its start code, the
      data symbols and the check symbol. */
  datatype Frame = Frame(start: Symbology, symbols: seq<Byte>, check: Byte)

  /** `Code128::data`: split off the first symbol, then a trailing stop,
      then the check symbol before it, and read the first symbol as a start
      code. */
  function Data(code: seq<Byte>): (r: Option<Frame>)
    ensures r.Some? <==> |code| >= 3 && code[|code| - 1] == ByteStop() && IsStart(code[0])
    ensures r.Some? ==> code == [ByteStart(r.value.start)] + r.value.symbols + [r.value.check, ByteStop()]
  {
    if |code| == 0 then None
    else
      var start, rest := code[0], code[1..];
      if |rest| == 0 || rest[|rest| - 1] != ByteStop() then None
      else
        var rest := rest[..|rest| - 1];
        if |rest| == 0 then None
        else
          var check, symbols := rest[|rest| - 1], rest[..|rest| - 1];
          assert code == [start] + symbols + [check, ByteStop()];
          if start == ByteStart(A) then Some(Frame(A, symbols, check))
          else if start == ByteStart(B) then Some(Frame(B, symbols, check))
          else if start == ByteStart(C) then Some(Frame(C, symbols, check))
          else None
  }

  // ---------------------------------------------------------------------
  // Checksum

  /** What `checksum` decides: the datum frames, and its check symbol
      equals the start code's discriminant plus the position-weighted data
      values, modulo 103. */
  predicate ValidChecksum(code: seq<Byte>) {
    match Data(code)
    case None => false
    case Some(f) => f.check as nat == CheckValue(Discriminant(f.start) as nat, Values(f.symbols))
  }

  /** `Format::checksum`: fold the data symbols with a running position
      counter, add the start discriminant, compare the remainder modulo 103
      with the check symbol. */
  method Checksum(code: seq<Byte>) returns (ok: bool)
    ensures ok == ValidChecksum(code)
  {
    var frame := Data(code);
    if frame.None? {
      return false;
    }
    var symbols := frame.value.symbols;
    ghost var values := Values(symbols);
    var sum: nat := 0;
    var pos: nat := 0;
    while pos < |symbols|
      invariant pos <= |symbols|
      invariant sum == WeightedSum(values[..pos])
    {
      var raw: nat := symbols[pos] as nat;
      WeightedSumPrefixStep(values, pos, sum);
      pos := pos + 1;
      sum := sum + raw * pos;
    }
    assert values[..pos] == values;
    sum := sum + Discriminant(frame.value.start) as nat;
    ok := (sum % 103) as Byte == frame.value.check;
  }

  // ---------------------------------------------------------------------
  // Decoding

  /** The states of the decoder: one per symbology, and two transient
      states that read one symbol in the other of A and B. */
  datatype Parser = StateA | StateB | StateC | ShiftA | ShiftB

  /** The state a start symbology begins in. */
  function Initial(s: Symbology): Parser {
    match s
    case A => StateA
    case B => StateB
    case C => StateC
  }

  /** What one symbol does: append text and move to a state, end decoding,
      or fail on the symbol. */
  datatype Action = Emit(text: string, next: Parser) | Halt | Reject(symbol: Byte)

  /** One transition of the decoder, arm by arm as the `match` in
      `decode` has it. In A and B the first arm (`n < 98`) also catches 96
      and 97, and in B the codes 99 and 101 keep the state B. */
  function Step(state: Parser, v: Byte, reserved: Reserved): Action {
    match state
    case StateA =>
      if v < 98 then Emit(Repr(v, A, reserved), StateA)
      else if v == 100 then Emit("", StateB)
      else if v == 99 then Emit("", StateC)
      else if v == 98 then Emit("", ShiftB)
      else if v == 106 then Halt
      else if v == 102 || v == 97 || v == 96 || v == 101 then Emit("", StateA)
      else Reject(v)
    case StateB =>
      if v < 98 then Emit(Repr(v, B, reserved), StateB)
      else if v == 101 then Emit("", StateB)
      else if v == 99 then Emit("", StateB)
      else if v == 106 then Halt
      else if v == 98 then Emit("", ShiftA)
      else if v == 102 || v == 97 || v == 96 || v == 100 then Emit("", StateB)
      else Reject(v)
    case StateC =>
      if v < 100 then Emit(Repr(v, C, reserved), StateC)
      else if v == 100 then Emit("", StateB)
      else if v == 101 then Emit("", StateA)
      else if v == 106 then Halt
      else if v == 102 then Emit("", StateC)
      else Reject(v)
    case ShiftA =>
      if v < 98 then Emit(Repr(v, A, reserved), StateB) else Reject(v)
    case ShiftB =>
      if v < 98 then Emit(Repr(v, B, reserved), StateA) else Reject(v)
  }

  /** The transition the comments on the state-B arms describe: 101
      switches to A and 99 to C; everything else as `Step`. */
  function CorrectedStep(state: Parser, v: Byte, reserved: Reserved): Action {
    if state == StateB && v == 101 then Emit("", StateA)
    else if state == StateB && v == 99 then Emit("", StateC)
    else Step(state, v, reserved)
  }

  /** Text placed before a successful result; errors pass through. */
  function Prepend(t: string, r: Result<string>): Result<string> {
    match r
    case Ok(s) => Ok(t + s)
    case Err(e) => Err(e)
  }

  lemma PrependEmpty(r: Result<string>)
    ensures Prepend("", r) == r
  {
    if r.Ok? {
      assert "" + r.value == r.value;
    }
  }

  lemma PrependTwice(t: string, u: string, r: Result<string>)
    ensures Prepend(t, Prepend(u, r)) == Prepend(t + u, r)
  {
    if r.Ok? {
      assert t + (u + r.value) == (t + u) + r.value;
    }
  }

  /** The decoder run over data symbols from a state: the text of every
      symbol up to the end or a stop, or the first rejected symbol. */
  function Run(state: Parser, symbols: seq<Byte>, reserved: Reserved): Result<string>
    decreases |symbols|
  {
    if symbols == [] then Ok("")
    else
      match Step(state, symbols[0], reserved)
      case Emit(t, next) => Prepend(t, Run(next, symbols[1..], reserved))
      case Halt => Ok("")
      case Reject(v) => Err(DecodeErr(v as nat))
  }

  /** The decoder run as the comments on the state-B arms describe it:
      `Run` with `CorrectedStep` in place of `Step`. */
  function CorrectedRun(state: Parser, symbols: seq<Byte>, reserved: Reserved): Result<string>
    decreases |symbols|
  {
    if symbols == [] then Ok("")
    else
      match CorrectedStep(state, symbols[0], reserved)
      case Emit(t, next) => Prepend(t, CorrectedRun(next, symbols[1..], reserved))
      case Halt => Ok("")
      case Reject(v) => Err(DecodeErr(v as nat))
  }

  /** What `decode` returns: a length error below four symbols, a format
      error when framing fails, otherwise the run over the data symbols from
      the start symbology. The check symbol is not read. */
  function Decoding(code: seq<Byte>, reserved: Reserved): Result<string> {
    if |code| < 4 then Err(InvalidLength(|code|))
    else
      match Data(code)
      case None => Err(BadFormat)
      case Some(f) => Run(Initial(f.start), f.symbols, reserved)
  }

  /** `Decode::decode`: the state machine loop, extending `decoded` and
      reassigning `state`, leaving the loop at a stop and returning at the
      first unexpected symbol. */
  method Decode(code: seq<Byte>, reserved: Reserved) returns (r: Result<string>)
    ensures r == Decoding(code, reserved)
  {
    if |code| < 4 {
      return Err(InvalidLength(|code|));
    }
    var decoded: string := "";
    var frame := Data(code);
    if frame.None? {
      return Err(BadFormat);
    }
    var symbols := frame.value.symbols;
    var state := Initial(frame.value.start);
    ghost var start := state;
    var i := 0;
    PrependEmpty(Run(start, symbols, reserved));
    while i < |symbols|
      invariant i <= |symbols|
      invariant Run(start, symbols, reserved) == Prepend(decoded, Run(state, symbols[i..], reserved))
    {
      var e := symbols[i];
      assert symbols[i..][1..] == symbols[i + 1..];
      ghost var action := Step(state, e, reserved);
      assert symbols[i..][0] == e;
      if action.Emit? {
        assert Run(state, symbols[i..], reserved) == Prepend(action.text, Run(action.next, symbols[i + 1..], reserved));
        PrependTwice(decoded, action.text, Run(action.next, symbols[i + 1..], reserved));
        assert decoded + "" == decoded;
      }
      match state {
      case StateA =>
        if e < 98 {
          decoded := decoded + Repr(e, A, reserved);
        } else if e == 100 {
          state := StateB;
        } else if e == 99 {
          state := StateC;
        } else if e == 98 {
          state := ShiftB;
        } else if e == 106 {
          assert decoded + "" == decoded;
          break;
        } else if e == 102 || e == 97 || e == 96 || e == 101 {
          state := StateA;
        } else {
          return Err(DecodeErr(e as nat));
        }
      case StateB =>
        if e < 98 {
          decoded := decoded + Repr(e, B, reserved);
        } else if e == 101 {
          state := StateB;
        } else if e == 99 {
          state := StateB;
        } else if e == 106 {
          assert decoded + "" == decoded;
          break;
        } else if e == 98 {
          state := ShiftA;
        } else if e == 102 || e == 97 || e == 96 || e == 100 {
          state := StateB;
        } else {
          return Err(DecodeErr(e as nat));
        }
      case StateC =>
        if e < 100 {
          decoded := decoded + Repr(e, C, reserved);
        } else if e == 100 {
          state := StateB;
        } else if e == 101 {
          state := StateA;
        } else if e == 106 {
          assert decoded + "" == decoded;
          break;
        } else if e == 102 {
          state := StateC;
        } else {
          return Err(DecodeErr(e as nat));
        }
      case ShiftA =>
        if e < 98 {
          decoded := decoded + Repr(e, A, reserved);
          state := StateB;
        } else {
          return Err(DecodeErr(e as nat));
        }
      case ShiftB =>
        if e < 98 {
          decoded := decoded + Repr(e, B, reserved);
          state := StateA;
        } else {
          return Err(DecodeErr(e as nat));
        }
      }
      i := i + 1;
    }
    assert decoded + "" == decoded;
    return Ok(decoded);
  }
}
