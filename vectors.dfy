/** The test vectors of src/internals/code128/mod.rs, each checked against
    the checksum decision and the decoder, and one datum that shows what the
    state-B switch codes do. */
module Code128Vectors {
  import opened Format
  import opened Encodings
  import opened Mod103
  import opened Code128
  import opened Code128Properties

  /** A framed datum has a valid checksum when its check symbol is the
      check value, and decodes to the run of its data from the initial state
      of its symbology. */
  lemma FramedVector(s: Symbology, symbols: seq<Byte>, check: Byte, text: string, reserved: Reserved)
    requires symbols != []
    requires check as nat == CheckValue(Discriminant(s) as nat, Values(symbols))
    requires Run(Initial(s), symbols, reserved) == Ok(text)
    ensures ValidChecksum([ByteStart(s)] + symbols + [check, ByteStop()])
    ensures Decoding([ByteStart(s)] + symbols + [check, ByteStop()], reserved) == Ok(text)
  {
    ChecksumOfFrame(s, symbols, check);
    FrameRoundTrip(s, symbols, check);
  }

  /** A run over a concatenation whose first part leaves the decoder
      running. */
  lemma RunSplit(state: Parser, xs: seq<Byte>, ys: seq<Byte>, whole: seq<Byte>, t: string, mid: Parser, r: string, text: string, reserved: Reserved)
    requires whole == xs + ys && text == t + r
    requires Feed(state, xs, reserved) == Running(t, mid)
    requires Run(mid, ys, reserved) == Ok(r)
    ensures Run(state, whole, reserved) == Ok(text)
  {
    RunAppend(state, xs, ys, reserved);
  }

  /** The doc example and first test vector: "PJJ123C" in A. Check symbol 54. */
  lemma PjjVector(reserved: Reserved)
    ensures ValidChecksum([ByteStart(A)] + [48, 42, 42, 17, 18, 19, 35] + [54, ByteStop()])
    ensures Decoding([ByteStart(A)] + [48, 42, 42, 17, 18, 19, 35] + [54, ByteStop()], reserved) == Ok("PJJ123C")
  {
    PjjCheckValue();
    RunPjj(reserved);
    FramedVector(A, [48, 42, 42, 17, 18, 19, 35], 54, "PJJ123C", reserved);
  }

  lemma PjjCheckValue()
    ensures CheckValue(103, Values([48, 42, 42, 17, 18, 19, 35])) == 54
  {
    PjjValues();
    PjjWeightedSum();
    assert (103 + 775) % 103 == 54;
  }

  lemma PjjValues()
    ensures Values([48, 42, 42, 17, 18, 19, 35]) == [48, 42, 42, 17, 18, 19, 35]
  {
  }

  lemma PjjWeightedSum()
    ensures WeightedSum([48, 42, 42, 17, 18, 19, 35]) == 775
  {
  }

  lemma RunPjj(reserved: Reserved)
    ensures Run(StateA, [48, 42, 42, 17, 18, 19, 35], reserved) == Ok("PJJ123C")
  {
    FeedPjjAt0(reserved);
    RunPjjFrom4(reserved);
    RunSplit(StateA, [48, 42, 42, 17], [18, 19, 35], [48, 42, 42, 17, 18, 19, 35], "PJJ1", StateA, "23C", "PJJ123C", reserved);
  }

  lemma FeedPjjAt0(reserved: Reserved)
    ensures Feed(StateA, [48, 42, 42, 17], reserved) == Running("PJJ1", StateA)
  {
    assert "P" + ("J" + ("J" + ("1" + ""))) == "PJJ1";
  }

  lemma RunPjjFrom4(reserved: Reserved)
    ensures Run(StateA, [18, 19, 35], reserved) == Ok("23C")
  {
    assert "2" + ("3" + ("C" + "")) == "23C";
  }

  /** Digits in C after FNC 1, then a switch to A for the last digit. Check symbol 92. */
  lemma CountryCodeVector(reserved: Reserved)
    ensures ValidChecksum([ByteStart(C)] + [102, 42, 18, 40, 20, 50, 101, 16] + [92, ByteStop()])
    ensures Decoding([ByteStart(C)] + [102, 42, 18, 40, 20, 50, 101, 16] + [92, ByteStop()], reserved) == Ok("42184020500")
  {
    CountryCodeCheckValue();
    RunCountryCode(reserved);
    FramedVector(C, [102, 42, 18, 40, 20, 50, 101, 16], 92, "42184020500", reserved);
  }

  lemma CountryCodeCheckValue()
    ensures CheckValue(105, Values([102, 42, 18, 40, 20, 50, 101, 16])) == 92
  {
    CountryCodeValues();
    CountryCodeWeightedSum();
    assert (105 + 1635) % 103 == 92;
  }

  lemma CountryCodeValues()
    ensures Values([102, 42, 18, 40, 20, 50, 101, 16]) == [102, 42, 18, 40, 20, 50, 101, 16]
  {
  }

  lemma CountryCodeWeightedSum()
    ensures WeightedSum([102, 42, 18, 40, 20, 50, 101, 16]) == 1635
  {
  }

  lemma RunCountryCode(reserved: Reserved)
    ensures Run(StateC, [102, 42, 18, 40, 20, 50, 101, 16], reserved) == Ok("42184020500")
  {
    FeedCountryCodeAt0(reserved);
    RunCountryCodeFrom4(reserved);
    RunSplit(StateC, [102, 42, 18, 40], [20, 50, 101, 16], [102, 42, 18, 40, 20, 50, 101, 16], "421840", StateC, "20500", "42184020500", reserved);
  }

  lemma FeedCountryCodeAt0(reserved: Reserved)
    ensures Feed(StateC, [102, 42, 18, 40], reserved) == Running("421840", StateC)
  {
    assert "" + ("42" + ("18" + ("40" + ""))) == "421840";
  }

  lemma RunCountryCodeFrom4(reserved: Reserved)
    ensures Run(StateC, [20, 50, 101, 16], reserved) == Ok("20500")
  {
    assert "20" + ("50" + ("" + ("0" + ""))) == "20500";
  }

  /** "Hello World" in B. Check symbol 43. */
  lemma HelloVector(reserved: Reserved)
    ensures ValidChecksum([ByteStart(B)] + [40, 69, 76, 76, 79, 0, 55, 79, 82, 76, 68] + [43, ByteStop()])
    ensures Decoding([ByteStart(B)] + [40, 69, 76, 76, 79, 0, 55, 79, 82, 76, 68] + [43, ByteStop()], reserved) == Ok("Hello World")
  {
    HelloCheckValue();
    RunHello(reserved);
    FramedVector(B, [40, 69, 76, 76, 79, 0, 55, 79, 82, 76, 68], 43, "Hello World", reserved);
  }

  lemma HelloCheckValue()
    ensures CheckValue(104, Values([40, 69, 76, 76, 79, 0, 55, 79, 82, 76, 68])) == 43
  {
    HelloValues();
    HelloWeightedSum();
    assert (104 + 4368) % 103 == 43;
  }

  lemma HelloValues()
    ensures Values([40, 69, 76, 76, 79, 0, 55, 79, 82, 76, 68]) == [40, 69, 76, 76, 79, 0, 55, 79, 82, 76, 68]
  {
  }

  lemma HelloWeightedSum()
    ensures WeightedSum([40, 69, 76, 76, 79, 0, 55, 79, 82, 76, 68]) == 4368
  {
  }

  lemma RunHello(reserved: Reserved)
    ensures Run(StateB, [40, 69, 76, 76, 79, 0, 55, 79, 82, 76, 68], reserved) == Ok("Hello World")
  {
    FeedHelloAt0(reserved);
    RunHelloFrom4(reserved);
    RunSplit(StateB, [40, 69, 76, 76], [79, 0, 55, 79, 82, 76, 68], [40, 69, 76, 76, 79, 0, 55, 79, 82, 76, 68], "Hell", StateB, "o World", "Hello World", reserved);
  }

  lemma FeedHelloAt0(reserved: Reserved)
    ensures Feed(StateB, [40, 69, 76, 76], reserved) == Running("Hell", StateB)
  {
    assert "H" + ("e" + ("l" + ("l" + ""))) == "Hell";
  }

  lemma RunHelloFrom4(reserved: Reserved)
    ensures Run(StateB, [79, 0, 55, 79, 82, 76, 68], reserved) == Ok("o World")
  {
    FeedHelloAt4(reserved);
    RunHelloFrom8(reserved);
    RunSplit(StateB, [79, 0, 55, 79], [82, 76, 68], [79, 0, 55, 79, 82, 76, 68], "o Wo", StateB, "rld", "o World", reserved);
  }

  lemma FeedHelloAt4(reserved: Reserved)
    ensures Feed(StateB, [79, 0, 55, 79], reserved) == Running("o Wo", StateB)
  {
    assert "o" + (" " + ("W" + ("o" + ""))) == "o Wo";
  }

  lemma RunHelloFrom8(reserved: Reserved)
    ensures Run(StateB, [82, 76, 68], reserved) == Ok("rld")
  {
    assert "r" + ("l" + ("d" + "")) == "rld";
  }

  /** Shifts in both directions and a switch to B. Check symbol 34. */
  lemma ShiftVector(reserved: Reserved)
    ensures ValidChecksum([ByteStart(A)] + [51, 40, 98, 73, 38, 52, 100, 98, 1] + [34, ByteStop()])
    ensures Decoding([ByteStart(A)] + [51, 40, 98, 73, 38, 52, 100, 98, 1] + [34, ByteStop()], reserved) == Ok("SHiFT!")
  {
    ShiftCheckValue();
    RunShift(reserved);
    FramedVector(A, [51, 40, 98, 73, 38, 52, 100, 98, 1], 34, "SHiFT!", reserved);
  }

  lemma ShiftCheckValue()
    ensures CheckValue(103, Values([51, 40, 98, 73, 38, 52, 100, 98, 1])) == 34
  {
    ShiftValues();
    ShiftWeightedSum();
    assert (103 + 2712) % 103 == 34;
  }

  lemma ShiftValues()
    ensures Values([51, 40, 98, 73, 38, 52, 100, 98, 1]) == [51, 40, 98, 73, 38, 52, 100, 98, 1]
  {
  }

  lemma ShiftWeightedSum()
    ensures WeightedSum([51, 40, 98, 73, 38, 52, 100, 98, 1]) == 2712
  {
  }

  lemma RunShift(reserved: Reserved)
    ensures Run(StateA, [51, 40, 98, 73, 38, 52, 100, 98, 1], reserved) == Ok("SHiFT!")
  {
    FeedShiftAt0(reserved);
    RunShiftFrom4(reserved);
    RunSplit(StateA, [51, 40, 98, 73], [38, 52, 100, 98, 1], [51, 40, 98, 73, 38, 52, 100, 98, 1], "SHi", StateA, "FT!", "SHiFT!", reserved);
  }

  lemma FeedShiftAt0(reserved: Reserved)
    ensures Feed(StateA, [51, 40, 98, 73], reserved) == Running("SHi", StateA)
  {
    assert "S" + ("H" + ("" + ("i" + ""))) == "SHi";
  }

  lemma RunShiftFrom4(reserved: Reserved)
    ensures Run(StateA, [38, 52, 100, 98, 1], reserved) == Ok("FT!")
  {
    FeedShiftAt4(reserved);
    RunShiftFrom8(reserved);
    RunSplit(StateA, [38, 52, 100, 98], [1], [38, 52, 100, 98, 1], "FT", ShiftA, "!", "FT!", reserved);
  }

  lemma FeedShiftAt4(reserved: Reserved)
    ensures Feed(StateA, [38, 52, 100, 98], reserved) == Running("FT", ShiftA)
  {
    assert "F" + ("T" + ("" + ("" + ""))) == "FT";
  }

  lemma RunShiftFrom8(reserved: Reserved)
    ensures Run(ShiftA, [1], reserved) == Ok("!")
  {
    assert "!" + "" == "!";
  }

  /** A datum whose code 99 in B is meant as a switch to C, which would make
      the 12 after it read "12"; as written 99 keeps B and 12 reads ",". */
  lemma StateBSwitchVector(reserved: Reserved)
    ensures ValidChecksum([ByteStart(B)] + [33, 99, 12] + [62, ByteStop()])
    ensures Decoding([ByteStart(B)] + [33, 99, 12] + [62, ByteStop()], reserved) == Ok("A,")
    ensures Run(StateC, [12], reserved) == Ok("12")
  {
    StateBSwitchCheckValue();
    assert Run(StateB, [33, 99, 12], reserved) == Ok("A" + ("" + ("," + "")));
    assert "A" + ("" + ("," + "")) == "A,";
    FramedVector(B, [33, 99, 12], 62, "A,", reserved);
    assert "12" + "" == "12";
  }

  lemma StateBSwitchCheckValue()
    ensures CheckValue(104, Values([33, 99, 12])) == 62
  {
    assert Values([33, 99, 12]) == [33, 99, 12];
    assert WeightedSum([33, 99, 12]) == 267;
  }

  /** The same data with the state-B switch codes read as their comments
      say: 99 switches to C and 12 reads "12". */
  lemma CorrectedStateBSwitchVector(reserved: Reserved)
    ensures CorrectedRun(StateB, [33, 99, 12], reserved) == Ok("A12")
  {
    assert CorrectedRun(StateB, [33, 99, 12], reserved) == Ok("A" + ("" + ("12" + "")));
    assert "A" + ("" + ("12" + "")) == "A12";
  }
}
