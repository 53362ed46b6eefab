/** The test vectors of src/code128.rs, checked against the legacy check
    value and the legacy decoder. */
module LegacyVectors {
  import opened Encodings
  import opened Legacy
  import opened LegacyProperties
  import Code128Vectors

  /** A run over a concatenation whose first part leaves the decoder
      pushing text. */
  lemma LegacyRunSplit(s: Symbology, xs: seq<LegacyPattern>, ys: seq<LegacyPattern>, whole: seq<LegacyPattern>, t: string, mid: Symbology, r: string, text: string)
    requires whole == xs + ys && text == t + r
    requires LegacyFeed(s, xs) == Pushing(t, mid)
    requires LegacyRun(mid, ys) == Decoded(r)
    ensures LegacyRun(s, whole) == Decoded(text)
  {
    LegacyRunAppend(s, xs, ys);
  }

  /** The first vector of `checksum_works` and `to_string_conversion`:
      "PJJ123C" in A with check pattern C54. */
  lemma PjjLegacyVector()
    ensures LegacyCheckValue(Code128(A, [48, 42, 42, 17, 18, 19, 35], 54)) == 54
    ensures LegacyRun(A, [48, 42, 42, 17, 18, 19, 35]) == Decoded("PJJ123C")
  {
    PjjLegacyBytes();
    Code128Vectors.PjjCheckValue();
    LegacyRunPjj();
  }

  lemma PjjLegacyBytes()
    ensures LegacyBytes([48, 42, 42, 17, 18, 19, 35]) == [48, 42, 42, 17, 18, 19, 35]
  {
  }

  lemma LegacyRunPjj()
    ensures LegacyRun(A, [48, 42, 42, 17, 18, 19, 35]) == Decoded("PJJ123C")
  {
    LegacyFeedPjjAt0();
    LegacyRunPjjFrom4();
    LegacyRunSplit(A, [48, 42, 42, 17], [18, 19, 35], [48, 42, 42, 17, 18, 19, 35], "PJJ1", A, "23C", "PJJ123C");
  }

  lemma LegacyFeedPjjAt0()
    ensures LegacyFeed(A, [48, 42, 42, 17]) == Pushing("PJJ1", A)
  {
    assert "P" + ("J" + ("J" + ("1" + ""))) == "PJJ1";
  }

  lemma LegacyRunPjjFrom4()
    ensures LegacyRun(A, [18, 19, 35]) == Decoded("23C")
  {
    assert "2" + ("3" + ("C" + "")) == "23C";
  }

  /** The second vector: "42184020500" in C after FNC 1, with a switch to
      A for the last digit, check pattern C92. */
  lemma CountryCodeLegacyVector()
    ensures LegacyCheckValue(Code128(C, [102, 42, 18, 40, 20, 50, 101, 16], 92)) == 92
    ensures LegacyRun(C, [102, 42, 18, 40, 20, 50, 101, 16]) == Decoded("42184020500")
  {
    CountryCodeLegacyBytes();
    Code128Vectors.CountryCodeCheckValue();
    LegacyRunCountryCode();
  }

  lemma CountryCodeLegacyBytes()
    ensures LegacyBytes([102, 42, 18, 40, 20, 50, 101, 16]) == [102, 42, 18, 40, 20, 50, 101, 16]
  {
  }

  lemma LegacyRunCountryCode()
    ensures LegacyRun(C, [102, 42, 18, 40, 20, 50, 101, 16]) == Decoded("42184020500")
  {
    LegacyFeedCountryCodeAt0();
    LegacyRunCountryCodeFrom4();
    LegacyRunSplit(C, [102, 42, 18, 40], [20, 50, 101, 16], [102, 42, 18, 40, 20, 50, 101, 16], "421840", C, "20500", "42184020500");
  }

  lemma LegacyFeedCountryCodeAt0()
    ensures LegacyFeed(C, [102, 42, 18, 40]) == Pushing("421840", C)
  {
    assert "" + ("42" + ("18" + ("40" + ""))) == "421840";
  }

  lemma LegacyRunCountryCodeFrom4()
    ensures LegacyRun(C, [20, 50, 101, 16]) == Decoded("20500")
  {
    assert "20" + ("50" + ("" + ("0" + ""))) == "20500";
  }

  /** The third decoding vector: "Hello World" in B. */
  lemma HelloLegacyVector()
    ensures LegacyRun(B, [40, 69, 76, 76, 79, 0, 55, 79, 82, 76, 68]) == Decoded("Hello World")
  {
    LegacyRunHello();
  }

  lemma LegacyRunHello()
    ensures LegacyRun(B, [40, 69, 76, 76, 79, 0, 55, 79, 82, 76, 68]) == Decoded("Hello World")
  {
    LegacyFeedHelloAt0();
    LegacyRunHelloFrom4();
    LegacyRunSplit(B, [40, 69, 76, 76], [79, 0, 55, 79, 82, 76, 68], [40, 69, 76, 76, 79, 0, 55, 79, 82, 76, 68], "Hell", B, "o World", "Hello World");
  }

  lemma LegacyFeedHelloAt0()
    ensures LegacyFeed(B, [40, 69, 76, 76]) == Pushing("Hell", B)
  {
    assert "H" + ("e" + ("l" + ("l" + ""))) == "Hell";
  }

  lemma LegacyRunHelloFrom4()
    ensures LegacyRun(B, [79, 0, 55, 79, 82, 76, 68]) == Decoded("o World")
  {
    LegacyFeedHelloAt4();
    LegacyRunHelloFrom8();
    LegacyRunSplit(B, [79, 0, 55, 79], [82, 76, 68], [79, 0, 55, 79, 82, 76, 68], "o Wo", B, "rld", "o World");
  }

  lemma LegacyFeedHelloAt4()
    ensures LegacyFeed(B, [79, 0, 55, 79]) == Pushing("o Wo", B)
  {
    assert "o" + (" " + ("W" + ("o" + ""))) == "o Wo";
  }

  lemma LegacyRunHelloFrom8()
    ensures LegacyRun(B, [82, 76, 68]) == Decoded("rld")
  {
    assert "r" + ("l" + ("d" + "")) == "rld";
  }
}
