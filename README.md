# Code 128 codec of feather-code, in Dafny

feather-code decodes Code 128 barcodes (ISO/IEC 15417) from symbol values that have
already been read off the bars. A symbol value is a number from 0 to 106. This
project models the codec's three core files and proves properties of the model.

- **The symbol alphabet** (`src/barcode/code128/encodings.rs`).
  - The 107 patterns `C0`..`C106` and the conversions between them and `u8`.
  - The structural symbols of the two `Encoding` implementations: stop, start, switch,
    shift, FNC 1 to FNC 4.
  - The text a plain value stands for in symbologies A, B and C.
- **The generic codec** (`src/internals/code128/mod.rs`), instantiated with `u8`
  symbols:
  - framing a datum into start symbology, data symbols and check symbol
    (`Code128::data`);
  - the modulo-103 weighted checksum (`Format::checksum`);
  - the five-state decoder over states A, B, C, shift-to-A and shift-to-B
    (`Decode::decode`).
- **The legacy codec** (`src/code128.rs`):
  - its own pattern enum and `From<u8>`;
  - `calc_checksum` and `verify_checksum`;
  - the three-state `decode` with explicit character arithmetic.

The files:

- `format.dfy`: `Option`, `Result` and the codec's error variants.
- `encodings.dfy`: the alphabet (module `Encodings`).
- `checksum.dfy`: the symbol values, weighted sum and check value shared by both checksums (module
  `Mod103`).
- `code128.dfy`: the generic codec (module `Code128`):
  - `Data` and its framing function;
  - the `Checksum` and `Decode` methods with their loops;
  - the specification functions `ValidChecksum`, `Step`, `Run` and `Decoding`.
- `code128_properties.dfy`: properties of the generic codec.
- `vectors.dfy`: the generic codec's test vectors.
- `legacy.dfy`: the legacy codec (module `Legacy`). `CalcChecksum`, `VerifyChecksum`
  and `LegacyDecode` are methods with loops, proved against `LegacyCheckValue` and
  `LegacyRun`.
- `legacy_properties.dfy`:
  - properties of the legacy codec;
  - its agreement with the generic decoder;
  - the decoder it would be if `C106` had the stop value.
- `legacy_vectors.dfy`: the legacy test vectors.

How the model reads the source:

- **`repr` values.** `Encoding::repr` is declared but implemented in no source file.
  - For plain values (0..95 in A and B, 0..99 in C), `Repr` is the legacy decoder's
    arithmetic, which agrees with the doc table in `src/internals/code128/mod.rs`.
  - The generic decoder also hands FNC 3 (96) and FNC 2 (97) to `repr` in A and B. What
    comes back there is unknown, so the model takes those four texts as a `Reserved`
    parameter. Every decoder property holds for every choice of it, except
    `Code128Properties.RunIsAscii` and `Code128Properties.DecodedIsAscii`, which
    assume the four texts are ASCII (`AsciiReserved`).
- **Decoder as written.** The generic decoder is modelled as written, not as its
  comments say:
  - in state B, 99 and 101 keep the state B;
  - in A and B the first arm, `n < 98`, catches 96 and 97 before the no-op arm.

  `Code128.CorrectedStep` is the transition the comments describe. It sits next to the
  as-written `Step`, and the two are compared under "Findings".
- **Legacy enum values.** The legacy enum declares `C106` straight after `C102` without
  an explicit discriminant.
  - So `C106 as u8` is 103, and its `106 => break` arms can never fire.
  - The model keeps that value, and keeps those arms.
  - The legacy `unimplemented!()` calls are the `Unimplemented` outcome.

## Model

| member | source | states |
|---|---|---|
| Encodings.PlainText | src/code128.rs:418-465 | text of a plain value: one character in A (below code 96) and B (codes 32..127), two decimal digits in C |
| Encodings.PatternFrom | src/barcode/code128/encodings.rs:137-159 | no contract; the jump table: 0..105 to the pattern of that value, everything else to `C106` (stated by `Encodings.ByteRoundTrip`) |
| Encodings.PatternAsU8 | src/barcode/code128/encodings.rs:161-167 | no contract; the discriminant cast (stated by `Encodings.PatternRoundTrip`) |
| Encodings.Repr | src/internals/code128/mod.rs:150 | no contract; the `repr` that the decoder calls at mod.rs:383, 394, 405, 415 and 421: the doc-table text of a plain value, and a caller-chosen text for FNC 3 and FNC 2 in A and B, where no `repr` is written |
| Encodings.ByteRoundTrip | src/barcode/code128/encodings.rs:137-167 | `Pattern::from(u).as_u8() == u` exactly when u <= 106; above 106 the result is 106 |
| Encodings.ByteRoundTripFailsAt107 | src/barcode/code128/encodings.rs:271-276 | the quickcheck's round trip for every `u8` fails at 107 |
| Encodings.PatternRoundTrip | src/barcode/code128/encodings.rs:121-167 | `Pattern::from(p.as_u8()) == p` for every pattern |
| Encodings.PatternOrderIsNumeric | src/barcode/code128/encodings.rs:120-134 | the derived order and equality of patterns are those of their `u8` values |
| Encodings.StructuralConstants | src/barcode/code128/encodings.rs:219-252 | stop 106, shift 98, FNC 1/2/3 = 102/97/96, start A/B/C = 103/104/105, switch A/B/C = 101/100/99 |
| Encodings.Fnc4AliasesSwitch | src/barcode/code128/encodings.rs:205-261 | FNC 4 is the symbology's own switch code in A and B and absent in C, in both implementations |
| Encodings.StartIsDiscriminant | src/internals/code128/mod.rs:21-28 | a symbology's start code equals its discriminant, the value the checksum adds |
| Encodings.EncodingImplsAgree | src/barcode/code128/encodings.rs:170-267 | the `Pattern` and `u8` implementations agree on every structural symbol; `u8::as_u8` is the identity |
| Encodings.DocTableColumnA | src/internals/code128/mod.rs:37-132 | each of the 96 plain cells of the doc table's A column, written out as a literal |
| Encodings.DocTableColumnB | src/internals/code128/mod.rs:37-132 | each of the 96 plain cells of the doc table's B column, written out as a literal |
| Encodings.DocTableColumnCLow | src/internals/code128/mod.rs:37-86 | each of the plain cells 0 to 49 of the doc table's C column, written out as a literal |
| Encodings.DocTableColumnCHigh | src/internals/code128/mod.rs:87-136 | each of the plain cells 50 to 99 of the doc table's C column, written out as a literal |
| Encodings.SymbolForPlainText | src/internals/code128/mod.rs:35-143 | reading a plain value's text back through the table gives the value |
| Encodings.PlainTextOfSymbolFor | src/internals/code128/mod.rs:35-143 | every text the reverse table accepts is the text of the value it gives |
| Encodings.PlainTextInjective | src/internals/code128/mod.rs:35-143 | distinct plain values of one symbology have distinct texts |
| Mod103.Values | src/internals/code128/mod.rs:327-329 | one numeric value per symbol, equal to its `as_u8` |
| Mod103.CheckValue | src/internals/code128/mod.rs:324-336 | the check value is below 103 |
| Mod103.WeightedSumPrefixStep | src/internals/code128/mod.rs:326-332 | one step of the fold with a running position extends the weighted sum to one more prefix |
| Mod103.SubstitutionUndetectedIff | src/internals/code128/mod.rs:324-336 | replacing value i by y keeps the check value exactly when (i+1)(y - s[i]) is a multiple of 103 |
| Mod103.NoDivisor | src/internals/code128/mod.rs:336 | the modulus 103 is prime: no value from 2 to 102 divides it |
| Mod103.NoZeroDivisor | src/internals/code128/mod.rs:336 | a product of two values from 1 to 102 is never a multiple of 103 |
| Mod103.SubstitutionDetected | src/internals/code128/mod.rs:324-336 | changing any one data value to another value below 103 changes the check value whenever the position's weight i+1 is not a multiple of 103 |
| Mod103.SubstitutionAtWeight103Undetected | src/internals/code128/mod.rs:324-336 | a substitution at a position whose weight is a multiple of 103 (the 103rd, 206th, ... data symbol) never changes the check value |
| Code128.Data | src/internals/code128/mod.rs:281-301 | a frame exists exactly when there are at least 3 symbols, the last is the stop and the first a start code; the input is then start ++ data ++ [check, stop] |
| Code128.Checksum | src/internals/code128/mod.rs:316-337 | the fold with a position counter returns exactly `ValidChecksum`: framed, and check symbol == (start + weighted sum) mod 103 |
| Code128.Step | src/internals/code128/mod.rs:380-425 | no contract; the arms of the five-state match, in source order (stated by the `Code128Properties` step lemmas) |
| Code128.CorrectedStep | src/internals/code128/mod.rs:395-396 | no contract; `Step` with 101 in B switching to A and 99 in B switching to C, as the comments on those arms say |
| Code128.Decode | src/internals/code128/mod.rs:357-428 | the state-machine loop returns exactly `Decoding`: InvalidLength below 4, BadFormat when unframed, else the run of the data symbols from the start state |
| Code128Properties.NoFrameBelowThree | src/internals/code128/mod.rs:281-293 | fewer than three symbols never frame |
| Code128Properties.ThreeSymbolsFrame | src/internals/code128/mod.rs:495-505 | `[103, x, 106]` frames as (A, [], x), against the length-below-4 quickcheck |
| Code128Properties.FrameRoundTrip | src/internals/code128/mod.rs:281-301 | framing recovers the symbology, data and check that were put together |
| Code128Properties.FramingVectors | src/internals/code128/mod.rs:468-493 | the four `split_data` vectors |
| Code128Properties.UnframedChecksumFails | src/internals/code128/mod.rs:319-322 | no frame means the checksum is false |
| Code128Properties.ChecksumOfFrame | src/internals/code128/mod.rs:316-337 | a framed datum passes exactly when its check symbol is the check value of its start and data |
| Code128Properties.ValidCheckBelow103 | src/internals/code128/mod.rs:333-336 | a passing datum frames and its check symbol is below 103 |
| Code128Properties.ChecksumAcceptsEmptyData | src/internals/code128/mod.rs:316-337 | there is no length guard: `[103, 0, 106]` passes |
| Code128Properties.DecodeShort | src/internals/code128/mod.rs:361 | fewer than four symbols is InvalidLength carrying the length |
| Code128Properties.DecodeUnframed | src/internals/code128/mod.rs:365-368 | four or more symbols without a frame is BadFormat |
| Code128Properties.EmptyDataRejected | src/internals/code128/mod.rs:361-368 | a three-symbol datum frames but decodes to InvalidLength(3) |
| Code128Properties.DecodeIgnoresCheck | src/internals/code128/mod.rs:365 | replacing the check symbol never changes the decoding |
| Code128Properties.PlainSymbolAppends | src/internals/code128/mod.rs:381-405 | below 98 in A/B and below 100 in C, a value appends its `repr` and keeps the state |
| Code128Properties.FunctionCodesAreNoOps | src/internals/code128/mod.rs:388-409 | 102 in every settled state, 101 in A and 100 in B are consumed without output |
| Code128Properties.SwitchCodes | src/internals/code128/mod.rs:384-407 | A: 100 to B, 99 to C; C: 100 to B, 101 to A |
| Code128Properties.StateBKeepsStateOnSwitchCodes | src/internals/code128/mod.rs:395-396 | as written, 99 and 101 in B keep the state B |
| Code128Properties.ShiftReadsOneSymbol | src/internals/code128/mod.rs:413-424 | 98 in A or B reads the next value in the other symbology and returns, or fails if it is 98 or more |
| Code128Properties.StopEndsDecoding | src/internals/code128/mod.rs:387-408 | 106 ends decoding in A, B and C, whatever follows |
| Code128Properties.UnexpectedSymbolsRejected | src/internals/code128/mod.rs:389-422 | start codes and values above 106 are DecodeErr in the settled states; a shift state rejects any value of 98 or more |
| Code128Properties.RunAppend | src/internals/code128/mod.rs:379-426 | decoding a concatenation is decoding the first part and resuming where it left the machine |
| Code128Properties.Fnc1InsertionIsInvisible | src/internals/code128/mod.rs:388-409 | an FNC 1 inserted where the machine is in a settled state changes nothing |
| Code128Properties.AfterStopIgnored | src/internals/code128/mod.rs:387-408 | after a stop in a settled state, the result is the text so far and what follows is ignored |
| Code128Properties.RunIsAscii | src/internals/code128/mod.rs:379-426 | decoded text is ASCII when the reserved texts are |
| Code128Properties.DecodedIsAscii | src/internals/code128/mod.rs:357-428 | the same for a whole datum |
| Code128Properties.SymbolsFor | src/internals/code128/mod.rs:35-143 | the symbols that spell a text are plain values of the symbology |
| Code128Properties.RunSpelledText | src/internals/code128/mod.rs:379-426 | decoding the symbols that spell a text in its symbology gives the text back |
| Code128Properties.DecodeSpelledText | src/internals/code128/mod.rs:357-428 | a non-empty spelled text, framed with any check symbol, decodes to itself |
| Code128Vectors.PjjVector | src/internals/code128/mod.rs:440-453 | the "PJJ123C" datum passes the checksum and decodes to "PJJ123C" |
| Code128Vectors.CountryCodeVector | src/internals/code128/mod.rs:442-457 | the country-code datum passes and decodes to "42184020500" |
| Code128Vectors.HelloVector | src/internals/code128/mod.rs:459-461 | the B datum passes (check 43) and decodes to "Hello World" |
| Code128Vectors.ShiftVector | src/internals/code128/mod.rs:463-465 | the shift datum passes (check 34) and decodes to "SHiFT!" |
| Code128Vectors.StateBSwitchVector | src/internals/code128/mod.rs:392-402 | `[104, 33, 99, 12, 62, 106]` passes and decodes to "A,", whereas from C the 12 would read "12" |
| Code128.CorrectedRun | src/internals/code128/mod.rs:379-426 | no contract; `Run` with `CorrectedStep` in place of `Step` |
| Code128Properties.CorrectedSwitchCodesInB | src/internals/code128/mod.rs:395-396 | with the corrected arms, 99 in B continues in C and 101 in B continues in A, with no text |
| Code128Properties.CorrectedRunAgreesWithout99And101 | src/internals/code128/mod.rs:379-426 | data with neither 99 nor 101 decodes alike with and without the correction |
| Code128Vectors.CorrectedStateBSwitchVector | src/internals/code128/mod.rs:392-402 | with the corrected arms, `[33, 99, 12]` from B decodes to "A12" |
| Legacy.CalcChecksum | src/code128.rs:384-402 | the fold returns the check value (start + weighted sum) mod 103, never `C106` |
| Legacy.VerifyChecksum | src/code128.rs:379-381 | true exactly when the stored checksum is the check value |
| Legacy.LegacyDecode | src/code128.rs:405-476 | the loop returns exactly `LegacyRun` of the start symbology and the symbols |
| Legacy.LegacyFrom | src/code128.rs:226-335 | no contract; 0..102 to the pattern of that value, everything else to `C106` (stated by `LegacyProperties.LegacyByteRoundTrip`) |
| Legacy.LegacyStep | src/code128.rs:417-473 | no contract; the arms of the three-state match, in source order (stated by the `LegacyProperties` step lemmas) |
| LegacyProperties.LegacyPatternRoundTrip | src/code128.rs:226-335 | every legacy pattern survives `as u8` then `From` |
| LegacyProperties.LegacyByteRoundTrip | src/code128.rs:226-335 | a `u8` survives `From` then `as u8` exactly up to 103; from 103 on it becomes `C106` |
| LegacyProperties.C106IsNotStop | src/code128.rs:222-223 | `C106` is the only pattern with value 103; no pattern has the value 106 |
| LegacyProperties.StopArmUnreachable | src/code128.rs:430-470 | no legacy pattern takes a `106 => break` arm |
| LegacyProperties.C106Unimplemented | src/code128.rs:430-470 | a `C106` in the data ends in `unimplemented!()` with 103 in every symbology |
| LegacyProperties.LegacyPlainSymbol | src/code128.rs:420-465 | a plain value appends its text and keeps the symbology |
| LegacyProperties.LegacyFunctionCodes | src/code128.rs:430-468 | 96, 97, 101 and 102 in A; 96, 97, 100 and 102 in B; 102 in C are consumed without text |
| LegacyProperties.LegacySwitchCodes | src/code128.rs:430-468 | A: 99 to C, 100 to B; B: 99 to C, 101 to A; C: 100 to B, 101 to A |
| LegacyProperties.LegacyShiftUnimplemented | src/code128.rs:431-446 | 98 in A or B ends in `unimplemented!()` |
| LegacyProperties.LegacyRunAppend | src/code128.rs:410-474 | decoding a concatenation is decoding the first part and resuming where it left off |
| LegacyProperties.LegacyRunIsAscii | src/code128.rs:420-465 | every decoded character is below 128 |
| LegacyProperties.LegacyFailures | src/code128.rs:430-470 | `unimplemented!()` is reached only on 98 or 103, and only on a value in the data |
| LegacyProperties.LegacyDecodesWithoutShiftOrC106 | src/code128.rs:405-476 | data with neither 98 nor `C106` always decodes to text |
| LegacyProperties.CorrectedStepAgreesWithLegacy | src/internals/code128/mod.rs:380-412 | the corrected generic step equals the legacy step in A, B and C, except on 96, 97 and 98 in A and B |
| LegacyProperties.StepDisagreesWithLegacyInB | src/internals/code128/mod.rs:395-396 | the as-written generic step differs from the legacy one on 99 and 101 in B |
| LegacyProperties.IntendedAsU8 | src/code128.rs:222-223 | with the stop value for `C106`, every pattern is 0..102 or 106, and 106 is `C106` exactly |
| LegacyProperties.IntendedStopEndsDecoding | src/code128.rs:434-469 | with the stop value, `C106` ends decoding with no text in every symbology |
| LegacyProperties.IntendedFailsOnlyOnShift | src/code128.rs:405-476 | with the stop value, only the shift reaches `unimplemented!()` |
| LegacyProperties.IntendedAgreesWithoutC106 | src/code128.rs:405-476 | without `C106` in the data, both readings decode alike |
| LegacyVectors.PjjLegacyVector | src/code128.rs:488-519 | check value 54 and decoding "PJJ123C" |
| LegacyVectors.CountryCodeLegacyVector | src/code128.rs:497-527 | check value 92 and decoding "42184020500" |
| LegacyVectors.HelloLegacyVector | src/code128.rs:529-535 | decoding "Hello World" |

## Left out

- **`Pattern` instantiation.** The generic algorithms are modelled for `u8` symbols
  only. For `Pattern`, `as_u8` and `From` are a bijection on 0..106
  (`Encodings.PatternRoundTrip`), and every structural symbol agrees
  (`Encodings.EncodingImplsAgree`). The `Pattern` run equals the `u8` run of the
  values only under an assumption the source cannot settle: that `Pattern::repr` and
  `u8::repr` give the same text for the same value. Neither is implemented; the
  `Pattern` implementation in `src/barcode/code128/encodings.rs` has no `repr`.
- **`Checksum` and `CalcChecksum` overflow.** Neither models the `u64` overflow of the
  sum: sums are unbounded. The source's `u64` sum passes 2^64 at about 3.8·10^8
  symbols of value 255 in the generic checksum. With `Pattern` values (at most 106) it
  passes at about 5.9·10^8 symbols, and with the legacy maximum 103 at about 6·10^8. Beyond that, Rust panics in a debug build and wraps in
  a release build. The model agrees with the source only for shorter slices.
- **`Repr` precondition.** It requires a value the decoder would pass: below 98 in A
  and B, below 100 in C. For FNC 3 and FNC 2 in A and B it returns the `Reserved`
  texts, because no source file implements `repr`.
- **Error messages.** The `format!` strings of `BadFormat` and `DecodeErr` are left
  out. The model keeps the variant and, for `DecodeErr`, the offending value.
- **Legacy panics.** `unimplemented!()` in the legacy decoder is the explicit outcome
  `Unimplemented(value)`, not an abort.
- **Reverse table.** `Encodings.SymbolFor` and `Code128Properties.SymbolsFor` are a
  reference inverse of the table. The source has no encoder (no `Encode`
  implementation), so the idempotence claim in `src/barcode/format.rs` has nothing to
  check.
- **Context files.** The trait declarations in `src/barcode/format.rs` and
  `src/internals/format.rs` carry no behaviour; only the error variants are kept.
  `src/lib.rs` is a module declaration. `benches/code128_decode.rs` is a timing
  harness.
- **HelloLegacyVector.** It states only the decoding, because the legacy
  `to_string_conversion` test asserts nothing about its checksum `C43`. The check
  value 43 of that datum is proved for the generic checksum in
  `Code128Vectors.HelloVector`.

## Findings

| source | as written | input that shows it | evidently intended | confidence | as-written member | corrected member |
|---|---|---|---|---|---|---|
| src/internals/code128/mod.rs:395-396 | in state B, 101 and 99 return state B | `[104, 33, 99, 12, 62, 106]` decodes to "A," | 101 switches to A and 99 to C, as the comments and the legacy decoder say: "A12" | not executed; high | Code128Vectors.StateBSwitchVector | Code128Vectors.CorrectedStateBSwitchVector |
| src/internals/code128/mod.rs:495-505 | the quickcheck claims every slice shorter than 4 has no frame | `[103, 0, 106]` frames as (A, [], 0) | no frame below 3 symbols; `decode` itself rejects fewer than 4 | not executed; high | Code128Properties.ThreeSymbolsFrame | Code128Properties.NoFrameBelowThree |
| src/barcode/code128/encodings.rs:271-276 | the quickcheck claims `Pattern::from(p).as_u8() == p` for every `u8` | 107 gives 106 | the round trip holds for 0..106 | not executed; high | Encodings.ByteRoundTripFailsAt107 | Encodings.ByteRoundTrip |
| src/code128.rs:222-223 | `C106` follows `C102` with no discriminant, so it has the value 103 | a `C106` among the symbols reaches `unimplemented!()` | `C106` has the stop value 106, so the `106 => break` arms end decoding | not executed; high | LegacyProperties.C106Unimplemented | LegacyProperties.IntendedStopEndsDecoding |
