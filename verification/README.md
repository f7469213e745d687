# Request decoder of the TinyML sine sketch, in Dafny

The sketch's `loop()` (src/main.cpp) reads one line from the serial port and
decides whether it is a valid request. The line is trimmed and split on
commas with `strtok`. At most seven tokens are converted with `atoi`. The
count is checked, and then each of the seven values is checked against the
signed 8-bit range `[-128, 127]`. The outcome is one of three: a count error,
a range error, or the seven numbers in line order. The sketch also measures
two durations as differences of 32-bit `micros()` readings.

This project models these parts:

- `CType`: the `isspace` and `isdigit` classes of the "C" locale, and the
  leading white-space skip that `atoi` and `trim()` share.
- `ArduinoString`: `String::trim()`.
- `CString`: `strtok` with the delimiter `","`, as in section 7.24.5.8 of
  ISO C11. A run of delimiters yields no empty token. `Tokens` is the list of
  successive `strtok` results. Its reference definition is the non-empty
  fields of a split that keeps empty fields.
- `CStdlib`: `atoi`, as in section 7.22.1.2 of ISO C11, with the base-10
  prefix rules of section 7.22.1.4. It has a decimal renderer `Show` that
  `atoi` inverts.
- `LineDecoder`: the decoder itself. `Decode` is the functional model.
  `DecodeLine`, `ReadValues` and `FirstOutOfRange` follow the statements and
  the two loops of the sketch and are proved to agree with `Decode`.
- `RequestSamples`: worked request lines, derived from the general lemmas.
- `Timing`: the unsigned 32-bit elapsed-time subtraction.

The sketch's prompt (src/main.cpp:75) asks for 7 comma-separated integers,
and its count error (line 98) reads "Enter 7 integers.". Yet the token loop
reads at most seven tokens and never looks at the rest, so a line with eight
or more numbers is accepted using its first seven. The model follows the code
(`ExtraTokensIgnored`).

## Model

| member | source | states |
|---|---|---|
| CType.SkipSpace | src/main.cpp:92 | Skips exactly the leading `isspace` run: every dropped character is white space and what remains does not start with white space |
| CType.SkipSpaceSuffix | src/main.cpp:92 | What the skip leaves is a suffix of the input |
| CType.SkipSpacePadded | src/main.cpp:92 | White space followed by text that does not start with white space is skipped exactly |
| ArduinoString.DropTrailingSpace | src/main.cpp:86 | Drops the maximal white-space suffix: the result is a prefix of the input, only white space was dropped, and the result does not end in white space |
| ArduinoString.Trim | src/main.cpp:86 | The trimmed line is no longer than the input and neither starts nor ends with white space |
| ArduinoString.TrimSlice | src/main.cpp:86 | The trimmed line is the contiguous slice of the input between an all-white-space prefix and an all-white-space suffix |
| ArduinoString.TrimPadded | src/main.cpp:86 | Padding a core with no white space at its ends gives back exactly that core when trimmed |
| ArduinoString.TrimIdempotent | src/main.cpp:86 | Trimming a trimmed line changes nothing |
| ArduinoString.TrimOfPadded | src/main.cpp:86 | White space added around any line is removed along with the line's own |
| CString.SpanLength | src/main.cpp:90 | The token length `strtok` finds: a delimiter-free prefix that ends at a delimiter or at the end of the text |
| CString.StrTok | src/main.cpp:90 | Returns no token iff the remaining text is all delimiters; a token is non-empty and delimiter-free, and the remaining text shrinks |
| CString.Tokens | src/main.cpp:90-94 | Every token of the successive `strtok` calls is non-empty and holds no comma |
| CString.TokensStep | src/main.cpp:93 | Each `strtok(nullptr, ",")` call continues with the next token: the tokens are the first token followed by the tokens of the rest |
| CString.TokensAreNonEmptyFields | src/main.cpp:90-94 | The tokens are exactly the non-empty comma-separated fields, in order |
| CString.FieldsJoin | src/main.cpp:90-94 | Splitting delimiter-free fields joined by commas gives back those fields |
| CString.JoinFields | src/main.cpp:90-94 | Joining the fields of a text with commas gives back the text |
| CString.FieldsAppend | src/main.cpp:90-94 | The fields of two texts joined by a comma are the fields of the first followed by those of the second |
| CString.TokensAppend | src/main.cpp:90-94 | Tokens of two texts joined by a comma are the tokens of the first followed by those of the second |
| CString.EmptyFieldVanishes | src/main.cpp:90-94 | Two consecutive commas give the same tokens as one |
| CString.LeadingDelimVanishes | src/main.cpp:90-94 | A leading comma yields no token |
| CString.TrailingDelimVanishes | src/main.cpp:90-94 | A trailing comma yields no token |
| CString.TokensOfJoin | src/main.cpp:90-94 | Non-empty, comma-free texts joined by commas tokenise back to exactly those texts |
| CStdlib.DigitRun | src/main.cpp:92 | The longest decimal-digit prefix: all digits, followed by a non-digit or the end |
| CStdlib.DigitRunOf | src/main.cpp:92 | A digit string followed by a non-digit has exactly that digit run |
| CStdlib.MagnitudeOf | src/main.cpp:92 | The magnitude read is the value of the leading digit string, whatever follows it |
| CStdlib.AtoiSkipsSpace | src/main.cpp:92 | `atoi` ignores leading white space |
| CStdlib.SignedMagnitude | src/main.cpp:92 | After white space, only a leading `-` gives a negative value, a `-` never gives a positive one, and a non-zero value needs a digit at the start or right after the sign |
| CStdlib.Atoi | src/main.cpp:92 | `atoi` itself; it has no contract of its own, and its contract is the lemmas `AtoiSkipsSpace`, `AtoiReadsDigitPrefix` and `AtoiShow` |
| CStdlib.SignedMagnitudeSigned | src/main.cpp:92 | After a `+` or `-` the digit run is read and the sign applied |
| CStdlib.SignedMagnitudeUnsigned | src/main.cpp:92 | Without a sign, the digit run is read; no digits give 0 |
| CStdlib.AtoiReadsDigitPrefix | src/main.cpp:92 | White space, an optional sign, a digit run, then anything not starting with a digit convert to the signed value of the digit run (0 for no digits) |
| CStdlib.AtoiOfDigits | src/main.cpp:92 | A bare digit string, with or without a minus sign, converts to its signed value |
| CStdlib.Decimal | src/main.cpp:75 | The partner of `atoi`, standing for the integers a client types in answer to the prompt. The rendering of a natural number is a non-empty digit string without a leading zero |
| CStdlib.DecimalValue | src/main.cpp:75 | The digits of the rendering are worth the number rendered |
| CStdlib.Show | src/main.cpp:75 | The rendering of an integer is a non-empty string of digits, with a minus sign in front exactly for negative numbers |
| CStdlib.AtoiShow | src/main.cpp:75 | `atoi` of the decimal rendering of any integer gives back that integer |
| CStdlib.AtoiGarbageIsZero | src/main.cpp:92 | `abc`, `-` and the empty text convert to 0 |
| CStdlib.AtoiIgnoresTrailingText | src/main.cpp:92 | ` 12x` converts to 12 and `1 2` to 1: leading space is skipped and text after the digits is ignored |
| LineDecoder.InRange | src/main.cpp:110 | A value passes the range test exactly when it lies in `[-128, 127]` |
| LineDecoder.Values | src/main.cpp:88-94 | The values the loop stores: at most seven, exactly seven iff the line has at least seven tokens, and as many as there are tokens otherwise |
| LineDecoder.DecodeTrimmed | src/main.cpp:88-113 | Count error iff fewer than seven tokens; range error iff there are seven and one of the first seven values is out of `[-128, 127]`; otherwise exactly seven values, value i being `atoi` of token i, all in range |
| LineDecoder.Decode | src/main.cpp:85-113 | The same characterisation, in terms of the tokens of the trimmed line: the outcome is a function of the line alone |
| LineDecoder.TokenLoop | src/main.cpp:89-94 | The loop never drops a stored value and, started with at most seven, never stores more than seven |
| LineDecoder.TokenLoopLength | src/main.cpp:91-94 | The token loop stores one value per remaining token until seven are stored |
| LineDecoder.TokenLoopKeeps | src/main.cpp:92 | Values already stored are never overwritten |
| LineDecoder.TokenLoopAt | src/main.cpp:92-93 | The value stored for the j-th further token is `atoi` of that token |
| LineDecoder.TokenLoopValues | src/main.cpp:89-94 | Run from the start, the loop stores exactly `atoi` of the first `min(7, number of tokens)` tokens, in order |
| LineDecoder.ReadValues | src/main.cpp:88-94 | The token loop stores `min(7, number of tokens)` values, value i being `atoi` of token i |
| LineDecoder.FirstOutOfRange | src/main.cpp:108-113 | The range loop stops at the first index whose value is outside `[-128, 127]`, and every earlier value is inside |
| LineDecoder.DecodeLine | src/main.cpp:85-113 | The statement-by-statement decoder gives the same outcome as `Decode` |
| LineDecoder.ExtraTokensIgnored | src/main.cpp:91-94 | Once seven tokens are present, anything after a further comma has no effect |
| LineDecoder.EmptyFieldIgnored | src/main.cpp:90-94 | An empty field between two commas does not change the outcome |
| LineDecoder.PaddingIgnored | src/main.cpp:86 | White space around a line does not change the outcome |
| LineDecoder.DecodeTrimmedOfValues | src/main.cpp:97-113 | The outcome depends only on the token values: short gives a count error whatever the values, then a range error if one of the first seven is out of range, else those seven |
| LineDecoder.ShowIsToken | src/main.cpp:90-94 | A rendered number is a single token |
| LineDecoder.RenderTokens | src/main.cpp:90-94 | The tokens of numbers written with commas are their renderings, in order |
| LineDecoder.RenderEnds | src/main.cpp:86 | Numbers written with commas neither start nor end with white space |
| LineDecoder.DecodeRendered | src/main.cpp:85-113 | Numbers written with commas and padded with white space decode to the first seven numbers when there are at least seven and these are in range, to a count error when there are fewer, and to a range error otherwise |
| LineDecoder.RenderedAccepted | src/main.cpp:97-113 | Seven in-range numbers written with commas decode to exactly those numbers |
| LineDecoder.RenderedRejected | src/main.cpp:108-113 | Seven or more numbers written with commas, one of the first seven out of range, are a range error |
| LineDecoder.RenderedShort | src/main.cpp:97-100 | Fewer than seven numbers written with commas are a count error whatever their values |
| RequestSamples.SevenNumbersAccepted | src/main.cpp:85-113 | `1,2,3,4,5,6,7` is accepted as the numbers one to seven |
| RequestSamples.TwoTokens | src/main.cpp:90-94 | `1,2` has the two tokens `1` and `2` |
| RequestSamples.DoubleCommaTokens | src/main.cpp:90-94 | `1,,2` has the two tokens `1` and `2` |
| RequestSamples.ShortLineIsCountError | src/main.cpp:97-100 | `200,0,0` is a count error although 200 is out of range |
| RequestSamples.ThreeNumbersAreCountError | src/main.cpp:97-100 | `1,2,3` is a count error |
| RequestSamples.OutOfRangeLine | src/main.cpp:108-113 | `200,0,0,0,0,0,0` is a range error |
| Timing.Reading | src/main.cpp:103 | A `micros()` reading is the microsecond count since start-up, wrapped to `[0, 2^32)`; before the first wrap it is the count itself |
| Timing.Elapsed | src/main.cpp:138 | The unsigned difference lies in `[0, 2^32)`, equals the mathematical difference modulo 2^32, is the plain difference when no wrap occurred, and added back to the earlier reading modulo 2^32 gives the later one |
| Timing.ElapsedModulo | src/main.cpp:138-140 | The difference of two counter readings is the true elapsed time modulo 2^32 |
| Timing.ElapsedExact | src/main.cpp:138-140 | The difference is exact whenever less than 2^32 microseconds passed, even across a counter wrap |
| Timing.Measure | src/main.cpp:138-140 | The two printed durations are the differences `t1 - t0` and `t2 - t1` of the readings, reduced modulo 2^32 |
| Timing.MeasureExact | src/main.cpp:103-140 | Both printed durations are exact when the three readings span less than 2^32 microseconds |
| Timing.ElapsedAcrossWrap | src/main.cpp:138 | Readings 16 microseconds before and after the wrap are 32 microseconds apart |

## Left out

- Serial transport: `Serial.available`, `readStringUntil('\n')`, `delay(5000)` and every `Serial.print*`. The received line is a parameter.
- What a line does after the count check is not modelled as output. A line that passes the count check first reads `t0`, prints "Processing..." and reads `t1` (lines 103-105), all before the range check; so a range error is printed after "Processing...". An accepted line goes on to inference, which either prints "Model inference failed." or prints the prediction and both timings (lines 115-141). `Decode` gives only which of the three outcomes the line has.
- `micros()`: the microsecond count since start-up is a parameter of `Timing.Reading`.
- TensorFlow Lite: the model set-up and `interpreter->Invoke()` at lines 120-123 are foreign library calls.
- The float scaling of the inputs at lines 115-116 and the dequantisation of the output at lines 127-134. These are floating-point arithmetic, and the float-to-`int8_t` cast is undefined for out-of-range values.
- The writes into the input tensor that happen before a later value fails the range check. They do not change the outcome.
- `strtok` writes NUL bytes into the `String` buffer. The model tokenises a pure `seq<char>` instead.
- A NUL character inside the received line, which would end the C string early, is not modelled.
- `Trim` follows the Arduino core's `String::trim()`, whose source is not in this repository. It is modelled from its documented behaviour: strip leading, then trailing, `isspace` characters.
- CStdlib.Atoi: values are unbounded integers. In C, a digit string too large for `int` is undefined behaviour. Here it just yields a large value, which fails the range check.
- Timing.Elapsed: `unsigned long` is modelled as the integer range `[0, 2^32)` with the wrap-around written out, rather than as a 32-bit bit-vector.
- Only `,` is modelled as the `strtok` delimiter, the only one the sketch passes.
