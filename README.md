# UPU S10 identifier generator — verified model

This project models the identifier logic of a command-line generator of UPU S10
postal tracking labels. An S10 identifier has 13 characters: a 2-letter
service indicator, an 8-digit serial number, a check digit and a 2-character
destination country or regional code, for example `HF600000007CN`.

The model covers four parts:

- **Check-digit calculator.** It rejects anything that is not 8 ASCII digits.
  Otherwise it takes the weighted sum of the digits with weights
  `8, 6, 4, 2, 3, 5, 9, 7` and computes `11 - (sum mod 11)`, mapping 10 to 0
  and 11 to 5.
- **Display formatter.** It turns the identifier into `XX XXXX XXXX X XX`.
- **Argument validation.** The service indicator must be 2 letters, the start
  serial 8 digits, the code 2 letters or digits, and the quantity positive.
- **Batch generation loop.** It upper-cases the indicator and the code. For
  each step `i` it zero-pads `start + i` to 8 digits and appends the check
  digit and the code. It stops early once the padded serial no longer fits in
  8 digits.

Modules, one per part, plus two helpers:

- `Wrappers` (`wrappers.dfy`): `Option` and `Result`. Rejections are values
  here, not process exits.
- `Decimal` (`decimal.dfy`): Python's `str(n)`, `int(s)` and `s.zfill(w)` on
  ASCII digits, with the lemmas that zero-padding keeps the value.
- `Checksum` (`checksum.dfy`): `calculate_s10_checksum`.
- `LabelText` (`label_text.dfy`): `format_s10_text`, with Python's clamping
  slice semantics, and its inverse `Unformat`.
- `Generator` (`generator.dfy`): the validation, the identifier assembly and
  the batch loop. `Generate` validates and then calls `RunBatch`, a method
  with the source's `for` loop and `break`. `RunBatch` is proved equal to the
  specification function `Batch`, and the lemmas about `Batch` give the count,
  the layout and the ordering of the identifiers.

Two behaviours of the source code are worth noting:

- `format_s10_text` does not check its input length. Python slices clamp
  out-of-range bounds, so `FormatText` is total. For any input its result has
  `min(|id|, 13) + 4` characters. The round trip is proved for the
  13-character case.
- On serial overflow the source prints a warning with the count and stops.
  The model returns the identifiers produced so far.

## Model

| member | source | states |
|---|---|---|
| `Decimal.DigitChar` | gen.py:231 | The character written for a check digit 0..9 is an ASCII digit that reads back as that digit. |
| `Decimal.DecimalValue` | gen.py:213 | `int(s)` of a digit string is below `10^len(s)`. |
| `Decimal.ToDecimal` | gen.py:223 | `str(n)` is a non-empty digit string with no leading zero. It reads back as `n`, and when it has more than one digit `n >= 10^(len-1)`. |
| `Decimal.ToDecimalFits` | gen.py:223-225 | `str(n)` has at most `k` characters exactly when `n < 10^k` (both directions). |
| `Decimal.ZFill` | gen.py:223 | `s.zfill(w)` has `max(len(s), w)` characters, and a digit string stays a digit string. Its shape is stated by `Decimal.ZFillPads`. |
| `Decimal.ZFillPads` | gen.py:223 | `s.zfill(w)` ends with `s` and has only `0` characters in front of it. |
| `Decimal.LeadingZerosValue` | gen.py:223 | Prefixing zeros does not change the value read back. |
| `Decimal.ZFillDecimal` | gen.py:223-227 | For `n < 10^w`, `str(n).zfill(w)` has exactly `w` digits and reads back as `n`. For `n >= 10^w` it is longer than `w`, which is the loop's stop condition. |
| `Checksum.WeightedSum` | gen.py:41-43 | The `zip` sum is 0 when either input is empty and at most 9 times the sum of the weights. `Checksum.WeightedSumExpanded` gives its value term by term. |
| `Checksum.Override` | gen.py:44-51 | Every raw value in 1..11 becomes a single digit 0..9. Raw 10 gives 0, raw 11 gives 5, and every other value is returned unchanged (both directions). |
| `Checksum.CheckDigit` | gen.py:41-51 | The check digit is in 0..9. It is 0 when the sum is 1 mod 11 and 5 when the sum is 0 mod 11. Otherwise the sum plus the digit is a multiple of 11. |
| `Checksum.Calculate` | gen.py:25-51 | Succeeds exactly for 8-character all-digit input and then returns the check digit (0..9). Any other input gives the invalid-input error. |
| `Checksum.OverrideRule` | gen.py:44-51 | The raw value `11 - (s mod 11)` is in 1..11. Raw 10 gives 0, raw 11 gives 5, and raw 1..9 is returned unchanged. |
| `Checksum.WeightedSumExpanded` | gen.py:41-43 | The zip sum equals `8d0 + 6d1 + 4d2 + 2d3 + 3d4 + 5d5 + 9d6 + 7d7`. |
| `Checksum.KnownVector` | gen.py:56 | Serial `60000000` has check digit 7. |
| `LabelText.Slice` | gen.py:64-68 | Python slicing `s[lo:hi]` clamps to the string: its length is `min(hi,len(s)) - min(lo,len(s))` and it holds `s[lo..]` in order. |
| `LabelText.FormatText` | gen.py:53-69 | For any input the display text has `min(len(id), 13) + 4` characters. |
| `LabelText.JoinFields` | gen.py:69 | Joining fields of widths 2, 4, 4, 1 and 2 with single spaces gives 17 characters. The spaces are at 2, 7, 12 and 14, and each field is at its fixed position. |
| `LabelText.FormatPositions` | gen.py:64-69 | For a 13-character identifier the result is a display form. Indicator, serial halves, check digit and code appear at positions 0-1, 3-6, 8-11, 13 and 15-16. |
| `LabelText.UnformatFormat` | gen.py:53-69 | Deleting the four spaces from the formatted 13-character identifier gives it back exactly. |
| `LabelText.FormatUnformat` | gen.py:53-69 | Every 17-character text with spaces at 2, 7, 12, 14 is the formatting of the identifier obtained by deleting them. |
| `LabelText.SameFields` | gen.py:69 | Two display forms with equal fields are equal. |
| `LabelText.FormatExample` | gen.py:56 | `HF600000007CN` formats as `HF 6000 0000 7 CN`. |
| `Generator.Validate` | gen.py:193-208 | No rejection exactly when all four checks hold. Each rejection is reported exactly when its check fails and all earlier checks pass: indicator, then serial, then code, then quantity. |
| `Generator.ValidationExamples` | gen.py:194-208 | `A1` is rejected as indicator, `1234567` as serial, `C-` as code and quantity 0 as quantity. `HF 60000000 11 25` is accepted. |
| `Generator.UpperChar` | gen.py:211-212 | Upper-casing turns an ASCII lower-case letter into its own capital (the same place in the alphabet) and leaves everything else alone. It keeps letters letters and digits digits. |
| `Generator.ToUpper` | gen.py:211-212 | Upper-casing keeps the length and maps each character. A valid indicator stays valid and becomes two capitals. A valid code stays valid. |
| `Generator.ToUpperIdempotent` | gen.py:211-212 | Upper-casing twice is the same as upper-casing once. |
| `Generator.SerialText` | gen.py:222-225 | `str(n).zfill(8)` is an 8-digit serial reading back as `n` when `n <= 99999999`, and longer than 8 characters otherwise. |
| `Generator.Assemble` | gen.py:230-231 | `f"{si}{sn_str}{cs}{cc}"` has `len(si) + 9 + len(cc)` characters. It holds the indicator, then the serial, then an ASCII digit whose value is the serial's check digit, then the code. |
| `Generator.AssembleFields` | gen.py:231 | `f"{si}{sn}{cs}{cc}"` has 13 characters: indicator at 0-1, serial at 2-9, the serial's check digit at 10, code at 11-12. |
| `Generator.IdentifierLayout` | gen.py:211-231 | Every identifier the loop emits is a well-formed S10 identifier. It has 13 characters: the upper-cased indicator, the zero-padded serial reading back as `n`, the check digit of characters 2-9, and the upper-cased code. |
| `Generator.Identifier` | gen.py:211-231 | The identifier the loop emits for serial `n` has `len(si) + 9 + len(cc)` characters. `Generator.IdentifierLayout` states its layout and well-formedness. |
| `Generator.KnownIdentifier` | gen.py:56 | Indicator `hf`, serial 60000000 and code `cn` give `HF600000007CN`. |
| `Generator.KnownDisplayForm` | gen.py:56 | That identifier displays as `HF 6000 0000 7 CN`. |
| `Generator.BatchSize` | gen.py:221-227 | The number of identifiers is `min(quantity, 100000000 - start)`, and it is 0 for a non-positive quantity (Python's `range` of a negative number is empty). It is at most the quantity and at most the serials left. |
| `Generator.Batch` | gen.py:221-231 | The specification of the loop's output has exactly `BatchSize(start, quantity)` identifiers. |
| `Generator.BatchAt` | gen.py:222-231 | The `i`-th identifier of a batch is the identifier for serial `start + i`, which is below 100000000. |
| `Generator.BatchWellFormed` | gen.py:221-231 | Every identifier of a batch is well formed and carries serial `start + i`. Serials are consecutive and strictly increasing. |
| `Generator.BatchStopsAtOverflow` | gen.py:221-227 | Starting at 99999995 with quantity 10 yields exactly 5 identifiers. |
| `Generator.RunBatch` | gen.py:221-231 | The loop returns exactly `Batch(indicator, start, quantity, code)`: one identifier per step, stopping at serial overflow. |
| `Generator.Generate` | gen.py:193-231 | Fails exactly when the arguments are invalid, with the first failing check as the error. Otherwise it returns the batch for the parsed start serial, which is below 100000000. |

## Left out

- Barcode rendering (`generate_upu_barcode`, gen.py:71-152). It delegates the Code128 symbol and the image composition to third-party libraries. The font fallback, the text centring and the green bar for numeric codes are presentation only.
- Command-line parsing, creating the output directory, progress and warning output, and `sys.exit`. These are process I/O. A rejection is an `Option`/`Result` value, and the overflow stop is the length of the returned sequence.
- argparse rejecting a non-integer quantity. The model takes the quantity as an already parsed integer.
- Wrapping and reporting of rendering exceptions and the fail-fast exit in the loop (gen.py:151-152, gen.py:238-240). They concern only the rendering side. The model proves that the check-digit call in the loop can never fail.
- Unicode behaviour of `isdigit`, `isalpha`, `isalnum` and `upper`. Python accepts non-ASCII digits and letters there. The model uses ASCII digits, ASCII letters and ASCII upper-casing. The 13-character guarantee holds only for ASCII input: `'ß'.isalpha()` is true and `'ß'.upper()` is `'SS'`, so an indicator such as `ßa` passes the check at gen.py:194 and yields a 14-character identifier at gen.py:231.
- `zfill`'s handling of a leading `+` or `-`. `str(n)` of a non-negative serial never has a sign, so `Decimal.ZFill` pads strings without a sign only.
