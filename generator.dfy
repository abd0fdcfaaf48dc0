/**
 * Argument validation, identifier assembly and the batch generation loop of
 * the generator's entry point, with image rendering and output left out.
 */
module Generator {
  import opened Wrappers
  import opened Decimal
  import opened Checksum
  import LabelText

  /** One past the largest 8-digit serial, 99999999. */
  const SerialLimit: nat := 100000000

  lemma SerialLimitIsPow10()
    ensures Pow10(8) == SerialLimit
  {
    assert Pow10(4) == 10000;
  }

  // ---------------------------------------------------------------- validation

  predicate IsAsciiLetter(c: char) {
    'A' <= c <= 'Z' || 'a' <= c <= 'z'
  }

  predicate IsAsciiAlnum(c: char) {
    IsAsciiLetter(c) || IsDigit(c)
  }

  predicate ValidServiceIndicator(s: string) {
    |s| == 2 && IsAsciiLetter(s[0]) && IsAsciiLetter(s[1])
  }

  predicate ValidCode(s: string) {
    |s| == 2 && IsAsciiAlnum(s[0]) && IsAsciiAlnum(s[1])
  }

  /** The command-line arguments after parsing; `quantity` is parsed as an integer. */
  datatype Args = Args(
    serviceIndicator: string,
    startSerialNumber: string,
    countryOrRegionalCode: string,
    quantity: int)

  /** The four rejections, reported in the order they are checked. */
  datatype ArgError =
    | BadServiceIndicator
    | BadStartSerialNumber
    | BadCode
    | BadQuantity

  predicate ValidArgs(a: Args) {
    ValidServiceIndicator(a.serviceIndicator) && IsSerial(a.startSerialNumber) &&
    ValidCode(a.countryOrRegionalCode) && a.quantity > 0
  }

  /** The first failing check, or `None` when generation may proceed. */
  function Validate(a: Args): (r: Option<ArgError>)
    ensures r.None? <==> ValidArgs(a)
    ensures r == Some(BadServiceIndicator) <==> !ValidServiceIndicator(a.serviceIndicator)
    ensures r == Some(BadStartSerialNumber) <==>
      ValidServiceIndicator(a.serviceIndicator) && !IsSerial(a.startSerialNumber)
    ensures r == Some(BadCode) <==>
      ValidServiceIndicator(a.serviceIndicator) && IsSerial(a.startSerialNumber) &&
      !ValidCode(a.countryOrRegionalCode)
    ensures r == Some(BadQuantity) <==>
      ValidServiceIndicator(a.serviceIndicator) && IsSerial(a.startSerialNumber) &&
      ValidCode(a.countryOrRegionalCode) && a.quantity <= 0
  {
    if |a.serviceIndicator| != 2 || !(forall i :: 0 <= i < 2 ==> IsAsciiLetter(a.serviceIndicator[i])) then
      Some(BadServiceIndicator)
    else if |a.startSerialNumber| != 8 || !IsDigits(a.startSerialNumber) then
      Some(BadStartSerialNumber)
    else if |a.countryOrRegionalCode| != 2 ||
            !(forall i :: 0 <= i < 2 ==> IsAsciiAlnum(a.countryOrRegionalCode[i])) then
      Some(BadCode)
    else if a.quantity <= 0 then
      Some(BadQuantity)
    else
      None
  }

  /** Rejected inputs: a non-letter indicator, a 7-digit serial, a bad code, a zero quantity. */
  lemma ValidationExamples()
    ensures Validate(Args("A1", "60000000", "CN", 1)) == Some(BadServiceIndicator)
    ensures Validate(Args("HF", "1234567", "CN", 1)) == Some(BadStartSerialNumber)
    ensures Validate(Args("HF", "60000000", "C-", 1)) == Some(BadCode)
    ensures Validate(Args("HF", "60000000", "CN", 0)) == Some(BadQuantity)
    ensures Validate(Args("HF", "60000000", "11", 25)) == None
  {
  }

  // ------------------------------------------------------------------ assembly

  predicate IsUpperLetter(c: char) {
    'A' <= c <= 'Z'
  }

  /** `str.upper()` on one ASCII character: letters become capitals, the rest is kept. */
  function UpperChar(c: char): (u: char)
    ensures IsAsciiLetter(c) ==> IsUpperLetter(u)
    ensures 'a' <= c <= 'z' ==> u as int - 'A' as int == c as int - 'a' as int
    ensures !('a' <= c <= 'z') ==> u == c
    ensures IsAsciiLetter(u) == IsAsciiLetter(c) && IsDigit(u) == IsDigit(c)
  {
    if 'a' <= c <= 'z' then (c as int - 32) as char else c
  }

  /** `str.upper()` on an ASCII string: same length, letters capitalised, idempotent. */
  function ToUpper(s: string): (r: string)
    ensures |r| == |s|
    ensures forall i :: 0 <= i < |s| ==> r[i] == UpperChar(s[i])
    ensures ValidServiceIndicator(s) ==> ValidServiceIndicator(r) && IsUpperLetter(r[0]) && IsUpperLetter(r[1])
    ensures ValidCode(s) ==> ValidCode(r)
  {
    seq(|s|, i requires 0 <= i < |s| => UpperChar(s[i]))
  }

  /** Upper-casing twice is upper-casing once. */
  lemma ToUpperIdempotent(s: string)
    ensures ToUpper(ToUpper(s)) == ToUpper(s)
  {
    var u := ToUpper(s);
    assert forall i :: 0 <= i < |s| ==> UpperChar(u[i]) == u[i];
  }

  /** `str(n).zfill(8)`: the serial text of the number `n`. */
  function SerialText(n: nat): (r: string)
    ensures n < SerialLimit ==> IsSerial(r) && DecimalValue(r) == n
    ensures n >= SerialLimit ==> |r| > 8
  {
    ZFillDecimal(n, 8);
    SerialLimitIsPow10();
    ZFill(ToDecimal(n), 8)
  }

  /** `f"{si}{sn_str}{cs}{cc}"` with `cs` the check digit of `sn_str`. */
  function Assemble(si: string, serial: string, cc: string): (id: string)
    requires IsSerial(serial)
    ensures |id| == |si| + 9 + |cc|
    ensures id[..|si|] == si && id[|si| + 9..] == cc
    ensures id[|si|..|si| + 8] == serial
    ensures IsDigit(id[|si| + 8]) && DigitValue(id[|si| + 8]) == CheckDigit(serial)
  {
    si + serial + [DigitChar(CheckDigit(serial))] + cc
  }

  /**
   * A well-formed S10 identifier: 13 characters, two upper-case letters, an
   * 8-digit serial, the check digit of that serial, two upper-case letters or
   * digits.
   */
  predicate IsS10(id: string) {
    && |id| == 13
    && IsUpperLetter(id[0]) && IsUpperLetter(id[1])
    && IsSerial(id[2..10])
    && id[10] == DigitChar(CheckDigit(id[2..10]))
    && (IsUpperLetter(id[11]) || IsDigit(id[11]))
    && (IsUpperLetter(id[12]) || IsDigit(id[12]))
  }

  /** The serial number an identifier carries in positions 2 to 9. */
  function SerialOf(id: string): (n: nat)
    requires IsS10(id)
    ensures n < SerialLimit
  {
    SerialLimitIsPow10();
    DecimalValue(id[2..10])
  }

  /** The identifier the loop emits for serial number `n`. */
  function Identifier(si: string, n: nat, cc: string): (id: string)
    requires n < SerialLimit
    ensures |id| == |si| + 9 + |cc|
  {
    Assemble(ToUpper(si), SerialText(n), ToUpper(cc))
  }

  /** The fields of an assembled identifier sit at positions 0-1, 2-9, 10 and 11-12. */
  lemma AssembleFields(si: string, serial: string, cc: string)
    requires |si| == 2 && IsSerial(serial) && |cc| == 2
    ensures var id := Assemble(si, serial, cc);
      && |id| == 13
      && id[0..2] == si && id[2..10] == serial && id[11..13] == cc
      && id[10] == DigitChar(CheckDigit(serial))
  {
    var p := si + serial;
    var id := p + [DigitChar(CheckDigit(serial))] + cc;
    assert id == Assemble(si, serial, cc);
    assert id[..10] == p && p[..2] == si && p[2..10] == serial;
  }

  /**
   * The identifier for a valid indicator and code and an in-range serial is a
   * well-formed S10 identifier whose parts are the upper-cased indicator, the
   * zero-padded serial reading back as `n`, and the upper-cased code.
   */
  lemma IdentifierLayout(si: string, n: nat, cc: string)
    requires ValidServiceIndicator(si) && ValidCode(cc) && n < SerialLimit
    ensures var id := Identifier(si, n, cc);
      && IsS10(id)
      && SerialOf(id) == n
      && id[0..2] == ToUpper(si)
      && id[2..10] == SerialText(n)
      && id[11..13] == ToUpper(cc)
  {
    var usi, ucc := ToUpper(si), ToUpper(cc);
    var sn := SerialText(n);
    AssembleFields(usi, sn, ucc);
    var id := Identifier(si, n, cc);
    assert id[0] == usi[0] && id[1] == usi[1] && id[11] == ucc[0] && id[12] == ucc[1] by {
      assert id[0..2] == usi && id[11..13] == ucc;
    }
  }

  lemma KnownSerialText()
    ensures SerialText(60000000) == "60000000"
  {
    KnownDecimal();
  }

  lemma KnownDecimal()
    ensures ToDecimal(60000000) == "60000000"
  {
    assert ToDecimal(6) == "6";
    ToDecimalTimesTen(6);
    ToDecimalTimesTen(60);
    ToDecimalTimesTen(600);
    ToDecimalTimesTen(6000);
    ToDecimalTimesTen(60000);
    ToDecimalTimesTen(600000);
    ToDecimalTimesTen(6000000);
  }

  /** The documented example: indicator `HF`, serial 60000000 and code `CN` give `HF600000007CN`. */
  lemma KnownIdentifier()
    ensures Identifier("hf", 60000000, "cn") == "HF600000007CN"
  {
    KnownSerialText();
    KnownVector();
    KnownUpper();
    KnownConcat();
  }

  lemma KnownUpper()
    ensures ToUpper("hf") == "HF" && ToUpper("cn") == "CN"
  {
    assert UpperChar('h') == 'H' && UpperChar('f') == 'F';
    assert UpperChar('c') == 'C' && UpperChar('n') == 'N';
  }

  lemma KnownConcat()
    ensures "HF" + "60000000" + ['7'] + "CN" == "HF600000007CN"
  {
  }

  /** Its display form is `HF 6000 0000 7 CN`. */
  lemma KnownDisplayForm()
    ensures LabelText.FormatText(Identifier("hf", 60000000, "cn")) == "HF 6000 0000 7 CN"
  {
    KnownIdentifier();
    LabelText.FormatExample();
  }

  // ----------------------------------------------------------------- batch

  /** How many identifiers a batch of `quantity` from `start` yields before the serial overflows. */
  function BatchSize(start: nat, quantity: int): (k: nat)
    requires start < SerialLimit
    ensures k <= SerialLimit - start
    ensures quantity >= 0 ==> k <= quantity
    ensures k == quantity || k == SerialLimit - start || (quantity < 0 && k == 0)
    ensures quantity <= 0 ==> k == 0
  {
    if quantity <= 0 then 0
    else if quantity <= SerialLimit - start then quantity
    else SerialLimit - start
  }

  /** The identifiers of a batch: the `i`-th carries serial `start + i`. */
  function Batch(si: string, start: nat, quantity: int, cc: string): (ids: seq<string>)
    requires start < SerialLimit
    ensures |ids| == BatchSize(start, quantity)
  {
    seq(BatchSize(start, quantity), i requires 0 <= i < BatchSize(start, quantity) =>
      Identifier(si, start + i, cc))
  }

  /** The `i`-th identifier of a batch is the one for serial `start + i`. */
  lemma BatchAt(si: string, start: nat, quantity: int, cc: string, i: nat)
    requires start < SerialLimit && i < BatchSize(start, quantity)
    ensures start + i < SerialLimit
    ensures Batch(si, start, quantity, cc)[i] == Identifier(si, start + i, cc)
  {
  }

  /**
   * Every identifier of a batch is well formed, carries serial `start + i`,
   * and consecutive identifiers carry consecutive, strictly increasing serials.
   */
  lemma BatchWellFormed(si: string, start: nat, quantity: int, cc: string)
    requires ValidServiceIndicator(si) && ValidCode(cc) && start < SerialLimit
    ensures var ids := Batch(si, start, quantity, cc);
      && (forall i :: 0 <= i < |ids| ==> IsS10(ids[i]) && SerialOf(ids[i]) == start + i)
      && (forall i :: 0 < i < |ids| ==> SerialOf(ids[i]) == SerialOf(ids[i - 1]) + 1)
      && (forall i, j :: 0 <= i < j < |ids| ==> SerialOf(ids[i]) < SerialOf(ids[j]))
  {
    var ids := Batch(si, start, quantity, cc);
    forall i | 0 <= i < |ids|
      ensures IsS10(ids[i]) && SerialOf(ids[i]) == start + i
    {
      BatchAt(si, start, quantity, cc, i);
      IdentifierLayout(si, start + i, cc);
    }
  }

  /** Starting at 99999995 with quantity 10 stops after the five serials up to 99999999. */
  lemma BatchStopsAtOverflow()
    ensures |Batch("HF", 99999995, 10, "CN")| == 5
  {
  }

  /**
   * The entry point with the rendering left out: validate the arguments,
   * upper-case the indicator and code, read the start serial, run the batch.
   */
  method Generate(a: Args) returns (r: Result<seq<string>, ArgError>)
    ensures r.Failure? <==> !ValidArgs(a)
    ensures r.Failure? ==> Validate(a) == Some(r.error)
    ensures r.Success? ==>
      var start := DecimalValue(a.startSerialNumber);
      start < SerialLimit &&
      r.value == Batch(a.serviceIndicator, start, a.quantity, a.countryOrRegionalCode)
  {
    var err := Validate(a);
    if err.Some? {
      return Failure(err.value);
    }
    SerialLimitIsPow10();
    var startSn := DecimalValue(a.startSerialNumber);
    var ids := RunBatch(a.serviceIndicator, startSn, a.quantity, a.countryOrRegionalCode);
    return Success(ids);
  }

  /**
   * The generation loop: one identifier per step for serials `start`,
   * `start + 1`, ..., stopping early once the zero-padded serial no longer
   * fits in 8 digits.
   */
  method RunBatch(serviceIndicator: string, startSn: nat, quantity: int, code: string)
    returns (ids: seq<string>)
    requires startSn < SerialLimit
    ensures ids == Batch(serviceIndicator, startSn, quantity, code)
  {
    var si := ToUpper(serviceIndicator);
    var cc := ToUpper(code);
    ids := [];
    if quantity <= 0 {
      return;
    }
    for i := 0 to quantity
      invariant |ids| == i
      invariant startSn + i <= SerialLimit
      invariant forall k :: 0 <= k < i ==> ids[k] == Identifier(serviceIndicator, startSn + k, code)
    {
      var currentSn := startSn + i;
      var snText := ZFill(ToDecimal(currentSn), 8);
      assert snText == SerialText(currentSn);
      if |snText| > 8 {
        break;
      }
      var cs := Calculate(snText);
      var id := si + snText + [DigitChar(cs.value)] + cc;
      ids := ids + [id];
    }
    assert |ids| == BatchSize(startSn, quantity);
    forall k | 0 <= k < |ids|
      ensures ids[k] == Batch(serviceIndicator, startSn, quantity, code)[k]
    {
      BatchAt(serviceIndicator, startSn, quantity, code, k);
    }
  }
}
