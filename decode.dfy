/**
 * One decode attempt as the zxing continuous decoder hands it to a
 * `DecodeContinuouslyCallback`, and the rules of src/App.tsx that classify
 * it and extract the DataMatrix fields.
 */
module Decode {
  import opened JsString
  import opened Lot
  import opened Catalog
  import opened Wrappers

  /** zxing `BarcodeFormat` numbers the handlers compare against. */
  const DataMatrixFormat: int := 5
  const QrCodeFormat: int := 11

  /** The exception passed as `err`: a transient `NotFoundException` or any other one. */
  datatype DecodeError = NotFoundException | OtherException(name: string)

  /** Either an error (`err` set) or a result with its barcode format and text. */
  datatype Attempt =
    | Failed(error: DecodeError)
    | Decoded(format: int, text: string)

  /** What a handler does with an attempt, in the order the handlers test it. */
  datatype Outcome =
    | KeepScanning          // `NotFoundException`: return without closing
    | CloseOnError          // any other error: click close
    | CloseOnWrongFormat    // decoded, but not the expected symbology: click close
    | Accept(text: string)  // qualifying success: extract, then click close

  function Classify(a: Attempt, expected: int): (o: Outcome)
    ensures o == KeepScanning <==> a == Failed(NotFoundException)
    ensures o == CloseOnError <==> a.Failed? && a.error.OtherException?
    ensures o == CloseOnWrongFormat <==> a.Decoded? && a.format != expected
    ensures o.Accept? <==> a.Decoded? && a.format == expected
    ensures o.Accept? ==> o.text == a.text
  {
    match a
    case Failed(e) => if e.OtherException? then CloseOnError else KeepScanning
    case Decoded(format, text) => if format != expected then CloseOnWrongFormat else Accept(text)
  }

  /** Whether the handler clicks the close button for this attempt. */
  predicate RequestsClose(o: Outcome) { !o.KeepScanning? }

  /** `text.substring(14).slice(0, 9)`. */
  function SupplierCodeField(text: string): (code: string)
    ensures code == text[Min(14, |text|)..Min(23, |text|)]
  {
    Slice(SubstringFrom(text, 14), 0, 9)
  }

  /** `text.substring(26).slice(0, 18)`, before punctuation. */
  function LotField(text: string): (lot: string)
    ensures lot == text[Min(26, |text|)..Min(44, |text|)]
  {
    Slice(SubstringFrom(text, 26), 0, 18)
  }

  /** A text long enough for both fields yields a 9-character code and a formatted 18-character lot. */
  lemma FullLengthFields(text: string)
    requires |text| >= 44
    ensures SupplierCodeField(text) == text[14..23]
    ensures LotField(text) == text[26..44]
    ensures var f := FormatLot(LotField(text));
      |f| == 20 && f[..7] == text[26..33] && f[7] == '.' && f[8..16] == text[33..41] &&
      f[16] == '.' && f[17..] == text[41..44]
  {
    EighteenCharacterLot(text[26..44]);
  }

  /** Short input is tolerated: the fields just come out short or empty. */
  lemma ShortTextFields(text: string)
    ensures |text| <= 14 ==> SupplierCodeField(text) == ""
    ensures |text| <= 26 ==> LotField(text) == "" && FormatLot(LotField(text)) == ""
    ensures 14 <= |text| <= 23 ==> |SupplierCodeField(text)| == |text| - 14
  {
  }

  /** A DataMatrix text shorter than 23 characters can never select a product. */
  lemma ShortTextSelectsNoProduct(text: string)
    requires |text| < 23
    ensures SupplierCodeField(text) !in Db
  {
    var code := SupplierCodeField(text);
    if code in Db {
      ProductKeysHaveNineCharacters(code);
      assert false;
    }
  }

  /** A payload laid out as 14 + 9 + 3 + 18 characters and a tail yields its 9- and 18-character parts. */
  lemma {:induction false} FieldsOfLayout(head: string, code: string, gap: string, lot: string, tail: string)
    requires |head| == 14 && |code| == 9 && |gap| == 3 && |lot| == 18
    ensures SupplierCodeField(head + code + gap + lot + tail) == code
    ensures LotField(head + code + gap + lot + tail) == lot
  {
    var text := head + code + gap + lot + tail;
    assert text[14..23] == code;
    assert text[26..44] == lot;
  }

  /** A worked DataMatrix payload: code at 14..23, filler, lot at 26..44. */
  lemma ExamplePayload()
    ensures var text := "ABCDEFGHIJKLMN" + "821464003" + "XYZ" + ("1234567" + "ABCDEFGH" + "123") + "";
      Classify(Decoded(DataMatrixFormat, text), DataMatrixFormat) == Accept(text) &&
      SupplierCodeField(text) == "821464003" &&
      FormatLot(LotField(text)) == "1234567" + "." + "ABCDEFGH" + "." + "123" &&
      LookupProduct(SupplierCodeField(text)) == Some(Product("Carpete 598", "311010016.00"))
  {
    var lot := "1234567" + "ABCDEFGH" + "123";
    var text := "ABCDEFGHIJKLMN" + "821464003" + "XYZ" + lot + "";
    FieldsOfLayout("ABCDEFGHIJKLMN", "821464003", "XYZ", lot, "");
    assert LotField(text) == lot;
    FormatOfGroups("1234567", "ABCDEFGH", "123");
  }

  /** The 52-character payload cut into the parts that stand at the fixed offsets. */
  lemma FiftyTwoCharacterPayload()
    ensures var text := "00000000000008" + "214640030" + "000" + ("0000000" + "1234567A" + "BCD") + "EFGHI123";
      |text| == 52 &&
      SupplierCodeField(text) == "214640030" &&
      LotField(text) == "0000000" + "1234567A" + "BCD" &&
      FormatLot(LotField(text)) == "0000000" + "." + "1234567A" + "." + "BCD" &&
      LookupProduct(SupplierCodeField(text)) == None
  {
    var lot := "0000000" + "1234567A" + "BCD";
    var text := "00000000000008" + "214640030" + "000" + lot + "EFGHI123";
    FieldsOfLayout("00000000000008", "214640030", "000", lot, "EFGHI123");
    assert LotField(text) == lot;
    FormatOfGroups("0000000", "1234567A", "BCD");
  }
}
