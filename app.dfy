/**
 * The `App` component of src/App.tsx as an object: its React state becomes
 * fields, the two scan callbacks become methods, and each click of the
 * shared close button is counted in `closeClicks`.
 */
module App {
  import opened Wrappers
  import opened Lot
  import opened Catalog
  import opened Decode

  class App {
    var supplierCode: string
    var lot: string
    var selectedProduct: Option<Product>
    var selectedMold: Option<Mold>
    /** How many times `closeBtn.current?.click()` has been called. */
    var closeClicks: nat

    /**
     * The lookup effect keeps the product in step with the code: whenever the
     * code is a key of `db`, the selected product is that key's entry.
     */
    ghost predicate Valid()
      reads this
    {
      LookupProduct(supplierCode).Some? ==> selectedProduct == LookupProduct(supplierCode)
    }

    /** The form fields the callbacks may set, all as they were. */
    twostate predicate FieldsUnchanged()
      reads this
    {
      supplierCode == old(supplierCode) && lot == old(lot) &&
      selectedProduct == old(selectedProduct) && selectedMold == old(selectedMold)
    }

    /** Initial state: empty inputs, nothing selected, no close request. */
    constructor ()
      ensures Valid()
      ensures supplierCode == "" && lot == "" && selectedProduct == None && selectedMold == None
      ensures closeClicks == 0
    {
      supplierCode, lot := "", "";
      selectedProduct, selectedMold := None, None;
      closeClicks := 0;
    }

    /** The `useEffect` on `supplierCode`: select the product when the code is a key of `db`. */
    method SupplierCodeEffect()
      modifies this`selectedProduct
      ensures Valid()
      ensures selectedProduct == if LookupProduct(supplierCode).Some? then LookupProduct(supplierCode) else old(selectedProduct)
    {
      var found := LookupProduct(supplierCode);
      if found.Some? {
        selectedProduct := found;
      }
    }

    /** Typing in the supplier-code input; the effect runs when the value changed. */
    method EditSupplierCode(value: string)
      requires Valid()
      modifies this`supplierCode, this`selectedProduct
      ensures Valid()
      ensures supplierCode == value
      ensures selectedProduct == if LookupProduct(value).Some? then LookupProduct(value) else old(selectedProduct)
    {
      var previous := supplierCode;
      supplierCode := value;
      if supplierCode != previous {
        SupplierCodeEffect();
      }
    }

    method ClickClose()
      modifies this`closeClicks
      ensures closeClicks == old(closeClicks) + 1
    {
      closeClicks := closeClicks + 1;
    }

    /** `onReadDataMatrix`: expects zxing format 5. */
    method OnReadDataMatrix(a: Attempt)
      requires Valid()
      modifies this
      ensures Valid()
      ensures closeClicks == old(closeClicks) + (if RequestsClose(Classify(a, DataMatrixFormat)) then 1 else 0)
      ensures a == Failed(NotFoundException) ==> FieldsUnchanged() && closeClicks == old(closeClicks)
      ensures a.Failed? && a.error.OtherException? ==> FieldsUnchanged() && closeClicks == old(closeClicks) + 1
      ensures a.Decoded? && a.format != DataMatrixFormat ==> FieldsUnchanged() && closeClicks == old(closeClicks) + 1
      ensures a.Decoded? && a.format == DataMatrixFormat ==>
        var code := SupplierCodeField(a.text);
        supplierCode == code &&
        lot == FormatLot(LotField(a.text)) &&
        selectedProduct == (if LookupProduct(code).Some? then LookupProduct(code) else old(selectedProduct)) &&
        selectedMold == old(selectedMold) &&
        closeClicks == old(closeClicks) + 1
    {
      match Classify(a, DataMatrixFormat)
      case KeepScanning =>
        return;
      case CloseOnError =>
        ClickClose();
        return;
      case CloseOnWrongFormat =>
        ClickClose();
        return;
      case Accept(text) =>
        var previous := supplierCode;
        var code := SupplierCodeField(text);
        var rawLot := LotField(text);
        supplierCode := code;
        lot := FormatLot(rawLot);
        var found := LookupProduct(code);
        if found.Some? {
          selectedProduct := found;
        }
        ClickClose();
        if supplierCode != previous {
          SupplierCodeEffect();
        }
    }

    /** `onReadQrCode`: expects zxing format 11; the whole text is the mold key. */
    method OnReadQrCode(a: Attempt)
      requires Valid()
      modifies this
      ensures Valid()
      ensures closeClicks == old(closeClicks) + (if RequestsClose(Classify(a, QrCodeFormat)) then 1 else 0)
      ensures a == Failed(NotFoundException) ==> FieldsUnchanged() && closeClicks == old(closeClicks)
      ensures a.Failed? && a.error.OtherException? ==> FieldsUnchanged() && closeClicks == old(closeClicks) + 1
      ensures a.Decoded? && a.format != QrCodeFormat ==> FieldsUnchanged() && closeClicks == old(closeClicks) + 1
      ensures a.Decoded? && a.format == QrCodeFormat ==>
        supplierCode == old(supplierCode) && lot == old(lot) &&
        selectedProduct == old(selectedProduct) &&
        selectedMold == (if LookupMold(a.text).Some? then LookupMold(a.text) else old(selectedMold)) &&
        closeClicks == old(closeClicks) + 1
    {
      match Classify(a, QrCodeFormat)
      case KeepScanning =>
        return;
      case CloseOnError =>
        ClickClose();
        return;
      case CloseOnWrongFormat =>
        ClickClose();
        return;
      case Accept(text) =>
        var code := text;
        var found := LookupMold(code);
        if found.Some? {
          selectedMold := found;
        }
        ClickClose();
    }
  }
}
