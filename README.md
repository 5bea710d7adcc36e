# material-check: barcode-scan handling, modelled in Dafny

The material-check front end registers a product and its moulding tool by scanning codes. A
`Scanner` dialog starts a zxing reader on a camera and feeds every sampled frame to a callback.
`App` gives it one of two callbacks. `onReadDataMatrix` slices a supplier code and a lot number out
of a DataMatrix payload at fixed offsets, punctuates the lot, and looks up the supplier code in a
constant product table. `onReadQrCode` looks up a QR payload in a constant mould table. Both
callbacks click the dialog's close button when a scan should end.

This project models that logic and proves what it does:

- `JsString`: JavaScript's clamping `slice` and `substring`.
- `Lot`: `formatLot` and its inverse.
- `Catalog`: the `db` and `molds` tables.
- `Decode`: one decode attempt, how it is classified, and how the DataMatrix fields are extracted.
- `App`: the `App` component's state as a class. The two callbacks and the supplier-code lookup
  effect are its methods. Every close-button click is counted in `closeClicks`.
- `Scanner`: the module-level `codeReader` as a class. It keeps every reader ever created, each
  in an abstract state (created, decoding on a device for a callback, or reset), so that readers
  a new start leaves running stay visible.

What the model keeps from the code:

- No single-fire guard. Every qualifying frame delivered to a callback updates the fields and
  clicks close again.
- `startCamera` replaces `codeReader` without resetting the previous reader.
- A payload shorter than the offsets gives shorter or empty fields, never an error.

The offsets are applied verbatim, so a payload that is misaligned by one character selects
nothing. In the 52-character payload `"0000000000000821464003000000000001234567ABCDEFGHI123"`, the
known supplier code `821464003` starts at position 13, one before the code offset 14. The sliced
code is therefore `214640030`, the raw lot is `00000001234567ABCD`, and no product is selected
(`Decode.FiftyTwoCharacterPayload` proves `LookupProduct(...) == None`). `Decode.ExamplePayload`
proves a 44-character payload whose fields line up with a `db` key.

## Model

| member | source | states |
|---|---|---|
| JsString.Slice | src/App.tsx:67-68 | for non-negative positions, `slice` returns the characters between the positions clamped to the length, and nothing when they are out of order |
| JsString.SliceFrom | src/App.tsx:56 | `slice(start)` returns the suffix from the clamped start |
| JsString.Substring | src/App.tsx:67-68 | the two-argument `substring` that the one-argument calls at these lines reduce to (through `SubstringFrom`): for non-negative ordered positions it returns the characters between the clamped positions |
| JsString.SubstringFrom | src/App.tsx:67-68 | `substring(start)` returns the suffix from the clamped start, empty past the end |
| Lot.FormatLot | src/App.tsx:51-58 | the empty lot formats to empty; otherwise the result is two characters longer, with '.' at positions min(7,n) and min(15,n)+1 |
| Lot.FormatLotGroups | src/App.tsx:53-57 | a non-empty lot formats to `s[..min(7,n)] + "." + s[min(7,n)..min(15,n)] + "." + s[min(15,n)..]` |
| Lot.UnformatFormat | src/App.tsx:51-58 | removing the two inserted separators gives back the raw lot |
| Lot.FormatUnformat | src/App.tsx:51-58 | every string with '.' at both separator positions is the formatting of the lot left after removing them |
| Lot.FormatLotIsFormatted | src/App.tsx:51-58 | every output of `formatLot` has '.' at both separator positions |
| Lot.FormatLotInjective | src/App.tsx:51-58 | different lots never format to the same string |
| Lot.FormatLotAddsTwoSeparators | src/App.tsx:57 | a non-empty lot gains exactly two '.' characters |
| Lot.EighteenCharacterLot | src/App.tsx:54-56 | an 18-character lot formats to 20 characters, with groups of 7, 8 and 3 characters around '.' at 7 and 16; these are the only dots when the lot has none |
| Catalog.LookupProduct | src/App.tsx:12-21 | a product is found exactly for the two literal supplier codes, with their product name and SAP number |
| Catalog.LookupMold | src/App.tsx:23-27 | a mould is found exactly for `"001"` |
| Catalog.ProductKeysHaveNineCharacters | src/App.tsx:12-21 | every key of `db` has nine characters |
| Decode.Classify | src/App.tsx:63-65 | an attempt is exactly one of: `NotFoundException` (keep scanning), another error (close), the wrong format (close), or the expected format (accept its text) |
| Decode.SupplierCodeField | src/App.tsx:67 | the supplier code is `text[min(14,n)..min(23,n)]` |
| Decode.LotField | src/App.tsx:68 | the raw lot is `text[min(26,n)..min(44,n)]` |
| Decode.FullLengthFields | src/App.tsx:67-70 | a payload of 44 or more characters gives `text[14..23]` as the code and `text[26..44]` as the lot, which formats into groups `text[26..33]`, `text[33..41]`, `text[41..44]` |
| Decode.ShortTextFields | src/App.tsx:67-68 | a payload of 14 or fewer characters gives an empty code; 26 or fewer gives an empty lot, which stays empty after formatting |
| Decode.ShortTextSelectsNoProduct | src/App.tsx:67-74 | a DataMatrix payload shorter than 23 characters never gives a code found in `db` |
| Decode.FieldsOfLayout | src/App.tsx:67-68 | a payload laid out as 14, 9, 3 and 18 characters plus any tail gives its 9-character part as the code and its 18-character part as the lot |
| Lot.FormatOfGroups | src/App.tsx:54-57 | a lot made of a 7-character group, an 8-character group and a rest formats to those three groups joined by '.' |
| Decode.ExamplePayload | src/App.tsx:65-73 | a 44-character DataMatrix payload is accepted and gives code `821464003`, lot `1234567.ABCDEFGH.123` and product "Carpete 598" |
| Decode.FiftyTwoCharacterPayload | src/App.tsx:67-70 | the 52-character payload above gives code `214640030`, raw lot `00000001234567ABCD` and formatted lot `0000000.1234567A.BCD` |
| App.App.constructor | src/App.tsx:33-41 | the form starts with empty inputs, no selected product or mould, and no close request |
| App.App.SupplierCodeEffect | src/App.tsx:44-48 | the product is selected when the supplier code is a key of `db`; otherwise the previous selection stays |
| App.App.EditSupplierCode | src/App.tsx:97 | typing a code sets it and, through the effect, selects the product when the code is a key of `db` |
| App.App.ClickClose | src/App.tsx:75 | each call adds exactly one close request |
| App.App.OnReadDataMatrix | src/App.tsx:61-76 | `NotFoundException` changes nothing and does not close; another error or a format other than 5 closes once and leaves every field alone; format 5 sets the sliced code and the formatted lot, selects the product only for a key of `db`, and closes once; close is requested exactly when the attempt is not a `NotFoundException` |
| App.App.OnReadQrCode | src/App.tsx:78-89 | the same three early exits for format 11; a QR success selects the mould only when the whole text is a key of `molds`, changes no other field, and closes once |
| Scanner.SelectDevice | src/Scanner.tsx:27-31 | no device is chosen exactly when the list is empty |
| Scanner.LastDeviceWins | src/Scanner.tsx:31 | the device chosen is the last one enumerated, whatever comes before it |
| Scanner.StartedState | src/Scanner.tsx:24-34 | a new reader decodes exactly when enumeration succeeds with a non-empty list and binding succeeds; it then decodes on the selected device for the given callback, and it is never reset |
| Scanner.StartError | src/Scanner.tsx:35-37 | the caught error is logged: the enumeration's rejection reason, or the bind error when the list is non-empty; nothing otherwise |
| Scanner.EmptyListStartsNothing | src/Scanner.tsx:27-29 | an empty device list leaves the new reader not decoding and logs nothing |
| Scanner.Stopped | src/Scanner.tsx:17-21 | stopping resets the current reader, if one exists, and leaves every other reader as it was |
| Scanner.StopIdempotent | src/Scanner.tsx:17-21 | stopping twice is the same as stopping once |
| Scanner.StopSparesEarlierReaders | src/Scanner.tsx:17-24 | a reader created before the current one is never reset by a stop |
| Scanner.ScannerModule.constructor | src/Scanner.tsx:13 | `codeReader` is unset before any start |
| Scanner.ScannerModule.StartCamera | src/Scanner.tsx:23-38 | every start appends a fresh reader and points `codeReader` at it; earlier readers are left as they were; its state and the error log follow the enumeration and bind results; no failure is raised |
| Scanner.ScannerModule.StopCamera | src/Scanner.tsx:17-21 | before any start, stop is a no-op; otherwise only the reader `codeReader` holds is reset |
| Scanner.ScannerModule.OnOpenChange | src/Scanner.tsx:41-43 | closing the dialog stops the camera; opening it changes nothing |
| Scanner.ScannerModule.OnTriggerClick | src/Scanner.tsx:44 | the trigger click is what starts a camera, with the same effect as a start |

## Left out

- JSX rendering and UI components (Dialog, Button, Input, the video element) are not modelled. The close button's DOM click is a counter of close requests. Whether `closeBtn.current` is null at that moment is not modelled.
- The lot input's `onChange` (src/App.tsx:105) is not modelled. It is a plain state setter.
- src/Report.tsx is not modelled. It is database queries and spreadsheet writing.
- src/index.tsx (server setup) and src/routes.tsx (router wiring) are not modelled.
- zxing's `BrowserMultiFormatReader`, `listVideoInputDevices`, `decodeFromVideoDevice` and `reset` are treated as abstract operations. Their results are parameters: the enumeration outcome and an optional bind error.
- Frame delivery from a decoding reader to its callback is not modelled. Each callback is a method taking one attempt.
- A close click closes the dialog, and closing the dialog reaches `OnOpenChange(false)`. The two classes are not joined, so this chain is not modelled. `closeClicks` counts the requests only.
- Scanner.StartedState: a reader whose `decodeFromVideoDevice` rejects is modelled as merely created. What zxing leaves behind in that case is not modelled.
- Asynchronous timing is not modelled: the un-awaited `startCamera`, a stop that arrives between enumeration and binding, and frames that arrive between a close click and `reset`.
- React's batching of state updates and the effect's scheduling after render are not modelled. The effect runs at the end of the handler that changed the code.
- JavaScript `in` on prototype keys (such as `"__proto__" in db`) is not modelled. `db` and `molds` are maps with exactly their literal keys.
- A JavaScript string is modelled as a sequence of Unicode scalar values. This matches JavaScript's UTF-16 code units only for text inside the Basic Multilingual Plane. JavaScript counts a character above U+FFFF as two code units, so in such a payload the fixed offsets would fall elsewhere. Such payloads are not modelled.
- The offsets 14, 23, 26 and 44 are kept as constants. No payload standard is inferred from them.
