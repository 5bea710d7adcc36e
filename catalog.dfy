/**
 * The two constant lookup tables of src/App.tsx: `db`, from a 9-character
 * supplier code to a product, and `molds`, from a QR payload to a mold.
 * Each is a finite map with exactly its literal keys.
 */
module Catalog {
  import opened Wrappers

  datatype Product = Product(product: string, sap: string)
  datatype Mold = Mold(name: string)

  const Db: map<string, Product> := map[
    "821464003" := Product("Carpete 598", "311010016.00"),
    "741102005" := Product("Carpete 226", "601020011.00")
  ]

  const Molds: map<string, Mold> := map[
    "001" := Mold("Mold. Carpete 598")
  ]

  /** `code in db ? db[code] : (no selection)`. */
  function LookupProduct(code: string): (p: Option<Product>)
    ensures p.Some? <==> code == "821464003" || code == "741102005"
    ensures code == "821464003" ==> p == Some(Product("Carpete 598", "311010016.00"))
    ensures code == "741102005" ==> p == Some(Product("Carpete 226", "601020011.00"))
  {
    if code in Db then Some(Db[code]) else None
  }

  /** `code in molds ? molds[code] : (no selection)`. */
  function LookupMold(code: string): (m: Option<Mold>)
    ensures m.Some? <==> code == "001"
    ensures m.Some? ==> m.value.name == "Mold. Carpete 598"
  {
    if code in Molds then Some(Molds[code]) else None
  }

  /** Every supplier code known to `db` has exactly nine characters. */
  lemma ProductKeysHaveNineCharacters(code: string)
    requires code in Db
    ensures |code| == 9
  {
  }
}
