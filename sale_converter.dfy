/** The sale service's entity and its conversion to the wire DTO. */
module SaleConverter {
  import opened Common
  import opened Schema
  import Lists

  /** The persisted sale (`Sale.kt`). */
  datatype Sale = Sale(
    id: Option<int>,
    seller: Option<string>,
    book: Option<int>,
    price: Option<int>,
    condition: Option<string>)

  /** `transform(sale)`: a field-by-field copy; the DTO's `user` is left null. */
  function Transform(sale: Sale): SaleDto
  {
    SaleDto(
      id := sale.id, user := None, seller := sale.seller,
      book := sale.book, price := sale.price, condition := sale.condition)
  }

  /** Every field of the entity survives: distinct sales give distinct DTOs. */
  lemma TransformKeepsEveryField(a: Sale, b: Sale)
    ensures Transform(a) == Transform(b) ==> a == b
    ensures Transform(a).user == None
  {
  }

  /** `transform(sales)`: element i of the result is the transform of element i. */
  function TransformList(sales: seq<Sale>): (r: seq<SaleDto>)
    ensures |r| == |sales|
    ensures forall i :: 0 <= i < |sales| ==> r[i] == Transform(sales[i])
  {
    Lists.Map(Transform, sales)
  }
}
