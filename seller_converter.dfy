/** The seller directory's entity and its conversion to the wire DTO. */
module SellerConverter {
  import opened Common
  import opened Schema
  import Lists

  /** A seller directory entry: the seller and the ids of their sales, in the
      order the sale events arrived. */
  datatype Seller = Seller(
    username: Option<string>,
    name: Option<string>,
    email: Option<string>,
    sales: Option<seq<int>>)

  function Transform(seller: Seller): SellerDto
  {
    SellerDto(seller.username, seller.name, seller.email, seller.sales)
  }

  /** Username, name, email and the sales list (same ids, same order) all survive. */
  lemma TransformKeepsEveryField(a: Seller, b: Seller)
    ensures Transform(a) == Transform(b) ==> a == b
    ensures Transform(a).sales == a.sales
  {
  }

  function TransformList(sellers: seq<Seller>): (r: seq<SellerDto>)
    ensures |r| == |sellers|
    ensures forall i :: 0 <= i < |sellers| ==> r[i] == Transform(sellers[i])
  {
    Lists.Map(Transform, sellers)
  }
}
