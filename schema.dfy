/** The JSON message and response bodies shared between the services. Every
    field is nullable, as in the Kotlin data classes. The files disagree on
    some field names (a sale's seller is `user` in some, `seller` in others;
    the news converter writes an `id` the news DTO file does not declare);
    each DTO here carries every name some file uses, so that each operation
    reads exactly the field its own file names. */
module Schema {
  import opened Common

  datatype SaleDto = SaleDto(
    id: Option<int>,
    user: Option<string>,
    seller: Option<string>,
    book: Option<int>,
    price: Option<int>,
    condition: Option<string>)

  datatype NewsDto = NewsDto(
    id: Option<int>,
    sale: Option<int>,
    sellerName: Option<string>,
    bookTitle: Option<string>,
    bookPrice: Option<int>,
    bookCondition: Option<string>)

  /** Published on "user-created" and returned by the seller directory. */
  datatype SellerDto = SellerDto(
    username: Option<string>,
    name: Option<string>,
    email: Option<string>,
    sales: Option<seq<int>>)

  datatype UserDto = UserDto(
    username: Option<string>,
    name: Option<string>,
    email: Option<string>,
    sales: Option<seq<int>>)

  /** The book service's response, as the sale service reads it. */
  datatype BookDto = BookDto(
    id: Option<int>,
    title: Option<string>,
    author: Option<string>,
    condition: Option<string>)

  datatype ProducerDto = ProducerDto(name: Option<string>, id: Option<int>)

  datatype ConsumerDto = ConsumerDto(name: Option<string>, id: Option<int>)
}
