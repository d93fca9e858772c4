/** The book service's entity (`Book.kt`) and its conversion to the wire DTO. */
module BookConverter {
  import opened Common
  import opened Schema
  import Lists

  datatype Book = Book(
    id: Option<int>,
    title: Option<string>,
    author: Option<string>,
    condition: Option<string>)

  function Transform(book: Book): BookDto
  {
    BookDto(book.id, book.title, book.author, book.condition)
  }

  /** Id, title, author and condition all survive. */
  lemma TransformKeepsEveryField(a: Book, b: Book)
    ensures Transform(a) == Transform(b) ==> a == b
  {
  }

  function TransformList(books: seq<Book>): (r: seq<BookDto>)
    ensures |r| == |books|
    ensures forall i :: 0 <= i < |books| ==> r[i] == Transform(books[i])
  {
    Lists.Map(Transform, books)
  }
}
