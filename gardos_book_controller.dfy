/** The book service (no.gardos). Replacing needs a matching id and an
    existing book; a PATCH overwrites the fields the body sets and keeps
    those it leaves null. */
module GardosBookApi {
  import opened Common
  import opened Schema
  import opened Store

  /** The stored entity (fields `title`, `author`, `condition`); the id is
      the key it is stored under. */
  datatype Book = Book(title: Option<string>, author: Option<string>, condition: Option<string>)

  /** A field after the PATCH: the body's value when it sets one, else the old value. */
  function Overwrite(current: Option<string>, given: Option<string>): (r: Option<string>)
    ensures given.Some? ==> r == given
    ensures given.None? ==> r == current
  {
    if given.Some? then given else current
  }

  /** The book after a PATCH with `dto`. */
  function Merge(book: Book, dto: BookDto): Book
  {
    Book(Overwrite(book.title, dto.title), Overwrite(book.author, dto.author),
         Overwrite(book.condition, dto.condition))
  }

  /** Merging the same body twice is merging it once, and a body that sets
      every field replaces the book outright. */
  lemma MergeProperties(book: Book, dto: BookDto)
    ensures Merge(Merge(book, dto), dto) == Merge(book, dto)
    ensures dto.title.Some? && dto.author.Some? && dto.condition.Some? ==>
      Merge(book, dto) == Book(dto.title, dto.author, dto.condition)
  {
  }

  class BookController {
    /** `bookRepo`: books keyed by their generated id. */
    var bookRepo: map<int, Book>
    var nextId: int

    ghost predicate Valid()
      reads this
    {
      IdsBelow(bookRepo, nextId)
    }

    constructor ()
      ensures Valid() && bookRepo == map[] && nextId == 1
    {
      bookRepo := map[];
      nextId := 1;
    }

    /** POST /books: 400 and nothing stored when the body names an id;
        otherwise exactly one book stored under a fresh id, and 201. */
    method CreateBook(dto: BookDto) returns (status: int)
      requires Valid()
      modifies this
      ensures Valid()
      ensures status == 400 <==> dto.id.Some?
      ensures status == 400 ==> bookRepo == old(bookRepo) && nextId == old(nextId)
      ensures status != 400 ==> status == 201 && old(nextId) !in old(bookRepo) && nextId == old(nextId) + 1
      ensures status != 400 ==> bookRepo == old(bookRepo)[old(nextId) := Book(dto.title, dto.author, dto.condition)]
    {
      if dto.id.Some? {
        return 400;
      }
      bookRepo := bookRepo[nextId := Book(dto.title, dto.author, dto.condition)];
      nextId := nextId + 1;
      return 201;
    }

    /** PUT /books/{id}: 409 when the body's id is not the path id, checked
        before 404 for a missing id; both store nothing. Otherwise the book
        under the path id is overwritten, and 204. */
    method ReplaceBook(pathId: int, dto: BookDto) returns (status: int)
      requires Valid()
      modifies this
      ensures Valid() && nextId == old(nextId)
      ensures status == 409 <==> dto.id != Some(pathId)
      ensures status == 404 <==> dto.id == Some(pathId) && pathId !in old(bookRepo)
      ensures status == 204 <==> dto.id == Some(pathId) && pathId in old(bookRepo)
      ensures status != 204 ==> bookRepo == old(bookRepo)
      ensures status == 204 ==> bookRepo == old(bookRepo)[pathId := Book(dto.title, dto.author, dto.condition)]
    {
      if dto.id != Some(pathId) {
        return 409;
      }
      if pathId !in bookRepo {
        return 404;
      }
      bookRepo := bookRepo[pathId := Book(dto.title, dto.author, dto.condition)];
      return 204;
    }

    /** PATCH /books/{id}: 404 for a missing id; otherwise every field the
        body sets overwrites the stored one, the others are kept, and 204. */
    method UpdateBook(pathId: int, dto: BookDto) returns (status: int)
      requires Valid()
      modifies this
      ensures Valid() && nextId == old(nextId)
      ensures pathId !in old(bookRepo) ==> status == 404 && bookRepo == old(bookRepo)
      ensures pathId in old(bookRepo) ==> status == 204
      ensures pathId in old(bookRepo) ==> bookRepo == old(bookRepo)[pathId := Merge(old(bookRepo)[pathId], dto)]
    {
      if pathId !in bookRepo {
        return 404;
      }
      var updatedBook := bookRepo[pathId];
      if dto.title.Some? {
        updatedBook := updatedBook.(title := dto.title);
      }
      if dto.author.Some? {
        updatedBook := updatedBook.(author := dto.author);
      }
      if dto.condition.Some? {
        updatedBook := updatedBook.(condition := dto.condition);
      }
      bookRepo := bookRepo[pathId := updatedBook];
      return 204;
    }

    /** DELETE /books/{id}: 404 for a missing id, else that book removed and 204. */
    method DeleteBook(pathId: int) returns (status: int)
      requires Valid()
      modifies this
      ensures Valid() && nextId == old(nextId)
      ensures pathId !in old(bookRepo) ==> status == 404 && bookRepo == old(bookRepo)
      ensures pathId in old(bookRepo) ==> status == 204 && bookRepo == old(bookRepo) - {pathId}
    {
      if pathId !in bookRepo {
        return 404;
      }
      bookRepo := bookRepo - {pathId};
      return 204;
    }
  }

  /** A replace whose body id differs from the path answers 409 even when
      the path id is missing; a PATCH setting only the author keeps the title. */
  method ReplaceAndPatchScenario(title: string, author: string, condition: string, other: string)
    returns (mismatch: int, patched: int, after: Book)
    ensures mismatch == 409 && patched == 204
    ensures after == Book(Some(title), Some(other), Some(condition))
  {
    var c := new BookController();
    mismatch := c.ReplaceBook(7, BookDto(Some(8), None, None, None));
    var created := c.CreateBook(BookDto(None, Some(title), Some(author), Some(condition)));
    patched := c.UpdateBook(1, BookDto(None, None, Some(other), None));
    after := c.bookRepo[1];
  }
}
