/** The book service (no.exam). Books live under generated ids. A PATCH
    body is a JSON merge patch: a field names a new text, `null` clears the
    field, an absent field is left alone, any other kind of value is
    refused. */
module BookApi {
  import opened Common
  import opened Store

  /** The stored entity as this controller writes it (fields `title`,
      `author`, `edition`); the id is the key it is stored under. */
  datatype Book = Book(title: Option<string>, author: Option<string>, edition: Option<string>)

  /** The request body as this controller reads it: `dto.id`, `dto.title`,
      `dto.author`, `dto.edition`. */
  datatype BookBody = BookBody(id: Option<int>, title: Option<string>, author: Option<string>, edition: Option<string>)

  /** One value of a parsed JSON object, as far as the patch looks at it. */
  datatype JsonNode = Null | Text(text: string) | Other

  /** The PATCH body after `ObjectMapper().readValue`: it either fails to
      parse or yields an object of named values. */
  datatype PatchBody = Unparsable | Object(fields: map<string, JsonNode>)

  /** A field the patch may apply: absent, null or text. */
  predicate Applicable(fields: map<string, JsonNode>, key: string)
  {
    key !in fields || !fields[key].Other?
  }

  /** The value a field has after the patch. */
  function Patched(current: Option<string>, fields: map<string, JsonNode>, key: string): (r: Option<string>)
    requires Applicable(fields, key)
    ensures key !in fields ==> r == current
    ensures key in fields && fields[key] == Null ==> r == None
    ensures key in fields && fields[key].Text? ==> r == Some(fields[key].text)
  {
    if key !in fields then current
    else match fields[key]
      case Null => None
      case Text(s) => Some(s)
  }

  /** The patch is accepted: it parses, names no id, and every book field
      it names is null or text. */
  predicate Accepted(body: PatchBody)
  {
    body.Object? && "id" !in body.fields
    && Applicable(body.fields, "title") && Applicable(body.fields, "author")
    && Applicable(body.fields, "edition")
  }

  /** The book after an accepted patch. */
  function ApplyPatch(book: Book, body: PatchBody): Book
    requires Accepted(body)
  {
    Book(Patched(book.title, body.fields, "title"),
         Patched(book.author, body.fields, "author"),
         Patched(book.edition, body.fields, "edition"))
  }

  /** Applying the same accepted patch twice is the same as applying it once. */
  lemma {:induction false} ApplyPatchIdempotent(book: Book, body: PatchBody)
    requires Accepted(body)
    ensures ApplyPatch(ApplyPatch(book, body), body) == ApplyPatch(book, body)
  {
  }

  /** A patch naming no book field changes nothing. */
  lemma ApplyEmptyPatch(book: Book, body: PatchBody)
    requires Accepted(body)
    requires "title" !in body.fields && "author" !in body.fields && "edition" !in body.fields
    ensures ApplyPatch(book, body) == book
  {
  }

  class BookController {
    /** `bookRepo`: books keyed by their generated id. */
    var bookRepo: map<int, Book>
    var nextId: int

    ghost predicate Valid()
      reads this
    {
      IdsBelow(bookRepo, nextId)
    }

    constructor ()
      ensures Valid() && bookRepo == map[] && nextId == 1
    {
      bookRepo := map[];
      nextId := 1;
    }

    /** `bookRepo.save` of a book without an id: a fresh id is generated. */
    method Insert(book: Book) returns (id: int)
      requires Valid()
      modifies this
      ensures Valid()
      ensures id == old(nextId) && id !in old(bookRepo)
      ensures bookRepo == old(bookRepo)[id := book] && nextId == old(nextId) + 1
    {
      id := nextId;
      bookRepo := bookRepo[id := book];
      nextId := nextId + 1;
    }

    /** POST /books: 400 and nothing stored when the body names an id;
        otherwise exactly one book stored under a fresh id, and 201. */
    method CreateBook(dto: BookBody) returns (status: int)
      requires Valid()
      modifies this
      ensures Valid()
      ensures status == 400 || status == 201
      ensures status == 400 <==> dto.id.Some?
      ensures status == 400 ==> bookRepo == old(bookRepo) && nextId == old(nextId)
      ensures status == 201 ==> old(nextId) !in old(bookRepo) && nextId == old(nextId) + 1
      ensures status == 201 ==> bookRepo == old(bookRepo)[old(nextId) := Book(dto.title, dto.author, dto.edition)]
    {
      if dto.id.Some? {
        return 400;
      }
      var _ := Insert(Book(dto.title, dto.author, dto.edition));
      return 201;
    }

    /** PUT /books/{id}: 409 and nothing stored when the body's id is not
        the path id; otherwise the book is written under the path id when
        that id exists (204), else under a fresh id (201). */
    method ReplaceBook(pathId: int, dto: BookBody) returns (status: int)
      requires Valid()
      modifies this
      ensures Valid()
      ensures status == 409 <==> dto.id != Some(pathId)
      ensures status == 409 ==> bookRepo == old(bookRepo) && nextId == old(nextId)
      ensures status == 204 <==> dto.id == Some(pathId) && pathId in old(bookRepo)
      ensures status == 204 ==> bookRepo == old(bookRepo)[pathId := Book(dto.title, dto.author, dto.edition)]
      ensures status == 204 ==> nextId == old(nextId)
      ensures status == 201 <==> dto.id == Some(pathId) && pathId !in old(bookRepo)
      ensures status == 201 ==> old(nextId) !in old(bookRepo) && nextId == old(nextId) + 1
      ensures status == 201 ==> bookRepo == old(bookRepo)[old(nextId) := Book(dto.title, dto.author, dto.edition)]
    {
      if dto.id != Some(pathId) {
        return 409;
      }
      var book := Book(dto.title, dto.author, dto.edition);
      var id: Option<int> := None;
      if pathId in bookRepo {
        id := dto.id;
      }
      status := if id.None? then 201 else 204;
      if id.Some? {
        bookRepo := bookRepo[id.value := book];
      } else {
        var _ := Insert(book);
      }
    }

    /** PATCH /books/{id}: 404 for a missing id, 400 for a body that does
        not parse, 409 for a body naming an id, 400 for a field holding
        anything but null or text; nothing is saved in any of those cases.
        Otherwise the merged book is saved under the same id, and 204. */
    method UpdateBook(pathId: int, body: PatchBody) returns (status: int)
      requires Valid()
      modifies this
      ensures Valid() && nextId == old(nextId)
      ensures status == 404 <==> pathId !in old(bookRepo)
      ensures status == 409 <==> pathId in old(bookRepo) && body.Object? && "id" in body.fields
      ensures status == 204 <==> pathId in old(bookRepo) && Accepted(body)
      ensures status == 404 || status == 400 || status == 409 || status == 204
      ensures status != 204 ==> bookRepo == old(bookRepo)
      ensures status == 204 ==> bookRepo == old(bookRepo)[pathId := ApplyPatch(old(bookRepo)[pathId], body)]
    {
      if pathId !in bookRepo {
        return 404;
      }
      var updatedBook := bookRepo[pathId];
      if body.Unparsable? {
        return 400;
      }
      var jsonNode := body.fields;
      if "id" in jsonNode {
        return 409;
      }
      if "title" in jsonNode {
        match jsonNode["title"]
        case Null => updatedBook := updatedBook.(title := None);
        case Text(s) => updatedBook := updatedBook.(title := Some(s));
        case Other => return 400;
      }
      if "author" in jsonNode {
        match jsonNode["author"]
        case Null => updatedBook := updatedBook.(author := None);
        case Text(s) => updatedBook := updatedBook.(author := Some(s));
        case Other => return 400;
      }
      if "edition" in jsonNode {
        match jsonNode["edition"]
        case Null => updatedBook := updatedBook.(edition := None);
        case Text(s) => updatedBook := updatedBook.(edition := Some(s));
        case Other => return 400;
      }
      bookRepo := bookRepo[pathId := updatedBook];
      return 204;
    }

    /** DELETE /books/{id}: 404 for a missing id, else that book removed and 204. */
    method DeleteBook(pathId: int) returns (status: int)
      requires Valid()
      modifies this
      ensures Valid() && nextId == old(nextId)
      ensures pathId !in old(bookRepo) ==> status == 404 && bookRepo == old(bookRepo)
      ensures pathId in old(bookRepo) ==> status == 204 && bookRepo == old(bookRepo) - {pathId}
    {
      if pathId !in bookRepo {
        return 404;
      }
      bookRepo := bookRepo - {pathId};
      return 204;
    }
  }

  /** A patch that clears only the title keeps author and edition; a patch
      whose title is a number is refused and changes nothing. */
  method PatchScenario(title: string, author: string, edition: string)
    returns (cleared: int, refused: int, after: Book)
    ensures cleared == 204 && refused == 400
    ensures after == Book(None, Some(author), Some(edition))
  {
    var c := new BookController();
    var created := c.CreateBook(BookBody(None, Some(title), Some(author), Some(edition)));
    cleared := c.UpdateBook(1, Object(map["title" := Null]));
    refused := c.UpdateBook(1, Object(map["title" := Other]));
    after := c.bookRepo[1];
  }
}
