/** The sale service: the source of truth for sales. Creating a sale checks
    the body, resolves the book through the book service, stores the sale
    and then publishes one news message; the other endpoints read, "update"
    and delete sales without publishing anything. */
module SaleApi {
  import opened Common
  import opened Schema
  import opened SaleConverter
  import opened ErrorHandling
  import opened Store

  /** A 4xx status, the only kind `HttpClientErrorException` carries. */
  type ClientStatus = s: int | 400 <= s < 500 witness 404

  /** The outcome of `restTemplate.getForObject("$bookServerPath/${dto.book}")`. */
  datatype BookLookup = Found(book: BookDto) | ClientError(status: ClientStatus)

  class SaleController {
    /** `saleRepo`: sales keyed by their generated id. */
    var saleRepo: map<int, Sale>
    var nextId: int

    ghost predicate Valid()
      reads this
    {
      IdsBelow(saleRepo, nextId) && forall k :: k in saleRepo ==> saleRepo[k].id == Some(k)
    }

    constructor ()
      ensures Valid() && saleRepo == map[] && nextId == 1
    {
      saleRepo := map[];
      nextId := 1;
    }

    /** GET /sales/{id}: 404 for a missing id, else 200 and the sale. */
    method GetSale(pathId: int) returns (status: int, body: Option<SaleDto>)
      ensures pathId !in saleRepo ==> status == 404 && body == None
      ensures pathId in saleRepo ==> status == 200 && body == Some(Transform(saleRepo[pathId]))
    {
      if pathId !in saleRepo {
        return 404, None;
      }
      return 200, Some(Transform(saleRepo[pathId]));
    }

    /** GET /sales/books/{id}: 200 with exactly the sales of that book, also
        when there are none (the 204 the code builds is never returned). */
    method GetSalesForBook(pathId: int) returns (status: int, body: set<SaleDto>)
      requires Valid()
      ensures status == 200
      ensures forall d :: d in body ==>
        d.book == Some(pathId) && d.id.Some? && d.id.value in saleRepo && d == Transform(saleRepo[d.id.value])
      ensures forall k :: k in saleRepo && saleRepo[k].book == Some(pathId) ==> Transform(saleRepo[k]) in body
    {
      var sales := set k | k in saleRepo && saleRepo[k].book == Some(pathId) :: Transform(saleRepo[k]);
      return 200, sales;
    }

    /** GET /sales/users/{username}: 200 with exactly that seller's sales. */
    method GetSalesForUser(pathId: string) returns (status: int, body: set<SaleDto>)
      requires Valid()
      ensures status == 200
      ensures forall d :: d in body ==>
        d.seller == Some(pathId) && d.id.Some? && d.id.value in saleRepo && d == Transform(saleRepo[d.id.value])
      ensures forall k :: k in saleRepo && saleRepo[k].seller == Some(pathId) ==> Transform(saleRepo[k]) in body
    {
      var sales := set k | k in saleRepo && saleRepo[k].seller == Some(pathId) :: Transform(saleRepo[k]);
      return 200, sales;
    }

    /** POST /sales. The body must name neither an id nor a user (400); a
        client error from the book lookup is passed on with its status; an
        exception from the save is answered by the exception handler. Only
        when all of that passes is one sale stored, with the principal as
        seller and the looked-up book's id (the body's price and condition
        are not copied), and then one message published carrying the new
        sale's id, its seller, the book's title and the stored price. */
    method CreateSale(dto: SaleDto, principal: string, lookup: BookLookup, saveError: Option<Thrown>)
      returns (status: int, emitted: seq<NewsDto>)
      requires Valid()
      modifies this
      ensures Valid()
      ensures dto.id.Some? ==> status == 400
      ensures dto.id.None? && dto.user.Some? ==> status == 400
      ensures dto.id.None? && dto.user.None? && lookup.ClientError? ==> status == lookup.status
      ensures dto.id.None? && dto.user.None? && lookup.Found? && saveError.Some? ==>
        (status == 400 || status == 500) &&
        (status == 400 <==> Handled(saveError.value.ex) && exists i :: 0 <= i < 5 && ViolationAt(saveError.value, i))
      ensures status == 201 <==> dto.id.None? && dto.user.None? && lookup.Found? && saveError.None?
      ensures status != 201 ==> saleRepo == old(saleRepo) && nextId == old(nextId) && emitted == []
      ensures status == 201 ==>
        var id := old(nextId);
        id !in old(saleRepo) && nextId == id + 1
        && saleRepo == old(saleRepo)[id := Sale(Some(id), Some(principal), lookup.book.id, None, None)]
        && emitted == [NewsDto(None, Some(id), Some(principal), lookup.book.title, saleRepo[id].price, None)]
    {
      if dto.id.Some? {
        return 400, [];
      }
      if dto.user.Some? {
        return 400, [];
      }
      if lookup.ClientError? {
        return lookup.status, [];
      }
      var book := lookup.book;
      if saveError.Some? {
        status := ErrorResponse(saveError.value);
        return status, [];
      }
      var id := nextId;
      var sale := Sale(Some(id), Some(principal), book.id, None, None);
      saleRepo := saleRepo[id := sale];
      nextId := nextId + 1;
      var newsDto := NewsDto(None, sale.id, sale.seller, book.title, sale.price, None);
      emitted := [newsDto];
      status := 201;
    }

    /** PATCH /sales/{id}: 404 for a missing id. Otherwise the code saves a
        new, empty `Sale()` (a fresh id, every other field null) and ignores
        the price. An exception from that save (the entity's `@NotNull`
        fields reject it when validation runs) is answered by the exception
        handler and stores nothing; a save that goes through leaves the
        addressed sale as it was and answers 200 with the new entry. */
    method UpdatePrice(pathId: int, price: int, saveError: Option<Thrown>) returns (status: int, body: Option<SaleDto>)
      requires Valid()
      modifies this
      ensures Valid()
      ensures pathId !in old(saleRepo) ==>
        status == 404 && body == None && saleRepo == old(saleRepo) && nextId == old(nextId)
      ensures pathId in old(saleRepo) && saveError.Some? ==>
        (status == 400 || status == 500) &&
        (status == 400 <==> Handled(saveError.value.ex) && exists i :: 0 <= i < 5 && ViolationAt(saveError.value, i))
      ensures pathId in old(saleRepo) && saveError.Some? ==>
        body == None && saleRepo == old(saleRepo) && nextId == old(nextId)
      ensures pathId in old(saleRepo) && saveError.None? ==>
        var id := old(nextId);
        status == 200 && id !in old(saleRepo) && nextId == id + 1
        && saleRepo == old(saleRepo)[id := Sale(Some(id), None, None, None, None)]
        && saleRepo[pathId] == old(saleRepo)[pathId]
        && body == Some(Transform(saleRepo[id]))
    {
      if pathId !in saleRepo {
        return 404, None;
      }
      if saveError.Some? {
        status := ErrorResponse(saveError.value);
        return status, None;
      }
      var id := nextId;
      var newSale := Sale(Some(id), None, None, None, None);
      saleRepo := saleRepo[id := newSale];
      nextId := nextId + 1;
      return 200, Some(Transform(newSale));
    }

    /** DELETE /sales/{id}: 404 for a missing id; otherwise removes that
        sale only and answers 204. Nothing is published. */
    method DeleteSale(pathId: int) returns (status: int)
      requires Valid()
      modifies this
      ensures Valid() && nextId == old(nextId)
      ensures pathId !in old(saleRepo) ==> status == 404 && saleRepo == old(saleRepo)
      ensures pathId in old(saleRepo) ==> status == 204 && saleRepo == old(saleRepo) - {pathId}
    {
      if pathId !in saleRepo {
        return 404;
      }
      saleRepo := saleRepo - {pathId};
      return 204;
    }
  }

  /** Create, read back, delete: the sale exists exactly between the two. */
  method CreateReadDeleteScenario(principal: string, book: BookDto) returns (created: int, read: int, deleted: int, readAgain: int)
    ensures created == 201 && read == 200 && deleted == 204 && readAgain == 404
  {
    var c := new SaleController();
    var emitted;
    created, emitted := c.CreateSale(SaleDto(None, None, None, Some(1), Some(4321), Some("newCondition")), principal, Found(book), None);
    var body;
    read, body := c.GetSale(1);
    deleted := c.DeleteSale(1);
    readAgain, body := c.GetSale(1);
  }
}
