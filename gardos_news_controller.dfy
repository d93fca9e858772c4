/** The news feed (no.gardos): its listener builds an entry straight from a
    sale message. */
module GardosNewsApi {
  import opened Common
  import opened Schema
  import opened NewsConverter
  import Decimal

  /** `sale.book.toString()` on a nullable `Long`: "null" for null. */
  function BookText(book: Option<int>): string
  {
    if book.None? then "null" else Decimal.LongText(book.value)
  }

  class NewsController {
    var newsRepo: seq<News>
    var nextId: int

    ghost predicate Valid()
      reads this
    {
      IdsBelow(newsRepo, nextId)
    }

    constructor (initial: seq<News>, next: int)
      requires IdsBelow(initial, next)
      ensures Valid()
      ensures newsRepo == initial && nextId == next
    {
      newsRepo := initial;
      nextId := next;
    }

    /** The listener: one entry with sale = id, sellerName = user,
        bookTitle = the decimal text of the book id, bookPrice = price.
        A failing save is swallowed and nothing is added. */
    method RabbitMq(sale: SaleDto, saveFails: bool)
      requires Valid()
      modifies this
      ensures Valid()
      ensures saveFails ==> newsRepo == old(newsRepo) && nextId == old(nextId)
      ensures !saveFails ==> forall e :: e in old(newsRepo) ==> e.id != Some(old(nextId))
      ensures !saveFails ==>
        newsRepo == old(newsRepo) + [News(Some(old(nextId)), sale.id, sale.user, Some(BookText(sale.book)), sale.price, None)]
        && nextId == old(nextId) + 1
    {
      if saveFails {
        return;
      }
      newsRepo := newsRepo + [News(Some(nextId), sale.id, sale.user, Some(BookText(sale.book)), sale.price, None)];
      nextId := nextId + 1;
    }

    /** GET /news: every entry, converted, in store order. */
    method GetAllNews() returns (status: int, body: seq<NewsDto>)
      ensures status == 200
      ensures |body| == |newsRepo|
      ensures forall i :: 0 <= i < |body| ==> body[i] == Transform(newsRepo[i])
    {
      return 200, TransformList(newsRepo);
    }
  }

  /** The stored title is the book id written in decimal: it parses back to the id. */
  lemma BookTitleIsBookId(book: int)
    ensures var s := BookText(Some(book));
      s != [] && (forall i :: 0 < i < |s| ==> Decimal.IsDigit(s[i])) && (s[0] == '-' || Decimal.IsDigit(s[0]))
      && Decimal.ParseLong(s) == book
  {
    Decimal.LongTextRoundTrip(book);
  }
}
