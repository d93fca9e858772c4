/** The news service's entity and its conversion to the wire DTO. */
module NewsConverter {
  import opened Common
  import opened Schema
  import Lists

  /** A news feed entry (`News.kt`). */
  datatype News = News(
    id: Option<int>,
    sale: Option<int>,
    sellerName: Option<string>,
    bookTitle: Option<string>,
    bookPrice: Option<int>,
    bookCondition: Option<string>)

  /** Every stored entry has a generated id below `next`, the id the
      repository hands out next; so `next` is fresh. */
  ghost predicate IdsBelow(entries: seq<News>, next: int)
  {
    forall i :: 0 <= i < |entries| ==> entries[i].id.Some? && entries[i].id.value < next
  }

  /** `transform(news)`: copies five fields; `bookCondition` is not passed on. */
  function Transform(news: News): NewsDto
  {
    NewsDto(
      id := news.id, sale := news.sale, sellerName := news.sellerName,
      bookTitle := news.bookTitle, bookPrice := news.bookPrice, bookCondition := None)
  }

  /** The DTO never carries a condition, and two entries that differ only in
      their condition are indistinguishable once converted; every other field
      survives. */
  lemma TransformDropsCondition(a: News, b: News)
    ensures Transform(a).bookCondition == None
    ensures Transform(a) == Transform(b) <==> a.(bookCondition := b.bookCondition) == b
  {
  }

  function TransformList(news: seq<News>): (r: seq<NewsDto>)
    ensures |r| == |news|
    ensures forall i :: 0 <= i < |news| ==> r[i] == Transform(news[i])
  {
    Lists.Map(Transform, news)
  }
}
