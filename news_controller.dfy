/** The news feed (no.exam): one listener that records a news entry per
    incoming message, and the GET endpoint with its "latest ten" option. */
module NewsApi {
  import opened Common
  import opened Schema
  import opened NewsConverter
  import Lists

  class NewsController {
    /** `newsRepo`, in the order `findAll` returns it (insertion order). */
    var newsRepo: seq<News>
    /** The id the repository generates for the next entry. */
    var nextId: int

    ghost predicate Valid()
      reads this
    {
      IdsBelow(newsRepo, nextId)
    }

    constructor (initial: seq<News>, next: int)
      requires IdsBelow(initial, next)
      ensures Valid()
      ensures newsRepo == initial && nextId == next
    {
      newsRepo := initial;
      nextId := next;
    }

    /** The listener: appends one entry copying sale, sellerName, bookTitle
        and bookPrice from the message; `bookCondition` is never set. A
        failing save is swallowed and nothing is added. */
    method RabbitMq(news: NewsDto, saveFails: bool)
      requires Valid()
      modifies this
      ensures Valid()
      ensures saveFails ==> newsRepo == old(newsRepo) && nextId == old(nextId)
      ensures !saveFails ==> forall e :: e in old(newsRepo) ==> e.id != Some(old(nextId))
      ensures !saveFails ==>
        newsRepo == old(newsRepo) + [News(Some(old(nextId)), news.sale, news.sellerName, news.bookTitle, news.bookPrice, None)]
        && nextId == old(nextId) + 1
    {
      var entry := News(None, news.sale, news.sellerName, news.bookTitle, news.bookPrice, None);
      if saveFails {
        return;
      }
      newsRepo := newsRepo + [entry.(id := Some(nextId))];
      nextId := nextId + 1;
    }

    /** GET /news: every entry in store order, or with `getLatest` the last
        ten entries, newest first. */
    method GetAllNews(getLatest: bool) returns (status: int, body: seq<NewsDto>)
      ensures status == 200
      ensures !getLatest ==> |body| == |newsRepo|
      ensures !getLatest ==> forall i :: 0 <= i < |body| ==> body[i] == Transform(newsRepo[i])
      ensures getLatest ==> |body| == Min(10, |newsRepo|)
      ensures getLatest ==> forall i :: 0 <= i < |body| ==> body[i] == Transform(newsRepo[|newsRepo| - 1 - i])
    {
      var news := newsRepo;
      if getLatest {
        return 200, TransformList(Lists.Latest(news));
      }
      return 200, TransformList(news);
    }
  }

  /** The news API test's scenario: eleven stored entries, ten returned with
      the flag, the first being the most recent. */
  method LatestScenario(entries: seq<News>) returns (all: seq<NewsDto>, latest: seq<NewsDto>)
    requires |entries| == 11 && IdsBelow(entries, 12)
    ensures |all| == 11 && |latest| == 10
    ensures latest[0] == all[10] && latest[9] == all[1]
  {
    var c := new NewsController(entries, 12);
    var s;
    s, all := c.GetAllNews(false);
    s, latest := c.GetAllNews(true);
  }
}
