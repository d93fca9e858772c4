/** The event-sync protocol end to end: a message published by one service
    and consumed by the read model that listens for it. Sale creation feeds
    the news feed; registration feeds the seller and user directories (the
    fanout delivers the same user-created payload to both). */
module EventSync {
  import opened Common
  import opened Schema
  import opened ErrorHandling
  import SaleApi
  import NewsApi
  import NewsConverter
  import AuthUsers
  import GatewayApi
  import SellerApi
  import SellerConverter
  import UserApi
  import UserConverter

  /** POST /sales followed by delivery of what it published to the news
      listener. A created sale yields exactly one news entry, under a fresh
      news id, naming the stored sale, its seller and the book's title, with
      no price (the sale never stores one); any other answer publishes
      nothing and the feed is unchanged. */
  method CreateSaleFeedsNews(sales: SaleApi.SaleController, news: NewsApi.NewsController,
                             dto: SaleDto, principal: string, lookup: SaleApi.BookLookup,
                             saveError: Option<Thrown>)
    returns (status: int)
    requires sales.Valid() && news.Valid()
    modifies sales, news
    ensures sales.Valid() && news.Valid()
    ensures status != 201 ==> news.newsRepo == old(news.newsRepo)
    ensures status == 201 ==> |news.newsRepo| == |old(news.newsRepo)| + 1
    ensures status == 201 ==> news.newsRepo[..|old(news.newsRepo)|] == old(news.newsRepo)
    ensures status == 201 ==>
      var e := news.newsRepo[|news.newsRepo| - 1];
      e.id == Some(old(news.nextId)) && e.bookCondition == None
      && e.sale == Some(old(sales.nextId)) && old(sales.nextId) in sales.saleRepo
      && e.sellerName == Some(principal) && sales.saleRepo[old(sales.nextId)].seller == e.sellerName
      && lookup.Found? && e.bookTitle == lookup.book.title && e.bookPrice == None
  {
    var emitted;
    status, emitted := sales.CreateSale(dto, principal, lookup, saveError);
    if status == 201 {
      news.RabbitMq(emitted[0], false);
    }
  }

  /** POST /register followed by delivery of the user-created message to the
      seller and user directories. A 204 leaves an entry with the given
      name and email and an empty sales list under the username in both;
      a 400 publishes nothing and both directories are unchanged. */
  method RegisterFeedsDirectories(gateway: GatewayApi.AuthenticationController,
                                  sellers: SellerApi.SellerController, users: UserApi.UserController,
                                  username: string, password: string, name: string, email: string,
                                  saveFails: bool)
    returns (status: int)
    requires gateway.authUserService.Valid()
    modifies gateway.authUserService, sellers, users
    ensures status == 204 || status == 400
    ensures status != 204 ==> sellers.sellerRepo == old(sellers.sellerRepo) && users.userRepo == old(users.userRepo)
    ensures status == 204 ==> sellers.sellerRepo == old(sellers.sellerRepo)[username :=
      SellerConverter.Seller(Some(username), Some(name), Some(email), Some([]))]
    ensures status == 204 ==> users.userRepo == old(users.userRepo)[username :=
      UserConverter.User(Some(username), Some(name), Some(email), Some([]))]
  {
    var emitted;
    status, emitted := gateway.Register(username, password, name, email, saveFails);
    if status == 204 {
      var m := emitted[0];
      sellers.UserCreatedEvent(m, false);
      users.UserCreatedEvent(UserDto(m.username, m.name, m.email, m.sales), false);
    }
  }
}
