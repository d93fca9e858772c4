/** The seller directory: a read model of sellers and their sale ids, kept in
    step with the sale service by three event listeners, plus its GET
    endpoint. Every listener swallows whatever goes wrong and leaves the
    store as it was. */
module SellerApi {
  import opened Common
  import opened Schema
  import opened SellerConverter
  import Lists

  /** Whether `sellerRepo.findOne(key)` and `user.sales!!` succeed. */
  predicate HasSalesList(repo: map<string, Seller>, key: Option<string>)
  {
    key.Some? && key.value in repo && repo[key.value].sales.Some?
  }

  class SellerController {
    /** `sellerRepo`: sellers keyed by username. */
    var sellerRepo: map<string, Seller>

    constructor (initial: map<string, Seller>)
      ensures sellerRepo == initial
    {
      sellerRepo := initial;
    }

    /** "user-created": stores a fresh entry with an empty sales list,
        replacing any entry under the same username. A null username or a
        failing save leaves the store unchanged. */
    method UserCreatedEvent(seller: SellerDto, saveFails: bool)
      modifies this
      ensures seller.username.Some? && !saveFails ==>
        sellerRepo == old(sellerRepo)[seller.username.value :=
          Seller(seller.username, seller.name, seller.email, Some([]))]
      ensures seller.username.None? || saveFails ==> sellerRepo == old(sellerRepo)
    {
      if seller.username.None? || saveFails {
        return;
      }
      sellerRepo := sellerRepo[seller.username.value :=
        Seller(seller.username, seller.name, seller.email, Some([]))];
    }

    /** "sale-created": appends the sale id at the end of the named seller's
        list (no deduplication). A null or unknown seller, a seller without a
        list, a null id or a failing save drops the event. */
    method SaleCreatedEvent(sale: SaleDto, saveFails: bool)
      modifies this
      ensures HasSalesList(old(sellerRepo), sale.seller) && sale.id.Some? && !saveFails ==>
        var u := sale.seller.value;
        sellerRepo == old(sellerRepo)[u := old(sellerRepo)[u].(sales := Some(old(sellerRepo)[u].sales.value + [sale.id.value]))]
      ensures !(HasSalesList(old(sellerRepo), sale.seller) && sale.id.Some? && !saveFails) ==> sellerRepo == old(sellerRepo)
    {
      if !HasSalesList(sellerRepo, sale.seller) || sale.id.None? {
        return;
      }
      var user := sellerRepo[sale.seller.value];
      user := user.(sales := Some(user.sales.value + [sale.id.value]));
      if saveFails {
        return;
      }
      sellerRepo := sellerRepo[sale.seller.value := user];
    }

    /** "sale-deleted": removes the first occurrence of the id from the named
        seller's list; a null id (`remove(null)`) or an id not in the list
        removes nothing. A null or unknown seller, a seller without a list or
        a failing save drops the event. */
    method SaleDeletedEvent(sale: SaleDto, saveFails: bool)
      modifies this
      ensures HasSalesList(old(sellerRepo), sale.seller) && sale.id.Some? && !saveFails ==>
        var u := sale.seller.value;
        sellerRepo == old(sellerRepo)[u := old(sellerRepo)[u].(sales := Some(Lists.RemoveFirst(old(sellerRepo)[u].sales.value, sale.id.value)))]
      ensures !(HasSalesList(old(sellerRepo), sale.seller) && sale.id.Some? && !saveFails) ==> sellerRepo == old(sellerRepo)
    {
      if !HasSalesList(sellerRepo, sale.seller) {
        return;
      }
      var user := sellerRepo[sale.seller.value];
      if sale.id.Some? {
        user := user.(sales := Some(Lists.RemoveFirst(user.sales.value, sale.id.value)));
      }
      if saveFails {
        return;
      }
      sellerRepo := sellerRepo[sale.seller.value := user];
    }

    /** GET /sellers/{username}: 404 without an entry, else 200 and the entry. */
    method GetSellerByUsername(pathId: string) returns (status: int, body: Option<SellerDto>)
      ensures pathId !in sellerRepo ==> status == 404 && body == None
      ensures pathId in sellerRepo ==> status == 200 && body == Some(Transform(sellerRepo[pathId]))
    {
      if pathId !in sellerRepo {
        return 404, None;
      }
      var user := sellerRepo[pathId];
      return 200, Some(Transform(user));
    }
  }

  /** The seller API test's scenario: a seller with sales [1, 2] receives
      sale-created for id 3 (three sales), and separately sale-deleted for
      id 2 (one sale, the other kept). */
  method SaleEventsScenario() returns (afterCreate: seq<int>, afterDelete: seq<int>)
    ensures afterCreate == [1, 2, 3]
    ensures afterDelete == [1]
  {
    var u := "defaultUsername";
    var seller := Seller(Some(u), Some("defaultName"), Some("defaultEmail@email.com"), Some([1, 2]));
    var sale3 := SaleDto(Some(3), None, Some(u), Some(1234), Some(1234), Some("condition"));
    var sale2 := sale3.(id := Some(2));

    var c := new SellerController(map[u := seller]);
    c.SaleCreatedEvent(sale3, false);
    afterCreate := c.sellerRepo[u].sales.value;

    var d := new SellerController(map[u := seller]);
    d.SaleDeletedEvent(sale2, false);
    afterDelete := d.sellerRepo[u].sales.value;
  }

  /** A sale-created event that arrives before the seller's user-created
      event is lost: the entry created afterwards has no sales. */
  method RaceScenario(u: string, id: int) returns (sales: seq<int>)
    ensures sales == []
  {
    var c := new SellerController(map[]);
    c.SaleCreatedEvent(SaleDto(Some(id), None, Some(u), None, None, None), false);
    c.UserCreatedEvent(SellerDto(Some(u), None, None, None), false);
    sales := c.sellerRepo[u].sales.value;
  }

  /** Replaying one sale-created event appends the id twice. */
  method ReplayScenario(u: string, id: int) returns (sales: seq<int>)
    ensures sales == [id, id]
  {
    var c := new SellerController(map[]);
    c.UserCreatedEvent(SellerDto(Some(u), None, None, None), false);
    var sale := SaleDto(Some(id), None, Some(u), None, None, None);
    c.SaleCreatedEvent(sale, false);
    c.SaleCreatedEvent(sale, false);
    sales := c.sellerRepo[u].sales.value;
  }
}
