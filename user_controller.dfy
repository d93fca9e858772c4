/** The user directory: the same read model as the seller directory, keyed
    by the sale's `user` field. A failing sale-deleted event prints the
    exception's message (output not modelled) and is otherwise dropped. */
module UserApi {
  import opened Common
  import opened Schema
  import opened UserConverter
  import Lists

  /** Whether `userRepo.findOne(key)` and `user.sales!!` succeed. */
  predicate HasSalesList(repo: map<string, User>, key: Option<string>)
  {
    key.Some? && key.value in repo && repo[key.value].sales.Some?
  }

  class UserController {
    /** `userRepo`: users keyed by username. */
    var userRepo: map<string, User>

    constructor (initial: map<string, User>)
      ensures userRepo == initial
    {
      userRepo := initial;
    }

    /** "user-created": upserts the user with an empty sales list. */
    method UserCreatedEvent(user: UserDto, saveFails: bool)
      modifies this
      ensures user.username.Some? && !saveFails ==>
        userRepo == old(userRepo)[user.username.value :=
          User(user.username, user.name, user.email, Some([]))]
      ensures user.username.None? || saveFails ==> userRepo == old(userRepo)
    {
      if user.username.None? || saveFails {
        return;
      }
      userRepo := userRepo[user.username.value :=
        User(user.username, user.name, user.email, Some([]))];
    }

    /** "sale-created": appends the id to the list of the user named in `sale.user`. */
    method SaleCreatedEvent(sale: SaleDto, saveFails: bool)
      modifies this
      ensures HasSalesList(old(userRepo), sale.user) && sale.id.Some? && !saveFails ==>
        var u := sale.user.value;
        userRepo == old(userRepo)[u := old(userRepo)[u].(sales := Some(old(userRepo)[u].sales.value + [sale.id.value]))]
      ensures !(HasSalesList(old(userRepo), sale.user) && sale.id.Some? && !saveFails) ==> userRepo == old(userRepo)
    {
      if !HasSalesList(userRepo, sale.user) || sale.id.None? {
        return;
      }
      var user := userRepo[sale.user.value];
      user := user.(sales := Some(user.sales.value + [sale.id.value]));
      if saveFails {
        return;
      }
      userRepo := userRepo[sale.user.value := user];
    }

    /** "sale-deleted": removes the first occurrence of the id from that user's list. */
    method SaleDeletedEvent(sale: SaleDto, saveFails: bool)
      modifies this
      ensures HasSalesList(old(userRepo), sale.user) && sale.id.Some? && !saveFails ==>
        var u := sale.user.value;
        userRepo == old(userRepo)[u := old(userRepo)[u].(sales := Some(Lists.RemoveFirst(old(userRepo)[u].sales.value, sale.id.value)))]
      ensures !(HasSalesList(old(userRepo), sale.user) && sale.id.Some? && !saveFails) ==> userRepo == old(userRepo)
    {
      if !HasSalesList(userRepo, sale.user) {
        return;
      }
      var user := userRepo[sale.user.value];
      if sale.id.Some? {
        user := user.(sales := Some(Lists.RemoveFirst(user.sales.value, sale.id.value)));
      }
      if saveFails {
        return;
      }
      userRepo := userRepo[sale.user.value := user];
    }

    /** GET /users/{username}: 404 without an entry, else 200 and the entry. */
    method GetUserByUsername(pathId: string) returns (status: int, body: Option<UserDto>)
      ensures pathId !in userRepo ==> status == 404 && body == None
      ensures pathId in userRepo ==> status == 200 && body == Some(Transform(userRepo[pathId]))
    {
      if pathId !in userRepo {
        return 404, None;
      }
      var user := userRepo[pathId];
      return 200, Some(Transform(user));
    }
  }

  /** The user API test's scenario: a user with two sales gets a third on
      sale-created and, separately, keeps one after sale-deleted. A second
      user-created for the same username resets the list. */
  method SaleEventsScenario() returns (afterCreate: nat, afterDelete: nat, afterRecreate: nat)
    ensures afterCreate == 3 && afterDelete == 1 && afterRecreate == 0
  {
    var u := "defaultUsername";
    var user := User(Some(u), Some("defaultName"), Some("defaultEmail"), Some([1, 2]));
    var sale := SaleDto(Some(2), Some(u), None, Some(1234), Some(1234), None);

    var c := new UserController(map[u := user]);
    c.SaleCreatedEvent(sale.(id := Some(3)), false);
    afterCreate := |c.userRepo[u].sales.value|;

    var d := new UserController(map[u := user]);
    d.SaleDeletedEvent(sale, false);
    afterDelete := |d.userRepo[u].sales.value|;

    d.UserCreatedEvent(UserDto(Some(u), Some("defaultName"), Some("defaultEmail"), None), false);
    afterRecreate := |d.userRepo[u].sales.value|;
  }
}
