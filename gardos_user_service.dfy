/** The gateway's user registry (no.gardos): the same create rule as the
    no.exam registry, over its own `User` entity. */
module GardosUsers {
  import opened Roles

  datatype User = User(username: string, password: string, roles: set<string>)

  class UserService {
    const encode: string -> string
    /** `userCrud`: users keyed by username. */
    var userCrud: map<string, User>

    constructor (encode: string -> string)
      ensures userCrud == map[] && this.encode == encode
    {
      this.encode := encode;
      userCrud := map[];
    }

    /** `createUser`: false when the username exists or the save throws;
        otherwise one user saved with every role prefixed, and true. */
    method CreateUser(username: string, password: string, roles: set<string>, saveFails: bool)
      returns (created: bool)
      modifies this
      ensures created <==> username !in old(userCrud) && !saveFails
      ensures !created ==> userCrud == old(userCrud)
      ensures created ==> userCrud == old(userCrud)[username :=
        User(username, encode(password), PrefixRoles(roles))]
    {
      var hashedPassword := encode(password);
      if username in userCrud {
        return false;
      }
      if saveFails {
        return false;
      }
      userCrud := userCrud[username := User(username, hashedPassword, PrefixRoles(roles))];
      return true;
    }
  }
}
