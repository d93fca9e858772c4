/** The gateway's registry of login accounts (no.exam). Usernames are the
    keys, so they are unique; roles are stored with a "ROLE_" prefix; the
    password is stored only as the encoder's output. */
module AuthUsers {
  import opened Common
  import opened Roles

  datatype AuthUser = AuthUser(username: string, password: string, roles: set<string>)

  class AuthUserService {
    /** `passwordEncoder.encode` and `passwordEncoder.matches`, left abstract. */
    const encode: string -> string
    const matches: (string, string) -> bool
    /** `authUserRepo`: accounts keyed by username. */
    var authUserRepo: map<string, AuthUser>

    ghost predicate Valid()
      reads this
    {
      forall k :: k in authUserRepo ==> authUserRepo[k].username == k
    }

    constructor (encode: string -> string, matches: (string, string) -> bool)
      ensures Valid() && authUserRepo == map[]
      ensures this.encode == encode && this.matches == matches
    {
      this.encode := encode;
      this.matches := matches;
      authUserRepo := map[];
    }

    /** `createUser`: false, storing nothing, when the username is taken or
        the save throws; otherwise stores exactly one account and answers true. */
    method CreateUser(username: string, password: string, roles: set<string>, saveFails: bool)
      returns (created: bool)
      requires Valid()
      modifies this
      ensures Valid()
      ensures created <==> username !in old(authUserRepo) && !saveFails
      ensures !created ==> authUserRepo == old(authUserRepo)
      ensures created ==> authUserRepo == old(authUserRepo)[username :=
        AuthUser(username, encode(password), PrefixRoles(roles))]
      ensures created ==> |authUserRepo[username].roles| == |roles|
    {
      PrefixRolesKeepsCardinality(roles);
      var hashedPassword := encode(password);
      if username in authUserRepo {
        return false;
      }
      if saveFails {
        return false;
      }
      authUserRepo := authUserRepo[username := AuthUser(username, hashedPassword, PrefixRoles(roles))];
      return true;
    }

    /** `getUser`: the stored account when it exists and the password
        matches its stored hash; null otherwise (a missing account makes
        the code throw, and the exception is turned into null). */
    method GetUser(username: string, password: string) returns (user: Option<AuthUser>)
      ensures user.Some? <==> username in authUserRepo && matches(password, authUserRepo[username].password)
      ensures user.Some? ==> user.value == authUserRepo[username]
    {
      if username !in authUserRepo {
        return None;
      }
      var authUser := authUserRepo[username];
      if !matches(password, authUser.password) {
        return None;
      }
      return Some(authUser);
    }
  }
}
