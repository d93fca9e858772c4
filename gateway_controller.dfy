/** The gateway's authentication endpoints (no.exam). Registration creates
    the account first and only then publishes one "user-created" message. */
module GatewayApi {
  import opened Common
  import opened Schema
  import opened Roles
  import opened AuthUsers

  /** The values of the `/authUser` map. */
  datatype AuthValue = Name(name: string) | RoleSet(roles: set<string>)

  class AuthenticationController {
    const authUserService: AuthUserService

    constructor (service: AuthUserService)
      ensures authUserService == service
    {
      authUserService := service;
    }

    /** GET /authUser: a map with exactly the keys "name" and "roles". */
    method GetAuthUser(principalName: string, authorities: seq<string>)
      returns (status: int, body: map<string, AuthValue>)
      ensures status == 200
      ensures body.Keys == {"name", "roles"}
      ensures body["name"] == Name(principalName)
      ensures body["roles"] == RoleSet(set a | a in authorities)
    {
      var m: map<string, AuthValue> := map[];
      m := m["name" := Name(principalName)];
      m := m["roles" := RoleSet(set a | a in authorities)];
      return 200, m;
    }

    /** POST /register: 400 and no message when the account cannot be
        created; otherwise the account is stored with the single role
        ROLE_USER, one message with username, name and email (no sales list)
        is published, and the answer is 204. */
    method Register(username: string, password: string, name: string, email: string, saveFails: bool)
      returns (status: int, emitted: seq<SellerDto>)
      requires authUserService.Valid()
      modifies authUserService
      ensures authUserService.Valid()
      ensures status == 204 <==> username !in old(authUserService.authUserRepo) && !saveFails
      ensures status != 204 ==> status == 400 && emitted == []
      ensures status != 204 ==> authUserService.authUserRepo == old(authUserService.authUserRepo)
      ensures status == 204 ==> emitted == [SellerDto(Some(username), Some(name), Some(email), None)]
      ensures status == 204 ==> authUserService.authUserRepo == old(authUserService.authUserRepo)[username :=
        AuthUser(username, authUserService.encode(password), {"ROLE_USER"})]
    {
      UserRole();
      var registered := authUserService.CreateUser(username, password, {"USER"}, saveFails);
      if !registered {
        return 400, [];
      }
      var seller := SellerDto(Some(username), Some(name), Some(email), None);
      emitted := [seller];
      status := 204;
    }

    /** POST /login: 401 when no account matches, otherwise 204. */
    method Login(username: string, password: string) returns (status: int)
      ensures status == 401 || status == 204
      ensures status == 204 <==> (username in authUserService.authUserRepo
        && authUserService.matches(password, authUserService.authUserRepo[username].password))
    {
      var user := authUserService.GetUser(username, password);
      if user.None? {
        return 401;
      }
      return 204;
    }
  }

  /** With an encoder whose hashes match their passwords, a fresh
      registration can log in straight away; a second registration with the
      same username is refused and publishes nothing. */
  method RegisterTwiceScenario(encode: string -> string, matches: (string, string) -> bool,
                               username: string, password: string, name: string, email: string)
    returns (first: int, login: int, second: int, secondEmitted: seq<SellerDto>)
    requires forall p :: matches(p, encode(p))
    ensures first == 204 && login == 204
    ensures second == 400 && secondEmitted == []
  {
    var service := new AuthUserService(encode, matches);
    var c := new AuthenticationController(service);
    var emitted;
    first, emitted := c.Register(username, password, name, email, false);
    login := c.Login(username, password);
    second, secondEmitted := c.Register(username, "other", name, email, false);
  }
}
