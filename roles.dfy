/** The role prefixing both user services apply before storing a user:
    `roles.map { "ROLE_$it" }.toSet()`. */
module Roles {

  const Prefix: string := "ROLE_"

  function PrefixRoles(roles: set<string>): (r: set<string>)
    ensures forall x :: x in roles ==> Prefix + x in r
    ensures forall y :: y in r ==> |y| >= |Prefix| && y[..|Prefix|] == Prefix && y[|Prefix|..] in roles
  {
    set x | x in roles :: Prefix + x
  }

  lemma PrefixInjective(a: string, b: string)
    ensures Prefix + a == Prefix + b ==> a == b
  {
    if Prefix + a == Prefix + b {
      assert a == (Prefix + a)[|Prefix|..];
      assert b == (Prefix + b)[|Prefix|..];
    }
  }

  /** Prefixing loses no role: the stored set is exactly as large as the given one. */
  lemma {:induction false} PrefixRolesKeepsCardinality(roles: set<string>)
    ensures |PrefixRoles(roles)| == |roles|
  {
    if roles != {} {
      var x :| x in roles;
      var rest := roles - {x};
      PrefixRolesKeepsCardinality(rest);
      assert Prefix + x !in PrefixRoles(rest) by {
        forall y | y in rest ensures Prefix + y != Prefix + x {
          PrefixInjective(y, x);
        }
      }
      assert PrefixRoles(roles) == PrefixRoles(rest) + {Prefix + x};
    }
  }

  /** The single role a registration asks for. */
  lemma UserRole()
    ensures PrefixRoles({"USER"}) == {"ROLE_USER"}
  {
    assert Prefix + "USER" == "ROLE_USER";
    forall y | y in PrefixRoles({"USER"}) ensures y == "ROLE_USER" {
    }
  }
}
