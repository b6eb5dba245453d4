/** The route guard `requireRole(...allowed)`: the request passes when the
    caller's role, lower-cased, is one of the allowed roles, lower-cased;
    otherwise it is answered with 403 "Forbidden". */
module Roles {
  import opened Js
  import opened Text
  import opened Schemas
  import opened Api

  /** `allowed.map(r => r.toLowerCase()).includes(String(role || "").toLowerCase())`. */
  predicate RoleAllowed(role: Option<string>, allowed: seq<string>) {
    exists i :: 0 <= i < |allowed| && Lower(allowed[i]) == Lower(OrElse(role, ""))
  }

  /** The guard: `Ok` lets the request through to the handler. */
  function RequireRole(role: Option<string>, allowed: seq<string>): (r: Reply<()>)
    ensures r.Ok? <==> RoleAllowed(role, allowed)
    ensures r.Err? ==> r == Err(403, "Forbidden")
  {
    var want := Lower(OrElse(role, ""));
    var lowered := seq(|allowed|, i requires 0 <= i < |allowed| => Lower(allowed[i]));
    assert forall i :: 0 <= i < |allowed| ==> lowered[i] == Lower(allowed[i]);
    if want in lowered then Ok(())
    else Err(403, "Forbidden")
  }

  /** Case does not matter, neither in the caller's role nor in the allowed list. */
  lemma RequireRoleIgnoresCase(role: string, allowed: seq<string>)
    ensures RequireRole(Some(Upper(role)), allowed) == RequireRole(Some(role), allowed)
    ensures RequireRole(Some(role), seq(|allowed|, i requires 0 <= i < |allowed| => Upper(allowed[i])))
         == RequireRole(Some(role), allowed)
  {
    LowerForgetsCase(role);
    assert Lower(OrElse(Some(Upper(role)), "")) == Lower(OrElse(Some(role), "")) by {
      if role == "" {
        assert Upper(role) == "";
      } else {
        assert OrElse(Some(Upper(role)), "") == Upper(role);
      }
    }
    var up := seq(|allowed|, i requires 0 <= i < |allowed| => Upper(allowed[i]));
    forall i | 0 <= i < |allowed| ensures Lower(up[i]) == Lower(allowed[i]) {
      LowerForgetsCase(allowed[i]);
    }
    assert RoleAllowed(Some(role), up) <==> RoleAllowed(Some(role), allowed);
  }

  /** Distinct roles have names that differ even ignoring case. */
  lemma RoleNamesDifferIgnoringCase(a: Role, b: Role)
    requires Lower(RoleName(a)) == Lower(RoleName(b))
    ensures a == b
  {
    assert |RoleName(a)| == |Lower(RoleName(a))|;
  }

  /** `requireRole("ADMIN")` admits a user exactly when the user is an ADMIN. */
  lemma RequireAdminOnlyAdmin(role: Role)
    ensures RequireRole(Some(RoleName(role)), ["ADMIN"]).Ok? <==> role == ADMIN
  {
    assert OrElse(Some(RoleName(role)), "") == RoleName(role);
    if RequireRole(Some(RoleName(role)), ["ADMIN"]).Ok? {
      assert Lower(RoleName(ADMIN)) == Lower(RoleName(role));
      RoleNamesDifferIgnoringCase(ADMIN, role);
    }
    if role == ADMIN {
      assert Lower(["ADMIN"][0]) == Lower(OrElse(Some(RoleName(role)), ""));
    }
  }

  /** `requireRole("ADMIN", "MANAGER", "MEMBER")` admits every user. */
  lemma RequireAnyRoleAdmitsEveryUser(role: Role)
    ensures RequireRole(Some(RoleName(role)), ["ADMIN", "MANAGER", "MEMBER"]).Ok?
  {
    var allowed := ["ADMIN", "MANAGER", "MEMBER"];
    match role
    case ADMIN => assert Lower(allowed[0]) == Lower(OrElse(Some("ADMIN"), ""));
    case MANAGER => assert Lower(allowed[1]) == Lower(OrElse(Some("MANAGER"), ""));
    case MEMBER => assert Lower(allowed[2]) == Lower(OrElse(Some("MEMBER"), ""));
  }

  /** A request without a role is refused by any list of non-empty role names. */
  lemma MissingRoleRefused(allowed: seq<string>)
    requires forall i :: 0 <= i < |allowed| ==> allowed[i] != ""
    ensures RequireRole(None, allowed).Err?
  {
    forall i | 0 <= i < |allowed| ensures Lower(allowed[i]) != "" {
    }
  }
}
