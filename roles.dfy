/**
 * The four user roles (apps/api/src/auth/roles.ts): `isRole` tells a
 * valid role name, `normalizeRole` reads whatever the `usuarios.role`
 * column holds as one of them, falling back to `operador`.
 */
module Roles {
  import opened Wrappers
  import opened Text
  import Js

  /** `VALID_ROLES`. */
  datatype Role = Operador | Manutentor | Gestor | Admin

  /** The spelling of each role in `VALID_ROLES`. */
  function RoleName(r: Role): string {
    match r
    case Operador => "operador"
    case Manutentor => "manutentor"
    case Gestor => "gestor"
    case Admin => "admin"
  }

  /** `DEFAULT_ROLE`. */
  const DefaultRole: Role := Operador

  /** `ROLE_SET.has(s)`, answering which role `s` names. */
  function ParseRole(s: string): (r: Option<Role>)
    ensures r.Some? ==> RoleName(r.value) == s
    ensures r.None? ==> forall q: Role :: RoleName(q) != s
  {
    if s == "operador" then Some(Operador)
    else if s == "manutentor" then Some(Manutentor)
    else if s == "gestor" then Some(Gestor)
    else if s == "admin" then Some(Admin)
    else None
  }

  /** `isRole`: a string that is exactly one of the role names. */
  predicate IsRole(v: Js.Value)
    ensures IsRole(v) <==> exists q: Role :: v == Js.Str(RoleName(q))
  {
    v.Str? && ParseRole(v.s).Some?
  }

  /**
   * `normalizeRole`: a non-string is the default role; a string is trimmed and
   * lower-cased, and names its role if it is one, the default role otherwise.
   */
  function NormalizeRole(v: Js.Value): (r: Role)
    ensures !v.Str? ==> r == DefaultRole
    ensures v.Str? ==> RoleName(r) == Lower(Trim(v.s)) || (r == DefaultRole && forall q: Role :: RoleName(q) != Lower(Trim(v.s)))
  {
    if !v.Str? then DefaultRole
    else
      var normalized := Lower(Trim(v.s));
      ParseRole(normalized).GetOr(DefaultRole)
  }

  lemma LowerOfSmallLetters(s: string)
    requires forall i :: 0 <= i < |s| ==> 'a' <= s[i] <= 'z'
    ensures Lower(s) == s
  {
    assert forall i :: 0 <= i < |s| ==> LowerChar(s[i]) == s[i];
  }

  /** A role name is in lower case. */
  lemma RoleNameIsLower(r: Role)
    ensures Lower(RoleName(r)) == RoleName(r)
  {
    LowerOfSmallLetters(RoleName(r));
  }

  /** A role name is already trimmed and in lower case. */
  lemma RoleNameIsNormal(r: Role)
    ensures Lower(Trim(RoleName(r))) == RoleName(r)
  {
    var n := RoleName(r);
    assert !IsWhitespace(n[0]) && !IsWhitespace(n[|n| - 1]);
    assert TrimStart(n) == n;
    assert TrimEnd(n) == n;
    RoleNameIsLower(r);
  }

  /** Every role name is a role, and reads back as itself. */
  lemma ParseRoleName(r: Role)
    ensures ParseRole(RoleName(r)) == Some(r)
  {
  }

  /** The result is always a valid role: `isRole(normalizeRole(x))`. */
  lemma NormalizeRoleIsRole(v: Js.Value)
    ensures IsRole(Js.Str(RoleName(NormalizeRole(v))))
  {
    ParseRoleName(NormalizeRole(v));
  }

  /** `normalizeRole` is the identity on each role name. */
  lemma NormalizeRoleOfName(r: Role)
    ensures NormalizeRole(Js.Str(RoleName(r))) == r
  {
    RoleNameIsNormal(r);
    ParseRoleName(r);
  }

  /** On a valid role the normaliser returns that role. */
  lemma NormalizeRoleOfRole(v: Js.Value)
    requires IsRole(v)
    ensures RoleName(NormalizeRole(v)) == v.s
  {
    NormalizeRoleOfName(ParseRole(v.s).value);
  }

  /** `normalizeRole(normalizeRole(x)) == normalizeRole(x)`. */
  lemma NormalizeRoleIdempotent(v: Js.Value)
    ensures NormalizeRole(Js.Str(RoleName(NormalizeRole(v)))) == NormalizeRole(v)
  {
    NormalizeRoleOfName(NormalizeRole(v));
  }

  /** Whitespace around the stored role does not matter. */
  lemma NormalizeRoleIgnoresSurroundingWhitespace(w1: string, s: string, w2: string)
    requires AllWhitespace(w1) && AllWhitespace(w2)
    ensures NormalizeRole(Js.Str(w1 + s + w2)) == NormalizeRole(Js.Str(s))
  {
    TrimIgnoresSurroundingWhitespace(w1, s, w2);
  }

  /** Letter case of the stored role does not matter. */
  lemma NormalizeRoleIgnoresCase(s: string)
    ensures NormalizeRole(Js.Str(Lower(s))) == NormalizeRole(Js.Str(s))
  {
    TrimLower(s);
    LowerIdempotent(Trim(s));
  }
}
