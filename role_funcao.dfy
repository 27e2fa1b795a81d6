/**
 * `roleToFuncao` (apps/api/src/utils/roles.ts): the job title shown for a
 * role, matched without regard to letter case.
 */
module RoleFuncao {
  import opened Wrappers
  import opened Text
  import opened Roles

  const TituloGestor: string := "Gestor"
  const TituloManutentor: string := "T\U{E9}cnico Eletromec\U{E2}nico"
  const TituloOperador: string := "Operador de CNC"

  /**
   * `roleToFuncao(role)`: a missing role counts as "", the rest is compared in
   * lower case; only gestor and manutentor have titles of their own.
   */
  function RoleToFuncao(role: Option<string>): (f: string)
    ensures f == TituloGestor <==> Lower(role.GetOr("")) == "gestor"
    ensures f == TituloManutentor <==> Lower(role.GetOr("")) == "manutentor"
    ensures f == TituloOperador <==> Lower(role.GetOr("")) != "gestor" && Lower(role.GetOr("")) != "manutentor"
  {
    var normalized := Lower(role.GetOr(""));
    if normalized == "gestor" then TituloGestor
    else if normalized == "manutentor" then TituloManutentor
    else TituloOperador
  }

  /** Matching ignores letter case. */
  lemma RoleToFuncaoIgnoresCase(s: string)
    ensures RoleToFuncao(Some(Lower(s))) == RoleToFuncao(Some(s))
  {
    LowerIdempotent(s);
  }

  /** The title of each role: admin and operador share the operator's title. */
  lemma RoleToFuncaoOfRole(r: Role)
    ensures RoleToFuncao(Some(RoleName(r))) == match r
      case Gestor => TituloGestor
      case Manutentor => TituloManutentor
      case _ => TituloOperador
  {
    RoleNameIsLower(r);
  }

  /** `null` and `undefined` read as "", which has the operator's title. */
  lemma RoleToFuncaoOfNothing()
    ensures RoleToFuncao(None) == TituloOperador
  {
    assert Lower("") == "";
  }
}
