/**
 * The check chain shared by the screens whose form is a name and a description (units of
 * measure, roles, categories): on the normalised texts, an empty name, then a name outside
 * the name pattern, then a name over its limit, then a description over its limit.
 */
module NameRules {
  import opened Wrappers
  import opened Text

  datatype NameError = NoNombre | BadNombre | LongNombre(max: nat) | LongDescripcion(max: nat)

  function Describe(e: NameError): string {
    match e
    case NoNombre => "El nombre es obligatorio."
    case BadNombre => "El nombre solo puede contener letras, espacios, guiones y puntos."
    case LongNombre(max) => "El nombre admite máximo " + NatToString(max) + " caracteres."
    case LongDescripcion(max) => "La descripción admite máximo " + NatToString(max) + " caracteres."
  }

  /** The checks, in their order, on the normalised name and description. */
  function CheckNamed(nombre: string, descripcion: string, nombreMax: nat, descMax: nat): Option<NameError> {
    if nombre == "" then Some(NoNombre)
    else if !MatchesNamePattern(nombre) then Some(BadNombre)
    else if |nombre| > nombreMax then Some(LongNombre(nombreMax))
    else if |descripcion| > descMax then Some(LongDescripcion(descMax))
    else None
  }

  /** The form goes ahead exactly for a name matching the name pattern within its limit and
      a description within its limit; each failure is reported by its own message. */
  lemma CheckNamedAcceptsIff(nombre: string, descripcion: string, nombreMax: nat, descMax: nat)
    ensures CheckNamed(nombre, descripcion, nombreMax, descMax).None? <==>
      MatchesNamePattern(nombre) && |nombre| <= nombreMax && |descripcion| <= descMax
    ensures CheckNamed(nombre, descripcion, nombreMax, descMax) == Some(NoNombre) <==> nombre == ""
    ensures CheckNamed(nombre, descripcion, nombreMax, descMax) == Some(LongDescripcion(descMax)) ==>
      MatchesNamePattern(nombre) && |nombre| <= nombreMax && |descripcion| > descMax
  {
  }
}
