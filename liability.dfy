/** The values every component of the engine exchanges: who is responsible,
    the percentage pair, the outcome record of a matrix lookup, and the fixed
    descriptions of the fifteen circumstances. */
module Liability {
  import opened Common

  /** The `responsable` field of a result. */
  datatype Responsible =
    | VehicleA        // "vehiculo_a"
    | VehicleB        // "vehiculo_b"
    | Shared          // "compartida"
    | NotApplicable   // "no_aplica"
    | Indeterminate   // "indeterminado"
    | Error           // "error"

  /** The `porcentaje_a` / `porcentaje_b` pair. */
  datatype Distribution = Distribution(pctA: int, pctB: int)

  predicate SumsTo100(d: Distribution) {
    d.pctA + d.pctB == 100
  }

  /** The dictionary a matrix lookup returns; a field is None where the
      source's dictionary has no such key. The percentages travel together:
      every branch sets both or neither. */
  datatype Outcome = Outcome(
    responsible: Responsible,
    percentages: Option<Distribution>,
    justification: Option<string>,
    message: Option<string>,
    matrixCode: Option<string>)

  /** Circumstance codes are 1..15. */
  predicate InRange(c: int) {
    1 <= c <= 15
  }

  /** The fixed description of each circumstance; None outside 1..15. */
  function Description(c: int): (r: Option<string>)
    ensures r.Some? <==> InRange(c)
    ensures r.Some? ==> |r.value| > 0
  {
    match c
    case 1 => Some("Conduciendo en sentido contrario")
    case 2 => Some("Invadiendo carril")
    case 3 => Some("Haciendo giro indebido")
    case 4 => Some("No respetando señal de pare")
    case 5 => Some("Excediendo límite de velocidad")
    case 6 => Some("No guardando distancia")
    case 7 => Some("En retroceso")
    case 8 => Some("No cediendo el paso")
    case 9 => Some("Cambiando de carril")
    case 10 => Some("Adelantamiento indebido")
    case 11 => Some("Saliendo de estacionamiento")
    case 12 => Some("No respetando semáforo")
    case 13 => Some("Estado de embriaguez")
    case 14 => Some("Falla mecánica")
    case 15 => Some("Víctima de las circunstancias")
    case _ => None
  }

  /** The description used by the negotiator and the prediction model:
      "Circunstancia n" outside 1..15. */
  function ShortDescription(c: int): (desc: string)
    ensures InRange(c) ==> desc == Description(c).value
    ensures !InRange(c) ==> desc == "Circunstancia " + IntToString(c)
  {
    Description(c).GetOr("Circunstancia " + IntToString(c))
  }
}
