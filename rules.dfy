/** The 15x15 liability matrix (`MatrizResponsabilidad`): the cell at
    (circumstance of A, circumstance of B) holds a code, and the interpreter
    turns that code into an outcome record. */
module Rules {
  import opened Common
  import opened Liability

  /** The table, row = circumstance of A, column = circumstance of B (both from 1). */
  const Matrix: seq<seq<string>> := [
    //  1     2     3     4     5     6     7     8     9     10    11    12    13    14    15
    ["NA", "B",  "A",  "B",  "B",  "A",  "NA", "B",  "B",  "NA", "NA", "B",  "B",  "A",  "B" ],  // 1
    ["A",  "NA", "A",  "B",  "NA", "A",  "NA", "B",  "NA", "A",  "A",  "A",  "NA", "A",  "A" ],  // 2
    ["B",  "B",  "NA", "B",  "NA", "B",  "NA", "B",  "B",  "B",  "B",  "B",  "B",  "B",  "NA"],  // 3
    ["A",  "A",  "A",  "C",  "C",  "A",  "A",  "B",  "B",  "A",  "A",  "A",  "B",  "A",  "B" ],  // 4
    ["A",  "NA", "NA", "C",  "C",  "A",  "NA", "C",  "NA", "A",  "A",  "A",  "B",  "NA", "A" ],  // 5
    ["B",  "B",  "A",  "B",  "B",  "NA", "NA", "B",  "C",  "B",  "B",  "B",  "B",  "A",  "A" ],  // 6
    ["NA", "NA", "NA", "B",  "NA", "NA", "NA", "NA", "NA", "NA", "NA", "NA", "NA", "NA", "A" ],  // 7
    ["A",  "A",  "A",  "A",  "C",  "A",  "NA", "C",  "A",  "A",  "A",  "A",  "B",  "A",  "A" ],  // 8
    ["A",  "NA", "A",  "A",  "NA", "C",  "NA", "B",  "C",  "A",  "A",  "A",  "B",  "C",  "A" ],  // 9
    ["NA", "B",  "A",  "B",  "B",  "A",  "NA", "B",  "B",  "C",  "C",  "A",  "B",  "A",  "A" ],  // 10
    ["NA", "B",  "A",  "B",  "B",  "A",  "NA", "B",  "B",  "C",  "NA", "A",  "B",  "A",  "A" ],  // 11
    ["A",  "B",  "A",  "B",  "B",  "A",  "NA", "B",  "B",  "B",  "B",  "NA", "B",  "A",  "A" ],  // 12
    ["A",  "NA", "A",  "A",  "A",  "A",  "NA", "A",  "A",  "A",  "A",  "A",  "NA", "A",  "A" ],  // 13
    ["B",  "B",  "A",  "B",  "NA", "B",  "NA", "B",  "C",  "B",  "B",  "B",  "B",  "C",  "A" ],  // 14
    ["B",  "B",  "NA", "A",  "B",  "B",  "B",  "B",  "B",  "B",  "B",  "B",  "B",  "B",  "NA"]   // 15
  ]

  const RangeMessage := "Las circunstancias deben estar entre 1 y 15"
  const NotApplicableMessage := "No es posible determinar responsabilidad bajo estas circunstancias"
  const IndeterminateMessage := "Se requiere información adicional para determinar responsabilidad"
  const UnknownCodeMessage := "Código desconocido en la matriz: "
  const SoleAPrefix := "El vehículo A es responsable por: "
  const SoleBPrefix := "El vehículo B es responsable por: "

  /** The codes the interpreter recognises. */
  predicate IsKnownCode(code: string) {
    code == "A" || code == "B" || code == "C" || code == "NA" || code == "NRD"
  }

  /** A predicate on a whole table: 15 rows of 15 cells, each one of A, B, C, NA. */
  predicate WellFormed(m: seq<seq<string>>) {
    |m| == 15 &&
    forall i :: 0 <= i < 15 ==>
      (|m[i]| == 15 && forall j :: 0 <= j < 15 ==> m[i][j] in ["A", "B", "C", "NA"])
  }

  /** Every cell of the table is A, B, C or NA: no NRD and no unknown symbol. */
  lemma MatrixWellFormed()
    ensures WellFormed(Matrix)
  {
    forall i | 0 <= i < 15
      ensures |Matrix[i]| == 15 && forall j :: 0 <= j < 15 ==> Matrix[i][j] in ["A", "B", "C", "NA"]
    {
      var row := Matrix[i];
      assert row == Matrix[0] || row == Matrix[1] || row == Matrix[2] || row == Matrix[3] ||
             row == Matrix[4] || row == Matrix[5] || row == Matrix[6] || row == Matrix[7] ||
             row == Matrix[8] || row == Matrix[9] || row == Matrix[10] || row == Matrix[11] ||
             row == Matrix[12] || row == Matrix[13] || row == Matrix[14];
    }
  }

  /** The cell for an in-range pair of circumstances. */
  function Cell(ca: int, cb: int): (code: string)
    requires InRange(ca) && InRange(cb)
    ensures code in ["A", "B", "C", "NA"]
  {
    MatrixWellFormed();
    Matrix[ca - 1][cb - 1]
  }

  /** `_obtener_info_circunstancias`, one side: the fixed description, or a
      "Circunstancia desconocida (n)" placeholder outside 1..15. */
  function Info(c: int): (desc: string)
    ensures InRange(c) ==> desc == Description(c).value
    ensures !InRange(c) ==> desc == "Circunstancia desconocida (" + IntToString(c) + ")"
  {
    Description(c).GetOr("Circunstancia desconocida (" + IntToString(c) + ")")
  }

  /** `_interpretar_codigo`: the outcome record for one matrix code. */
  function Interpret(code: string, ca: int, cb: int): (r: Outcome)
    // the record always echoes the code and tells exactly one of justification / message
    ensures r.matrixCode == Some(code)
    ensures r.justification.Some? <==> r.message.None?
    // which party is responsible, in both directions
    ensures r.responsible == VehicleA <==> code == "A"
    ensures r.responsible == VehicleB <==> code == "B"
    ensures r.responsible == Shared <==> code == "C"
    ensures r.responsible == NotApplicable <==> code == "NA"
    ensures r.responsible == Indeterminate <==> code == "NRD"
    ensures r.responsible == Error <==> !IsKnownCode(code)
    // percentages exist exactly for a liable outcome, and they sum to 100
    ensures r.percentages.Some? <==> code in ["A", "B", "C"]
    ensures r.percentages.Some? ==> SumsTo100(r.percentages.value)
    ensures code == "A" ==>
      (r.percentages == Some(Distribution(100, 0)) && r.justification == Some(SoleAPrefix + Info(ca)))
    ensures code == "B" ==>
      (r.percentages == Some(Distribution(0, 100)) && r.justification == Some(SoleBPrefix + Info(cb)))
    ensures code == "C" ==>
      (r.percentages == Some(Distribution(50, 50)) &&
       r.justification == Some("Responsabilidad compartida: Vehículo A (" + Info(ca) +
                               ") y Vehículo B (" + Info(cb) + ")"))
    ensures code == "NA" ==> r.message == Some(NotApplicableMessage)
    ensures code == "NRD" ==> r.message == Some(IndeterminateMessage)
    ensures !IsKnownCode(code) ==> r.message == Some(UnknownCodeMessage + code)
  {
    var descA, descB := Info(ca), Info(cb);
    if code == "A" then
      Outcome(VehicleA, Some(Distribution(100, 0)), Some(SoleAPrefix + descA), None, Some("A"))
    else if code == "B" then
      Outcome(VehicleB, Some(Distribution(0, 100)), Some(SoleBPrefix + descB), None, Some("B"))
    else if code == "C" then
      Outcome(Shared, Some(Distribution(50, 50)),
              Some("Responsabilidad compartida: Vehículo A (" + descA + ") y Vehículo B (" + descB + ")"),
              None, Some("C"))
    else if code == "NA" then
      Outcome(NotApplicable, None, None, Some(NotApplicableMessage), Some("NA"))
    else if code == "NRD" then
      Outcome(Indeterminate, None, None, Some(IndeterminateMessage), Some("NRD"))
    else
      Outcome(Error, None, None, Some(UnknownCodeMessage + code), Some(code))
  }

  /** `determinar_responsabilidad`: range check, then table lookup and interpretation. */
  function Determine(ca: int, cb: int): (r: Outcome)
    // out of range: an error with a message and nothing else, without touching the table
    ensures !(InRange(ca) && InRange(cb)) ==>
      r == Outcome(Error, None, None, Some(RangeMessage), None)
    // in range: the outcome is the interpretation of the table's cell, and
    // records the cell it came from
    ensures InRange(ca) && InRange(cb) ==> r == Interpret(Cell(ca, cb), ca, cb)
    ensures InRange(ca) && InRange(cb) ==> r.matrixCode == Some(Cell(ca, cb))
    // an error happens exactly when a circumstance is out of range; the table
    // never yields an indeterminate outcome or an unknown code
    ensures r.responsible == Error <==> !(InRange(ca) && InRange(cb))
    ensures r.responsible != Indeterminate
    ensures r.percentages.Some? ==> SumsTo100(r.percentages.value)
  {
    if !(InRange(ca) && InRange(cb)) then
      Outcome(Error, None, None, Some(RangeMessage), None)
    else
      Interpret(Cell(ca, cb), ca, cb)
  }

  /** Totality over the domain: every in-range pair yields a liable or a
      not-applicable outcome, and never an error. */
  lemma DetermineTotal(ca: int, cb: int)
    requires InRange(ca) && InRange(cb)
    ensures Determine(ca, cb).responsible in {VehicleA, VehicleB, Shared, NotApplicable}
    ensures Determine(ca, cb).responsible == NotApplicable <==> Determine(ca, cb).percentages.None?
  {
  }

  /** Cells quoted by the table's rows 1, 4, 7 and 13. */
  lemma ConcreteCells()
    ensures Determine(1, 1).responsible == NotApplicable
    ensures Determine(1, 2) == Outcome(VehicleB, Some(Distribution(0, 100)),
      Some(SoleBPrefix + "Invadiendo carril"), None, Some("B"))
    ensures Determine(4, 5).responsible == Shared && Determine(4, 5).percentages == Some(Distribution(50, 50))
    ensures Determine(13, 6) == Outcome(VehicleA, Some(Distribution(100, 0)),
      Some(SoleAPrefix + "Estado de embriaguez"), None, Some("A"))
    ensures Determine(7, 1).responsible == NotApplicable
  {
  }

  /** The table is directional but not mirror-consistent: (1,15) and (15,1) both
      blame B, so swapping the two vehicles does not swap the responsible party. */
  lemma NotMirrorConsistent()
    ensures Determine(1, 15).responsible == VehicleB
    ensures Determine(15, 1).responsible == VehicleB
  {
  }
}
