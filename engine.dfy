/** The decision step of `MotorPrincipal.procesar_siniestro`: a disputed
    claim goes to the negotiator, any other to the matrix, and the calculator
    runs unless the outcome is "not applicable" or "indeterminate". */
module Engine {
  import opened Common
  import opened Liability
  import opened Records
  import Rules
  import Negotiation
  import Calculator

  /** What the decision step reads from a claim: the circumstance predicted
      for each vehicle, the `disputa` flag (false when missing), the processed
      documents and evidence, both `poliza_info` records and `danos`. */
  datatype Claim = Claim(
    circumstanceA: int,
    circumstanceB: int,
    disputed: bool,
    documents: seq<Document>,
    evidence: seq<Evidence>,
    policyA: Calculator.Policy,
    policyB: Calculator.Policy,
    damages: Calculator.Damages)

  /** `resultado_responsabilidad`: either a matrix outcome or a negotiation result. */
  datatype Decision =
    | ByMatrix(outcome: Outcome)
    | ByNegotiation(result: Negotiation.NegotiationResult)
  {
    /** The `responsable` key. */
    function Responsible(): Responsible {
      match this
      case ByMatrix(o) => o.responsible
      case ByNegotiation(n) => n.responsible
    }

    /** The `porcentaje_a` / `porcentaje_b` keys, when present. */
    function Percentages(): Option<Distribution> {
      match this
      case ByMatrix(o) => o.percentages
      case ByNegotiation(n) => Some(n.distribution)
    }
  }

  /** The decision and the indemnification (None when it does not apply). */
  datatype Resolution = Resolution(decision: Decision, indemnification: Option<Calculator.Indemnification>)

  /** Whether the calculator runs for a responsible party. */
  predicate Indemnifiable(r: Responsible) {
    r != NotApplicable && r != Indeterminate
  }

  /** Steps 5 and 6 of `procesar_siniestro`. */
  method Resolve(claim: Claim) returns (r: Resolution)
    // dispatch on the dispute flag
    ensures claim.disputed ==>
      r.decision == ByNegotiation(
        Negotiation.NegotiatedResult(claim.circumstanceA, claim.circumstanceB, claim.documents, claim.evidence))
    ensures claim.disputed ==>
      (r.decision.ByNegotiation? &&
       r.decision.result.distribution ==
         Negotiation.NegotiatedDistribution(claim.circumstanceA, claim.circumstanceB, claim.documents, claim.evidence))
    ensures !claim.disputed ==> r.decision == ByMatrix(Rules.Determine(claim.circumstanceA, claim.circumstanceB))
    // the calculator runs exactly for indemnifiable outcomes, on the decision's percentages
    ensures r.indemnification.Some? <==> Indemnifiable(r.decision.Responsible())
    ensures r.indemnification.Some? ==>
      r.indemnification.value ==
        Calculator.Calculate(r.decision.Percentages(), claim.policyA, claim.policyB, claim.damages)
    // a negotiation always names a party or a shared split, so a disputed claim is always indemnified
    ensures claim.disputed ==> r.indemnification.Some?
    // whenever percentages are present they sum to 100
    ensures r.decision.Percentages().Some? ==> SumsTo100(r.decision.Percentages().value)
  {
    var decision: Decision;
    if claim.disputed {
      var result := Negotiation.Negotiate(claim.circumstanceA, claim.circumstanceB, claim.documents, claim.evidence);
      decision := ByNegotiation(result);
    } else {
      decision := ByMatrix(Rules.Determine(claim.circumstanceA, claim.circumstanceB));
    }
    var indemnification: Option<Calculator.Indemnification> := None;
    if Indemnifiable(decision.Responsible()) {
      indemnification := Some(Calculator.Calculate(decision.Percentages(), claim.policyA, claim.policyB, claim.damages));
    }
    r := Resolution(decision, indemnification);
  }

  /** An undisputed claim with an out-of-range circumstance is an error, not
      "not applicable", so it passes the guard and the calculator runs on no
      percentages: both payments are zero. */
  lemma RangeErrorIsIndemnifiedWithZero(claim: Claim)
    requires !claim.disputed
    requires !(InRange(claim.circumstanceA) && InRange(claim.circumstanceB))
    ensures var decision := ByMatrix(Rules.Determine(claim.circumstanceA, claim.circumstanceB));
      && decision.Responsible() == Error
      && Indemnifiable(decision.Responsible())
      && var i := Calculator.Calculate(decision.Percentages(), claim.policyA, claim.policyB, claim.damages);
         i.aToB.gross == 0.0 && i.aToB.net == 0.0 && i.bToA.gross == 0.0 && i.bToA.net == 0.0
  {
  }

  /** An undisputed in-range claim is indemnified exactly when the matrix
      holds A, B or C for it. */
  lemma UndisputedIndemnifiedIffLiable(claim: Claim)
    requires !claim.disputed
    requires InRange(claim.circumstanceA) && InRange(claim.circumstanceB)
    ensures Indemnifiable(ByMatrix(Rules.Determine(claim.circumstanceA, claim.circumstanceB)).Responsible()) <==>
      Rules.Cell(claim.circumstanceA, claim.circumstanceB) in ["A", "B", "C"]
  {
  }
}
