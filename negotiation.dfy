/** The negotiation for disputed claims (`NegociadorResponsabilidad`): a seed
    split from per-circumstance severity weights, evidence and document
    weights aggregated from the processed records, then at most five rounds
    that blend the current split with those weights, stopping early once A's
    share stops moving, and a final classification of the split. */
module Negotiation {
  import opened Common
  import opened Rounding
  import opened Liability
  import opened Records

  const MaxIterations: nat := 5
  /** Compared against integer percentages, so "converged" means "A's share did not move". */
  const ConvergenceThreshold: real := 0.05
  const EvidenceFactor: real := 0.3
  const DocumentFactor: real := 0.2
  /** The confidence assumed for an assessment that has none. */
  const DefaultConfidence: real := 0.5
  /** Documents classified with less confidence than this are skipped. */
  const MinDocumentConfidence: real := 0.3

  /** `peso_a`, `peso_b` and the number of items that were counted. */
  datatype Weights = Weights(weightA: real, weightB: real, count: nat)

  /** The result of `negociar`. */
  datatype NegotiationResult = NegotiationResult(
    responsible: Responsible,
    distribution: Distribution,
    justification: string,
    iterations: nat,
    converged: bool)

  /** The same split seen from the other vehicle. */
  function Swap(d: Distribution): Distribution {
    Distribution(d.pctB, d.pctA)
  }

  function SwapWeights(w: Weights): Weights {
    Weights(w.weightB, w.weightA, w.count)
  }

  // ---------------------------------------------------------------------------
  // Seed
  // ---------------------------------------------------------------------------

  /** The severity weight of a circumstance (higher = more blameworthy); 5.0 when unknown. */
  function SeverityWeight(c: int): (w: real)
    ensures 2.0 <= w <= 10.0
    ensures !InRange(c) ==> w == 5.0
  {
    match c
    case 1 => 9.5
    case 2 => 8.0
    case 3 => 7.5
    case 4 => 9.0
    case 5 => 8.5
    case 6 => 7.0
    case 7 => 6.5
    case 8 => 7.5
    case 9 => 6.0
    case 10 => 7.0
    case 11 => 6.0
    case 12 => 9.0
    case 13 => 10.0
    case 14 => 5.0
    case 15 => 2.0
    case _ => 5.0
  }

  /** The "adjust so that they add up to 100" step: any residual goes onto A. */
  function AssignResidual(pctA: int, pctB: int): (d: Distribution)
    ensures SumsTo100(d)
    ensures d.pctB == pctB
    ensures pctA + pctB == 100 ==> d.pctA == pctA
  {
    if pctA + pctB != 100 then Distribution(pctA + (100 - (pctA + pctB)), pctB)
    else Distribution(pctA, pctB)
  }

  /** The two normalised shares of a positive total add up to 100. */
  lemma ShareComplement(p: real, q: real)
    requires p + q > 0.0
    ensures (p / (p + q)) * 100.0 == 100.0 - (q / (p + q)) * 100.0
  {
    assert p / (p + q) + q / (p + q) == (p + q) / (p + q) == 1.0;
  }

  /** `_distribucion_inicial`: A's share comes from B's weight and B's from A's;
      in exact arithmetic both rounded shares are kept and the residual
      correction never changes anything. */
  function InitialDistribution(ca: int, cb: int): (d: Distribution)
    ensures SumsTo100(d)
    ensures d.pctA == RoundHalfEven(SeverityWeight(cb) / (SeverityWeight(ca) + SeverityWeight(cb)) * 100.0)
    ensures d.pctB == RoundHalfEven(SeverityWeight(ca) / (SeverityWeight(ca) + SeverityWeight(cb)) * 100.0)
  {
    var wA, wB := SeverityWeight(ca), SeverityWeight(cb);
    var total := wA + wB;
    if total > 0.0 then
      ShareComplement(wA, wB);
      RoundComplement((wB / total) * 100.0);
      AssignResidual(RoundHalfEven((wB / total) * 100.0), RoundHalfEven((wA / total) * 100.0))
    else
      AssignResidual(50, 50)
  }

  /** The seed is inverted with respect to severity: the vehicle with the
      heavier circumstance receives the smaller share. */
  lemma SeedInvertsSeverity(ca: int, cb: int)
    requires SeverityWeight(ca) >= SeverityWeight(cb)
    ensures InitialDistribution(ca, cb).pctA <= InitialDistribution(ca, cb).pctB
  {
    var wA, wB := SeverityWeight(ca), SeverityWeight(cb);
    var total := wA + wB;
    assert (wB / total) * 100.0 <= (wA / total) * 100.0 by {
      assert wB / total <= wA / total;
    }
    RoundMonotone((wB / total) * 100.0, (wA / total) * 100.0);
  }

  /** Swapping the two circumstances swaps the seed. */
  lemma SeedMirror(ca: int, cb: int)
    ensures InitialDistribution(cb, ca) == Swap(InitialDistribution(ca, cb))
  {
    assert SeverityWeight(cb) + SeverityWeight(ca) == SeverityWeight(ca) + SeverityWeight(cb);
  }

  /** The seed for intoxication (13) against following too close (6). */
  lemma SeedExample()
    ensures InitialDistribution(13, 6) == Distribution(41, 59)
  {
    var x := (7.0 / 17.0) * 100.0;
    assert 40.5 < x < 41.5;
    RoundHalfEvenUnique(x, 41);
    var y := (10.0 / 17.0) * 100.0;
    assert 58.5 < y < 59.5;
    RoundHalfEvenUnique(y, 59);
  }

  // ---------------------------------------------------------------------------
  // Evidence and document weights
  // ---------------------------------------------------------------------------

  /** One counted item: a suggestion blaming A adds its confidence to B's
      weight, one blaming B adds it to A's, a shared one adds half to each;
      any other or missing suggestion adds nothing but is still counted. */
  function Attribute(w: Weights, suggestion: Option<string>, confidence: real): (r: Weights)
    ensures r.count == w.count + 1
    // the confidence of a suggestion blaming one party is credited to the
    // OTHER party's weight, half to each when shared
    ensures suggestion == Some("vehiculo_a") ==> r.weightA == w.weightA && r.weightB == w.weightB + confidence
    ensures suggestion == Some("vehiculo_b") ==> r.weightA == w.weightA + confidence && r.weightB == w.weightB
    ensures suggestion == Some("compartida") ==>
      r.weightA == w.weightA + confidence * 0.5 && r.weightB == w.weightB + confidence * 0.5
    ensures suggestion !in {Some("vehiculo_a"), Some("vehiculo_b"), Some("compartida")} ==>
      r.weightA == w.weightA && r.weightB == w.weightB
    ensures r.weightA + r.weightB ==
      w.weightA + w.weightB + (if suggestion in {Some("vehiculo_a"), Some("vehiculo_b"), Some("compartida")} then confidence else 0.0)
  {
    if suggestion == Some("vehiculo_a") then Weights(w.weightA, w.weightB + confidence, w.count + 1)
    else if suggestion == Some("vehiculo_b") then Weights(w.weightA + confidence, w.weightB, w.count + 1)
    else if suggestion == Some("compartida") then
      Weights(w.weightA + confidence * 0.5, w.weightB + confidence * 0.5, w.count + 1)
    else Weights(w.weightA, w.weightB, w.count + 1)
  }

  /** The confidence of an assessment, 0.5 when missing. */
  function Confidence(a: Assessment): real {
    a.confidence.GetOr(DefaultConfidence)
  }

  /** The running sums of `_calcular_peso_evidencias` before averaging: only
      processed items count. */
  function EvidenceSums(evidence: seq<Evidence>): (w: Weights)
    ensures w.count <= |evidence|
    ensures w.count == 0 ==> w.weightA == 0.0 && w.weightB == 0.0
    ensures (forall i :: 0 <= i < |evidence| ==> !evidence[i].processed) ==> w == Weights(0.0, 0.0, 0)
    ensures (forall i :: 0 <= i < |evidence| ==> evidence[i].processed) ==> w.count == |evidence|
    decreases |evidence|
  {
    if evidence == [] then Weights(0.0, 0.0, 0)
    else
      var sums := EvidenceSums(evidence[..|evidence| - 1]);
      var e := evidence[|evidence| - 1];
      if e.processed then Attribute(sums, e.analysis.suggestion, Confidence(e.analysis)) else sums
  }

  /** The running sums of `_calcular_peso_documentos` before averaging:
      documents classified with confidence below 0.3 are skipped. */
  function DocumentSums(documents: seq<Document>): (w: Weights)
    ensures w.count <= |documents|
    ensures w.count == 0 ==> w.weightA == 0.0 && w.weightB == 0.0
    ensures (forall i :: 0 <= i < |documents| ==>
               Confidence(documents[i].classification) < MinDocumentConfidence) ==> w == Weights(0.0, 0.0, 0)
    ensures (forall i :: 0 <= i < |documents| ==>
               Confidence(documents[i].classification) >= MinDocumentConfidence) ==> w.count == |documents|
    decreases |documents|
  {
    if documents == [] then Weights(0.0, 0.0, 0)
    else
      var sums := DocumentSums(documents[..|documents| - 1]);
      var c := documents[|documents| - 1].classification;
      if Confidence(c) < MinDocumentConfidence then sums
      else Attribute(sums, c.suggestion, Confidence(c))
  }

  /** Divide the sums by the number of counted items, (0, 0) when none was counted. */
  function Average(w: Weights): (r: Weights)
    ensures r.count == w.count
    ensures w.count > 0 ==> r.weightA * w.count as real == w.weightA && r.weightB * w.count as real == w.weightB
    ensures w.count == 0 ==> r == w
  {
    if w.count > 0 then Weights(w.weightA / w.count as real, w.weightB / w.count as real, w.count) else w
  }

  function EvidenceWeight(evidence: seq<Evidence>): Weights {
    Average(EvidenceSums(evidence))
  }

  function DocumentWeight(documents: seq<Document>): Weights {
    Average(DocumentSums(documents))
  }

  /** `_calcular_peso_evidencias`. */
  method ComputeEvidenceWeight(evidence: seq<Evidence>) returns (w: Weights)
    ensures w == EvidenceWeight(evidence)
  {
    var pesoA, pesoB, total := 0.0, 0.0, 0;
    for i := 0 to |evidence|
      invariant Weights(pesoA, pesoB, total) == EvidenceSums(evidence[..i])
    {
      assert evidence[..i + 1][..i] == evidence[..i];
      var e := evidence[i];
      if !e.processed {
        continue;
      }
      total := total + 1;
      var analysis := e.analysis;
      if analysis.suggestion.Some? {
        if analysis.suggestion.value == "vehiculo_a" {
          pesoB := pesoB + Confidence(analysis);
        } else if analysis.suggestion.value == "vehiculo_b" {
          pesoA := pesoA + Confidence(analysis);
        } else if analysis.suggestion.value == "compartida" {
          pesoA := pesoA + Confidence(analysis) * 0.5;
          pesoB := pesoB + Confidence(analysis) * 0.5;
        }
      }
    }
    assert evidence[..|evidence|] == evidence;
    if total > 0 {
      pesoA := pesoA / total as real;
      pesoB := pesoB / total as real;
    }
    w := Weights(pesoA, pesoB, total);
  }

  /** `_calcular_peso_documentos`. */
  method ComputeDocumentWeight(documents: seq<Document>) returns (w: Weights)
    ensures w == DocumentWeight(documents)
  {
    var pesoA, pesoB, total := 0.0, 0.0, 0;
    for i := 0 to |documents|
      invariant Weights(pesoA, pesoB, total) == DocumentSums(documents[..i])
    {
      assert documents[..i + 1][..i] == documents[..i];
      var classification := documents[i].classification;
      var confidence := Confidence(classification);
      if confidence < MinDocumentConfidence {
        continue;
      }
      total := total + 1;
      if classification.suggestion.Some? {
        if classification.suggestion.value == "vehiculo_a" {
          pesoB := pesoB + confidence;
        } else if classification.suggestion.value == "vehiculo_b" {
          pesoA := pesoA + confidence;
        } else if classification.suggestion.value == "compartida" {
          pesoA := pesoA + confidence * 0.5;
          pesoB := pesoB + confidence * 0.5;
        }
      }
    }
    assert documents[..|documents|] == documents;
    if total > 0 {
      pesoA := pesoA / total as real;
      pesoB := pesoB / total as real;
    }
    w := Weights(pesoA, pesoB, total);
  }

  /** Averaged weights lie in [0, 1], and so does their sum, when the sums are
      non-negative and at most the count. */
  lemma AverageBounds(w: Weights)
    requires 0.0 <= w.weightA && 0.0 <= w.weightB && w.weightA + w.weightB <= w.count as real
    ensures var r := Average(w); 0.0 <= r.weightA && 0.0 <= r.weightB && r.weightA + r.weightB <= 1.0
  {
    if w.count > 0 {
      var n := w.count as real;
      var r := Average(w);
      assert (r.weightA + r.weightB) * n == w.weightA + w.weightB;
    }
  }

  /** Sums of processed evidence with confidences in [0, 1]. */
  lemma {:induction false} EvidenceSumsBounds(evidence: seq<Evidence>)
    requires forall i :: 0 <= i < |evidence| && evidence[i].processed ==> 0.0 <= Confidence(evidence[i].analysis) <= 1.0
    ensures var w := EvidenceSums(evidence);
      0.0 <= w.weightA && 0.0 <= w.weightB && w.weightA + w.weightB <= w.count as real
    decreases |evidence|
  {
    if evidence != [] {
      EvidenceSumsBounds(evidence[..|evidence| - 1]);
    }
  }

  /** With every confidence in [0, 1], the evidence weights lie in [0, 1] and
      so does their sum. */
  lemma EvidenceWeightBounds(evidence: seq<Evidence>)
    requires forall i :: 0 <= i < |evidence| && evidence[i].processed ==> 0.0 <= Confidence(evidence[i].analysis) <= 1.0
    ensures var w := EvidenceWeight(evidence);
      0.0 <= w.weightA && 0.0 <= w.weightB && w.weightA + w.weightB <= 1.0
  {
    EvidenceSumsBounds(evidence);
    AverageBounds(EvidenceSums(evidence));
  }

  /** Sums of documents with confidences at most 1 (the 0.3 threshold already
      keeps the counted ones positive). */
  lemma {:induction false} DocumentSumsBounds(documents: seq<Document>)
    requires forall i :: 0 <= i < |documents| ==> Confidence(documents[i].classification) <= 1.0
    ensures var w := DocumentSums(documents);
      0.0 <= w.weightA && 0.0 <= w.weightB && w.weightA + w.weightB <= w.count as real
    decreases |documents|
  {
    if documents != [] {
      DocumentSumsBounds(documents[..|documents| - 1]);
    }
  }

  /** The number of evidence items counted is the number of processed ones. */
  lemma {:induction false} EvidenceSumsCountsProcessed(evidence: seq<Evidence>)
    ensures EvidenceSums(evidence).count == |set i | 0 <= i < |evidence| && evidence[i].processed|
    decreases |evidence|
  {
    if evidence != [] {
      var n := |evidence| - 1;
      var prefix := evidence[..n];
      EvidenceSumsCountsProcessed(prefix);
      var before := set i | 0 <= i < |prefix| && prefix[i].processed;
      var after := set i | 0 <= i < |evidence| && evidence[i].processed;
      if evidence[n].processed {
        assert after == before + {n};
      } else {
        assert after == before;
      }
    }
  }

  /** The number of documents counted is the number classified with
      confidence at least 0.3. */
  lemma {:induction false} DocumentSumsCountsConfident(documents: seq<Document>)
    ensures DocumentSums(documents).count ==
      |set i | 0 <= i < |documents| && Confidence(documents[i].classification) >= MinDocumentConfidence|
    decreases |documents|
  {
    if documents != [] {
      var n := |documents| - 1;
      var prefix := documents[..n];
      DocumentSumsCountsConfident(prefix);
      var before := set i | 0 <= i < |prefix| && Confidence(prefix[i].classification) >= MinDocumentConfidence;
      var after := set i | 0 <= i < |documents| && Confidence(documents[i].classification) >= MinDocumentConfidence;
      if Confidence(documents[n].classification) >= MinDocumentConfidence {
        assert after == before + {n};
      } else {
        assert after == before;
      }
    }
  }

  /** Evidence that only ever suggests A (`vehiculo_a`) as responsible puts
      no weight on A: the code credits a suggestion against A to B. */
  lemma {:induction false} EvidenceBlamingAWeighsOnlyB(evidence: seq<Evidence>)
    requires forall i :: 0 <= i < |evidence| && evidence[i].processed ==>
      evidence[i].analysis.suggestion == Some("vehiculo_a")
    ensures EvidenceSums(evidence).weightA == 0.0
    decreases |evidence|
  {
    if evidence != [] {
      EvidenceBlamingAWeighsOnlyB(evidence[..|evidence| - 1]);
    }
  }

  /** Likewise for the counted documents: when each suggests A as
      responsible, A's document weight stays zero. */
  lemma {:induction false} DocumentsBlamingAWeighOnlyB(documents: seq<Document>)
    requires forall i :: 0 <= i < |documents| && Confidence(documents[i].classification) >= MinDocumentConfidence ==>
      documents[i].classification.suggestion == Some("vehiculo_a")
    ensures DocumentSums(documents).weightA == 0.0
    decreases |documents|
  {
    if documents != [] {
      DocumentsBlamingAWeighOnlyB(documents[..|documents| - 1]);
    }
  }

  /** With every document confidence at most 1, the document weights lie in
      [0, 1] and so does their sum. */
  lemma DocumentWeightBounds(documents: seq<Document>)
    requires forall i :: 0 <= i < |documents| ==> Confidence(documents[i].classification) <= 1.0
    ensures var w := DocumentWeight(documents);
      0.0 <= w.weightA && 0.0 <= w.weightB && w.weightA + w.weightB <= 1.0
  {
    DocumentSumsBounds(documents);
    AverageBounds(DocumentSums(documents));
  }

  /** The same assessment with the blamed vehicle exchanged. */
  function MirrorAssessment(a: Assessment): Assessment {
    if a.suggestion == Some("vehiculo_a") then Assessment(Some("vehiculo_b"), a.confidence)
    else if a.suggestion == Some("vehiculo_b") then Assessment(Some("vehiculo_a"), a.confidence)
    else a
  }

  function MirrorEvidence(evidence: seq<Evidence>): (r: seq<Evidence>)
    ensures |r| == |evidence|
    decreases |evidence|
  {
    if evidence == [] then []
    else
      var e := evidence[|evidence| - 1];
      MirrorEvidence(evidence[..|evidence| - 1]) + [Evidence(e.processed, MirrorAssessment(e.analysis))]
  }

  function MirrorDocuments(documents: seq<Document>): (r: seq<Document>)
    ensures |r| == |documents|
    decreases |documents|
  {
    if documents == [] then []
    else
      var d := documents[|documents| - 1];
      MirrorDocuments(documents[..|documents| - 1]) +
        [Document(d.text, d.entities, MirrorAssessment(d.classification))]
  }

  lemma AttributeMirror(w: Weights, a: Assessment, confidence: real)
    ensures Attribute(SwapWeights(w), MirrorAssessment(a).suggestion, confidence) ==
            SwapWeights(Attribute(w, a.suggestion, confidence))
  {
  }

  /** Exchanging the blamed vehicle in every evidence item exchanges the weights. */
  lemma {:induction false} EvidenceSumsMirror(evidence: seq<Evidence>)
    ensures EvidenceSums(MirrorEvidence(evidence)) == SwapWeights(EvidenceSums(evidence))
    decreases |evidence|
  {
    if evidence != [] {
      var n := |evidence|;
      var m := MirrorEvidence(evidence);
      assert m[..n - 1] == MirrorEvidence(evidence[..n - 1]);
      EvidenceSumsMirror(evidence[..n - 1]);
      AttributeMirror(EvidenceSums(evidence[..n - 1]), evidence[n - 1].analysis, Confidence(evidence[n - 1].analysis));
    }
  }

  /** Exchanging the blamed vehicle in every document exchanges the weights. */
  lemma {:induction false} DocumentSumsMirror(documents: seq<Document>)
    ensures DocumentSums(MirrorDocuments(documents)) == SwapWeights(DocumentSums(documents))
    decreases |documents|
  {
    if documents != [] {
      var n := |documents|;
      var m := MirrorDocuments(documents);
      assert m[..n - 1] == MirrorDocuments(documents[..n - 1]);
      DocumentSumsMirror(documents[..n - 1]);
      var c := documents[n - 1].classification;
      AttributeMirror(DocumentSums(documents[..n - 1]), c, Confidence(c));
    }
  }

  // ---------------------------------------------------------------------------
  // Adjustment rounds
  // ---------------------------------------------------------------------------

  /** A's blended share: 0.5 of the current split, 0.3 of the evidence weight
      and 0.2 of the document weight, both scaled to percent. */
  function BlendA(d: Distribution, ev: Weights, doc: Weights): real {
    d.pctA as real * (1.0 - EvidenceFactor - DocumentFactor) +
    ev.weightA * 100.0 * EvidenceFactor +
    doc.weightA * 100.0 * DocumentFactor
  }

  function BlendB(d: Distribution, ev: Weights, doc: Weights): real {
    d.pctB as real * (1.0 - EvidenceFactor - DocumentFactor) +
    ev.weightB * 100.0 * EvidenceFactor +
    doc.weightB * 100.0 * DocumentFactor
  }

  /** `_ajustar_distribucion`: blend, renormalise to 100, round, and put any
      residual onto A; 50/50 when the blended total is not positive. Each side
      is its own rounded normalised share: in exact arithmetic the residual
      correction never fires. */
  function Adjust(d: Distribution, ev: Weights, doc: Weights): (r: Distribution)
    ensures SumsTo100(r)
    ensures var a, b := BlendA(d, ev, doc), BlendB(d, ev, doc);
      a + b > 0.0 ==>
        r.pctA == RoundHalfEven((a / (a + b)) * 100.0) && r.pctB == RoundHalfEven((b / (a + b)) * 100.0)
    ensures BlendA(d, ev, doc) + BlendB(d, ev, doc) <= 0.0 ==> r == Distribution(50, 50)
  {
    var a, b := BlendA(d, ev, doc), BlendB(d, ev, doc);
    var total := a + b;
    if total > 0.0 then
      ShareComplement(a, b);
      RoundComplement((b / total) * 100.0);
      AssignResidual(RoundHalfEven((a / total) * 100.0), RoundHalfEven((b / total) * 100.0))
    else
      AssignResidual(50, 50)
  }

  /** With no evidence and no document weight, a round leaves an integer split
      that sums to 100 unchanged. */
  lemma AdjustWithoutWeights(d: Distribution, ev: Weights, doc: Weights)
    requires SumsTo100(d)
    requires ev.weightA == 0.0 && ev.weightB == 0.0 && doc.weightA == 0.0 && doc.weightB == 0.0
    ensures Adjust(d, ev, doc) == d
  {
    var a, b := BlendA(d, ev, doc), BlendB(d, ev, doc);
    assert a == d.pctA as real * 0.5 && b == d.pctB as real * 0.5;
    assert a + b == 50.0;
    assert (a / (a + b)) * 100.0 == d.pctA as real;
    RoundOfInteger(d.pctA);
  }

  /** A round commutes with exchanging the two vehicles. */
  lemma AdjustMirror(d: Distribution, ev: Weights, doc: Weights)
    ensures Adjust(Swap(d), SwapWeights(ev), SwapWeights(doc)) == Swap(Adjust(d, ev, doc))
  {
    assert BlendA(Swap(d), SwapWeights(ev), SwapWeights(doc)) == BlendB(d, ev, doc);
    assert BlendB(Swap(d), SwapWeights(ev), SwapWeights(doc)) == BlendA(d, ev, doc);
  }

  /** The split after n rounds. */
  function Rounds(d: Distribution, ev: Weights, doc: Weights, n: nat): (r: Distribution)
    ensures (n > 0 || SumsTo100(d)) ==> SumsTo100(r)
  {
    if n == 0 then d else Adjust(Rounds(d, ev, doc, n - 1), ev, doc)
  }

  lemma {:induction false} RoundsMirror(d: Distribution, ev: Weights, doc: Weights, n: nat)
    ensures Rounds(Swap(d), SwapWeights(ev), SwapWeights(doc), n) == Swap(Rounds(d, ev, doc, n))
  {
    if n > 0 {
      RoundsMirror(d, ev, doc, n - 1);
      AdjustMirror(Rounds(d, ev, doc, n - 1), ev, doc);
    }
  }

  /** `_converge`: A's share moved by at most 0.05 points. */
  function Converges(previous: Distribution, current: Distribution): (r: bool)
    ensures r <==> previous.pctA == current.pctA
  {
    var diff := previous.pctA - current.pctA;
    (if diff < 0 then -diff else diff) as real <= ConvergenceThreshold
  }

  /** A converged round has reached a fixed point: with both splits summing
      to 100, an unchanged A share means an unchanged split. */
  lemma ConvergedIsFixedPoint(d: Distribution, ev: Weights, doc: Weights)
    requires SumsTo100(d) && Converges(d, Adjust(d, ev, doc))
    ensures Adjust(d, ev, doc) == d
  {
  }

  /** Once a round converges, every later round gives the same split, so
      stopping early gives the split that all five rounds would. */
  lemma {:induction false} StaysConverged(seed: Distribution, ev: Weights, doc: Weights, k: nat, m: nat)
    requires SumsTo100(seed)
    requires k <= m
    requires Converges(Rounds(seed, ev, doc, k), Rounds(seed, ev, doc, k + 1))
    ensures Rounds(seed, ev, doc, m) == Rounds(seed, ev, doc, k)
    decreases m
  {
    if m > k {
      StaysConverged(seed, ev, doc, k, m - 1);
      ConvergedIsFixedPoint(Rounds(seed, ev, doc, k), ev, doc);
    }
  }

  // ---------------------------------------------------------------------------
  // Classification and result
  // ---------------------------------------------------------------------------

  /** The final classification: A at 90 or more, else B at 90 or more, else
      shared; for a split summing to 100 at most one side can reach 90. */
  function Classify(d: Distribution): (r: Responsible)
    ensures r in {VehicleA, VehicleB, Shared}
    ensures r == VehicleA <==> d.pctA >= 90
    ensures SumsTo100(d) ==> (r == VehicleB <==> d.pctB >= 90)
    ensures SumsTo100(d) ==> (r == Shared <==> d.pctA < 90 && d.pctB < 90)
  {
    if d.pctA >= 90 then VehicleA else if d.pctB >= 90 then VehicleB else Shared
  }

  function MirrorParty(r: Responsible): Responsible {
    match r
    case VehicleA => VehicleB
    case VehicleB => VehicleA
    case _ => r
  }

  /** Classification does not depend on which vehicle is called A. */
  lemma ClassifyMirror(d: Distribution)
    requires SumsTo100(d)
    ensures Classify(Swap(d)) == MirrorParty(Classify(d))
  {
  }

  /** The split a negotiation ends with: five rounds from the seed. */
  function NegotiatedDistribution(ca: int, cb: int, documents: seq<Document>, evidence: seq<Evidence>): Distribution {
    Rounds(InitialDistribution(ca, cb), EvidenceWeight(evidence), DocumentWeight(documents), MaxIterations)
  }

  /** The negotiation treats the two vehicles alike: exchanging the vehicles'
      circumstances and the blamed vehicle in every record exchanges the
      resulting shares (unlike the matrix, which is not mirror-consistent). */
  lemma NegotiationSymmetric(ca: int, cb: int, documents: seq<Document>, evidence: seq<Evidence>)
    ensures NegotiatedDistribution(cb, ca, MirrorDocuments(documents), MirrorEvidence(evidence)) ==
            Swap(NegotiatedDistribution(ca, cb, documents, evidence))
  {
    SeedMirror(ca, cb);
    EvidenceSumsMirror(evidence);
    DocumentSumsMirror(documents);
    RoundsMirror(InitialDistribution(ca, cb), EvidenceWeight(evidence), DocumentWeight(documents), MaxIterations);
  }

  // ---------------------------------------------------------------------------
  // Justification
  // ---------------------------------------------------------------------------

  const NegotiationHeader := "Responsabilidad determinada mediante algoritmo de negociación. "
  const LeadA := "El vehículo A tiene mayor responsabilidad ("
  const LeadB := "El vehículo B tiene mayor responsabilidad ("
  const LeadEqual := "Ambos vehículos comparten responsabilidad equitativamente (50% cada uno). "

  /** The sentence naming the party with the larger share, or the equal split,
      in the three pieces the source appends one after the other. */
  function DominanceSentence(d: Distribution, descA: string, descB: string): string {
    if d.pctA > d.pctB then
      (LeadA + IntToString(d.pctA) + "%) ") +
      ("por " + descA + ", mientras que el vehículo B tiene " + IntToString(d.pctB) + "% ") +
      ("por " + descB + ".")
    else if d.pctB > d.pctA then
      (LeadB + IntToString(d.pctB) + "%) ") +
      ("por " + descB + ", mientras que el vehículo A tiene " + IntToString(d.pctA) + "% ") +
      ("por " + descA + ".")
    else
      LeadEqual + ("El vehículo A por " + descA + " y el vehículo B por " + descB + ".")
  }

  /** The sentence opens by naming the party with the larger share, and with
      the equal-split phrase exactly when the shares are equal. */
  lemma DominanceSentenceLeads(d: Distribution, descA: string, descB: string)
    ensures var s := DominanceSentence(d, descA, descB);
      (d.pctA > d.pctB <==> LeadA <= s) &&
      (d.pctB > d.pctA <==> LeadB <= s) &&
      (d.pctA == d.pctB <==> LeadEqual <= s)
  {
    var s := DominanceSentence(d, descA, descB);
    // the leads differ at position 12 ('A' / 'B') and at position 42 ('(' / 'e')
    assert LeadA[12] == 'A' && LeadB[12] == 'B' && LeadA[42] == '(' && LeadB[42] == '(' && LeadEqual[42] == 'e';
    if d.pctA > d.pctB {
      assert s[..|LeadA|] == LeadA;
      assert s[12] == 'A' && s[42] == '(';
    } else if d.pctB > d.pctA {
      assert s[..|LeadB|] == LeadB;
      assert s[12] == 'B' && s[42] == '(';
    } else {
      assert s[..|LeadEqual|] == LeadEqual;
      assert s[42] == 'e';
    }
  }

  /** The closing sentence about how many evidence items and documents counted. */
  function EvidenceSentence(evidenceCount: nat, documentCount: nat): (s: string)
    ensures s == "" <==> evidenceCount == 0 && documentCount == 0
  {
    if evidenceCount > 0 then
      (" El análisis se basó en " + NatToString(evidenceCount) + " evidencias visuales") +
      (if documentCount > 0 then " y " + NatToString(documentCount) + " documentos." else ".")
    else if documentCount > 0 then
      " El análisis se basó en " + NatToString(documentCount) + " documentos."
    else ""
  }

  /** `_generar_justificacion`, built piece by piece as the source does. */
  method GenerateJustification(d: Distribution, ca: int, cb: int, ev: Weights, doc: Weights)
    returns (j: string)
    ensures j == NegotiationHeader +
      DominanceSentence(d, ShortDescription(ca), ShortDescription(cb)) +
      EvidenceSentence(ev.count, doc.count)
  {
    var descA, descB := ShortDescription(ca), ShortDescription(cb);
    j := NegotiationHeader;
    if d.pctA > d.pctB {
      var p1 := LeadA + IntToString(d.pctA) + "%) ";
      var p2 := "por " + descA + ", mientras que el vehículo B tiene " + IntToString(d.pctB) + "% ";
      var p3 := "por " + descB + ".";
      j := j + p1;
      j := j + p2;
      j := j + p3;
      ConcatAssoc4(NegotiationHeader, p1, p2, p3);
      assert j == NegotiationHeader + DominanceSentence(d, descA, descB);
    } else if d.pctB > d.pctA {
      var p1 := LeadB + IntToString(d.pctB) + "%) ";
      var p2 := "por " + descB + ", mientras que el vehículo A tiene " + IntToString(d.pctA) + "% ";
      var p3 := "por " + descA + ".";
      j := j + p1;
      j := j + p2;
      j := j + p3;
      ConcatAssoc4(NegotiationHeader, p1, p2, p3);
      assert j == NegotiationHeader + DominanceSentence(d, descA, descB);
    } else {
      var p2 := "El vehículo A por " + descA + " y el vehículo B por " + descB + ".";
      j := j + LeadEqual;
      j := j + p2;
      ConcatAssoc3(NegotiationHeader, LeadEqual, p2);
      assert j == NegotiationHeader + DominanceSentence(d, descA, descB);
    }
    ghost var beforeCounts := j;
    if ev.count > 0 {
      var p1 := " El análisis se basó en " + NatToString(ev.count) + " evidencias visuales";
      j := j + p1;
      var p2 := if doc.count > 0 then " y " + NatToString(doc.count) + " documentos." else ".";
      j := j + p2;
      ConcatAssoc3(beforeCounts, p1, p2);
    } else if doc.count > 0 {
      j := j + (" El análisis se basó en " + NatToString(doc.count) + " documentos.");
    }
    assert j == beforeCounts + EvidenceSentence(ev.count, doc.count);
  }

  // ---------------------------------------------------------------------------
  // The negotiation loop
  // ---------------------------------------------------------------------------

  /** The 0-based index of the first round from `i` on whose adjustment
      converges, or `MaxIterations` when none of the remaining ones does. */
  function FirstConverging(seed: Distribution, ev: Weights, doc: Weights, i: nat): (n: nat)
    requires i <= MaxIterations
    ensures i <= n <= MaxIterations
    ensures forall j :: i <= j < n ==> !Converges(Rounds(seed, ev, doc, j), Rounds(seed, ev, doc, j + 1))
    ensures n < MaxIterations ==> Converges(Rounds(seed, ev, doc, n), Rounds(seed, ev, doc, n + 1))
    decreases MaxIterations - i
  {
    if i == MaxIterations then i
    else if Converges(Rounds(seed, ev, doc, i), Rounds(seed, ev, doc, i + 1)) then i
    else FirstConverging(seed, ev, doc, i + 1)
  }

  /** A round count with no converging round before it, that either is the
      limit or converges itself, is the first converging round. */
  lemma FirstConvergingUnique(seed: Distribution, ev: Weights, doc: Weights, k: nat)
    requires k <= MaxIterations
    requires forall j :: 0 <= j < k ==> !Converges(Rounds(seed, ev, doc, j), Rounds(seed, ev, doc, j + 1))
    requires k < MaxIterations ==> Converges(Rounds(seed, ev, doc, k), Rounds(seed, ev, doc, k + 1))
    ensures k == FirstConverging(seed, ev, doc, 0)
  {
  }

  /** The whole result of a negotiation: the split of five rounds, its
      classification, the justification, the index of the first converging
      round and whether there was one. */
  function NegotiatedResult(ca: int, cb: int, documents: seq<Document>, evidence: seq<Evidence>): NegotiationResult {
    var seed, ev, doc := InitialDistribution(ca, cb), EvidenceWeight(evidence), DocumentWeight(documents);
    var n := FirstConverging(seed, ev, doc, 0);
    var d := NegotiatedDistribution(ca, cb, documents, evidence);
    NegotiationResult(
      Classify(d), d,
      NegotiationHeader + DominanceSentence(d, ShortDescription(ca), ShortDescription(cb)) +
        EvidenceSentence(ev.count, doc.count),
      n, n < MaxIterations)
  }

  /** The `while` loop of `negociar`: at most five rounds, stopping after
      the first one that converges. The split it ends with is the one all
      five rounds give, and the counter is the first converging round. */
  method RunRounds(seed: Distribution, ev: Weights, doc: Weights) returns (current: Distribution, iteration: nat)
    requires SumsTo100(seed)
    ensures current == Rounds(seed, ev, doc, MaxIterations)
    ensures iteration == FirstConverging(seed, ev, doc, 0)
  {
    current := seed;
    iteration := 0;
    while iteration < MaxIterations
      invariant 0 <= iteration <= MaxIterations
      invariant current == Rounds(seed, ev, doc, iteration)
      invariant forall j :: 0 <= j < iteration ==> !Converges(Rounds(seed, ev, doc, j), Rounds(seed, ev, doc, j + 1))
    {
      var previous := current;
      current := Adjust(current, ev, doc);
      if Converges(previous, current) {
        break;
      }
      iteration := iteration + 1;
    }
    // on the early exit, current is one round further than the counter says
    assert iteration < MaxIterations ==>
      current == Rounds(seed, ev, doc, iteration + 1) &&
      Converges(Rounds(seed, ev, doc, iteration), Rounds(seed, ev, doc, iteration + 1));
    if iteration < MaxIterations {
      StaysConverged(seed, ev, doc, iteration, MaxIterations);
      StaysConverged(seed, ev, doc, iteration, iteration + 1);
    }
    FirstConvergingUnique(seed, ev, doc, iteration);
  }

  /** `negociar`: seed, weights, at most five rounds with an early stop on
      convergence, then classification and justification. */
  method Negotiate(ca: int, cb: int, documents: seq<Document>, evidence: seq<Evidence>)
    returns (r: NegotiationResult)
    ensures r == NegotiatedResult(ca, cb, documents, evidence)
    ensures r.iterations <= MaxIterations
    ensures r.converged <==> r.iterations < MaxIterations
    ensures SumsTo100(r.distribution)
    // stopping early loses nothing: the split is the one five rounds give
    ensures r.distribution == NegotiatedDistribution(ca, cb, documents, evidence)
    // iterations is the 0-based index of the first converging round, or 5 when none converged
    ensures var seed, ev, doc := InitialDistribution(ca, cb), EvidenceWeight(evidence), DocumentWeight(documents);
      (forall j :: 0 <= j < r.iterations ==> !Converges(Rounds(seed, ev, doc, j), Rounds(seed, ev, doc, j + 1))) &&
      (r.converged ==> Converges(Rounds(seed, ev, doc, r.iterations), Rounds(seed, ev, doc, r.iterations + 1)))
    // the percentages are passed through unchanged and classified with the 90 thresholds
    ensures r.responsible == Classify(r.distribution)
    ensures r.justification == NegotiationHeader +
      DominanceSentence(r.distribution, ShortDescription(ca), ShortDescription(cb)) +
      EvidenceSentence(EvidenceWeight(evidence).count, DocumentWeight(documents).count)
    // with no evidence or document weight the first round converges and the seed is returned
    ensures var ev, doc := EvidenceWeight(evidence), DocumentWeight(documents);
      (ev.weightA == 0.0 && ev.weightB == 0.0 && doc.weightA == 0.0 && doc.weightB == 0.0) ==>
        r.iterations == 0 && r.converged && r.distribution == InitialDistribution(ca, cb)
  {
    var seed := InitialDistribution(ca, cb);
    var ev := ComputeEvidenceWeight(evidence);
    var doc := ComputeDocumentWeight(documents);
    var current, iteration := RunRounds(seed, ev, doc);
    if ev.weightA == 0.0 && ev.weightB == 0.0 && doc.weightA == 0.0 && doc.weightB == 0.0 {
      AdjustWithoutWeights(seed, ev, doc);
      assert Rounds(seed, ev, doc, 1) == seed;
      assert Converges(Rounds(seed, ev, doc, 0), Rounds(seed, ev, doc, 1));
      StaysConverged(seed, ev, doc, 0, MaxIterations);
    }
    var responsible := Classify(current);
    var justification := GenerateJustification(current, ca, cb, ev, doc);
    r := NegotiationResult(responsible, current, justification, iteration, iteration < MaxIterations);
  }
}
