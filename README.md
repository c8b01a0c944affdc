# Collision liability engine — a verified Dafny model

This project models the decision core of a vehicle-collision liability engine for motor
insurance claims. Each of the two vehicles is assigned one of fifteen numbered
*circumstances*, such as driving against traffic, running a stop sign or drunk driving.
The core has five parts:

- **Liability matrix** (`MatrizResponsabilidad`, module `Rules`). A fixed 15×15 table holds
  a code for each pair of circumstances: `A`, `B`, `C` (shared) or `NA` (not applicable).
  The interpreter also recognises `NRD` (more information needed) and reports anything
  else as an error. The interpreter turns a code into the outcome record, which gives the
  responsible party, the percentage split and a Spanish justification or message.
  Circumstances outside 1..15 are rejected before the table is read.
- **Negotiator** (`NegociadorResponsabilidad`, module `Negotiation`), for disputed claims:
  - it seeds an integer split from a per-circumstance severity table;
  - it averages the liability suggested by processed visual evidence and by sufficiently
    confident documents;
  - it runs at most five blending rounds, stopping when A's percentage no longer moves;
  - it classifies the final split with a 90% threshold and writes a justification text.
- **Indemnification calculator** (`CalculadorIndemnizacion`, module `Calculator`). It
  computes crossed payments in COP: each party pays its share of the other's damage,
  scaled by its own coverage factor. The receiver's policy then takes off a deductible,
  the larger of a percentage and a minimum. The net amount is clamped at zero, and
  amounts are rounded to cents only in the output.
- **Prediction model** (`ResponsibilityModel`, module `MlModel`), deterministic parts only:
  - its own copy of the table, proved equal to the rules component's;
  - its code interpreter, which also returns both circumstances;
  - the rule-based circumstance predictor. This predictor lower-cases the document texts
    and the descriptions of entities whose plate matches the vehicle's. It counts the
    keyword clues of each circumstance and picks the first circumstance with the most
    hits, or one of six common circumstances when nothing matches.
- **Engine dispatch** (module `Engine`). A disputed claim goes to the negotiator and any
  other claim to the matrix. The calculator runs unless the outcome is "not applicable" or
  "indeterminate".

Supporting modules:

- `Common`: an `Option` type, decimal rendering of integers, and two concatenation
  regroupings.
- `Rounding`: Python 3's `round` (half to even) on exact reals, and rounding to cents.
- `Liability`: the shared result types and the fifteen descriptions.
- `Records`: the evidence and document records.

Stateful code is modelled imperatively, as in the source:

- The negotiation loop and the two weight loops are methods with loop invariants.
  They are proved against recursive specification functions.
- The justification builder appends pieces to a string, as the source does.
- The prediction model is a class with the `modelLoaded` and `matrix` fields that its
  constructor sets.
- Its predictor's nested loops build the description list and the count dictionary.

Some behaviours of the code a reader might not expect, all kept in the model:

- Cell (7,1) of the table holds `NA`.
- No weight is ever rejected as invalid: the negotiator has no error path for weights.
- The convergence test compares A's integer percentage with a threshold of `0.05`.
  On integers this means "unchanged" (`Negotiation.Converges`).
- The calculator itself accepts any outcome, including one without percentages. Only the
  engine keeps "not applicable" and "indeterminate" outcomes away from it.
- The seed gives A the share of B's severity weight, so the more severe circumstance
  receives the smaller share (`Negotiation.SeedInvertsSeverity`).
- Likewise, evidence or a document suggesting A (`vehiculo_a`) as responsible raises B's
  weight, and so B's share, and one suggesting B raises A's (`Negotiation.Attribute`,
  `Negotiation.EvidenceBlamingAWeighsOnlyB`).
- The table is not mirror-consistent (`Rules.NotMirrorConsistent`).

## Model

| member | source | states |
|---|---|---|
| Common.NatToStringValue | core/negotiation.py:371-372 | the decimal text the justification prints for a percentage spells exactly that number |
| Common.IntToStringValue | core/negotiation.py:371-372 | the whole text of a non-negative integer, and the text after the minus sign of a negative one, are decimal digits that spell the magnitude |
| Rounding.RoundHalfEven | core/negotiation.py:144-145 | the result is within 0.5 of the argument, and an exact tie goes to the even integer (Python 3 `round`) |
| Rounding.RoundHalfEvenUnique | core/negotiation.py:144-145 | any integer with those two properties is the rounding, so the properties define it |
| Rounding.RoundMonotone | core/negotiation.py:289-290 | rounding preserves order |
| Rounding.RoundComplement | core/negotiation.py:144-153 | round(x) + round(100 − x) = 100, so in exact arithmetic the two rounded seed shares already sum to 100 |
| Rounding.RoundCents | core/calculator.py:76-78 | rounding to two decimals moves an amount by at most half a cent |
| Rounding.RoundCentsMonotone | core/calculator.py:76-78 | rounding to cents preserves order |
| Rounding.RoundCentsNonNegative | core/calculator.py:67-78 | a non-negative amount stays non-negative when rounded to cents |
| Liability.Description | core/rules.py:162-178 | a description exists exactly for circumstances 1..15, and each is non-empty |
| Liability.ShortDescription | core/negotiation.py:363-364 | the fixed description in range, "Circunstancia n" outside it |
| Rules.MatrixWellFormed | core/rules.py:21-38 | the table has 15 rows of 15 cells, each A, B, C or NA; no cell is NRD or unknown |
| Rules.Cell | core/rules.py:75 | an in-range lookup yields one of A, B, C, NA |
| Rules.Info | core/rules.py:162-182 | the fixed description in range, "Circunstancia desconocida (n)" outside it |
| Rules.Interpret | core/rules.py:103-144 | each code maps to its party, in both directions. Percentages (100/0, 0/100, 50/50) exist exactly for A/B/C. The record carries exactly one of justification and message, always echoes the code, and reports any other code as an error |
| Rules.Determine | core/rules.py:67-81 | out of range gives an error with the range message and no code. In range, the outcome is the interpretation of the cell `Cell(ca, cb)` (party, split and justification as `Interpret` states) and records that cell. It is an error exactly when out of range; it is never "indeterminate", and its percentages sum to 100 |
| Rules.DetermineTotal | core/rules.py:21-38 | every in-range pair is liable or not applicable, and it is not applicable exactly when there are no percentages |
| Rules.ConcreteCells | core/rules.py:23-35 | the full outcomes of (1,2) and (13,6), the split for (4,5), and (1,1) and (7,1) not applicable |
| Rules.NotMirrorConsistent | core/rules.py:23-37 | (1,15) and (15,1) both blame B |
| Negotiation.SeverityWeight | core/negotiation.py:120-139 | every weight is in 2.0..10.0, and an unknown circumstance weighs 5.0 |
| Negotiation.AssignResidual | core/negotiation.py:151-153 | the split sums to 100 with B untouched, and a split that already sums to 100 is left alone |
| Negotiation.InitialDistribution | core/negotiation.py:141-158 | the seed sums to 100; A gets round(wB/(wA+wB)·100) and B gets round(wA/(wA+wB)·100) |
| Negotiation.SeedInvertsSeverity | core/negotiation.py:141-145 | the vehicle with the heavier circumstance never gets the larger seed share |
| Negotiation.SeedMirror | core/negotiation.py:138-153 | swapping the circumstances swaps the seed |
| Negotiation.SeedExample | core/negotiation.py:120-153 | drunk driving (13) against following too close (6) seeds 41/59 |
| Negotiation.Attribute | core/negotiation.py:186-193 | one counted item raises the count by one; a suggestion blaming A ("vehiculo_a") adds its confidence to B only, one blaming B ("vehiculo_b") to A only, "compartida" half to each, and any other suggestion leaves both weights unchanged |
| Negotiation.EvidenceSums | core/negotiation.py:178-193 | the count is at most the number of items and nothing counted means zero weights; when no item is processed the sums are all zero, and when every item is processed every item is counted |
| Negotiation.DocumentSums | core/negotiation.py:223-239 | the same for documents: when every document's confidence is below 0.3 the sums are all zero, and when none is below 0.3 every document is counted |
| Negotiation.EvidenceSumsCountsProcessed | core/negotiation.py:178-193 | the evidence count is exactly the number of processed items |
| Negotiation.DocumentSumsCountsConfident | core/negotiation.py:223-239 | the document count is exactly the number of documents classified with confidence at least 0.3 |
| Negotiation.Average | core/negotiation.py:195-197 | with a positive count, each average times the count is the sum; with no items the sums are kept |
| Negotiation.ComputeEvidenceWeight | core/negotiation.py:160-203 | the loop computes the averaged evidence weights that the recursive definition specifies |
| Negotiation.ComputeDocumentWeight | core/negotiation.py:205-248 | the loop computes the averaged document weights that the recursive definition specifies |
| Negotiation.EvidenceWeightBounds | core/negotiation.py:178-197 | with confidences in [0,1], both evidence weights are in [0,1] and sum to at most 1 |
| Negotiation.DocumentWeightBounds | core/negotiation.py:223-243 | with confidences at most 1, both document weights are in [0,1] and sum to at most 1 |
| Negotiation.EvidenceBlamingAWeighsOnlyB | core/negotiation.py:178-193 | when every processed evidence item suggests A (`vehiculo_a`) as responsible, A's evidence weight stays zero: the code credits a suggestion against A to B |
| Negotiation.DocumentsBlamingAWeighOnlyB | core/negotiation.py:223-239 | when every counted document suggests A (`vehiculo_a`) as responsible, A's document weight stays zero: the code credits a suggestion against A to B |
| Negotiation.EvidenceSumsMirror | core/negotiation.py:178-193 | swapping the A/B suggestions of all evidence swaps the two sums |
| Negotiation.DocumentSumsMirror | core/negotiation.py:223-239 | swapping the A/B suggestions of all documents swaps the two sums |
| Negotiation.Adjust | core/negotiation.py:251-303 | a round sums to 100; each side is its rounded normalised blend (0.5 current, 0.3 evidence, 0.2 documents) when the total is positive, and 50/50 otherwise |
| Negotiation.AdjustWithoutWeights | core/negotiation.py:269-298 | with all weights zero, a round returns any split that sums to 100 unchanged |
| Negotiation.AdjustMirror | core/negotiation.py:274-298 | a round commutes with swapping the vehicles |
| Negotiation.Rounds | core/negotiation.py:60-75 | n rounds from a 100-sum seed still sum to 100 |
| Negotiation.RoundsMirror | core/negotiation.py:60-75 | n rounds commute with swapping the vehicles |
| Negotiation.Converges | core/negotiation.py:305-321 | two integer splits converge exactly when A's percentage is unchanged |
| Negotiation.ConvergedIsFixedPoint | core/negotiation.py:72-74 | a converged round leaves the split unchanged |
| Negotiation.StaysConverged | core/negotiation.py:60-75 | once a round converges, every later round gives the same split, so stopping early gives the same result as running all five rounds |
| Negotiation.FirstConverging | core/negotiation.py:60-76 | the result is the least round index from the start on whose adjustment converges, or 5 when none does |
| Negotiation.FirstConvergingUnique | core/negotiation.py:60-76 | a count with no converging round before it, that is either the limit or converges itself, is the first converging round |
| Negotiation.RunRounds | core/negotiation.py:60-76 | the loop stopping after the first converging round ends on the split that all five rounds give, with the counter at the first converging round |
| Negotiation.Classify | core/negotiation.py:79-84 | A at 90% or more gives A; for a 100-sum split, B at 90% or more gives B, and otherwise the result is shared |
| Negotiation.ClassifyMirror | core/negotiation.py:79-84 | swapping the split swaps the classified party |
| Negotiation.NegotiationSymmetric | core/negotiation.py:28-75 | negotiating with the vehicles and all suggestions swapped yields the swapped split |
| Negotiation.DominanceSentenceLeads | core/negotiation.py:369-379 | the sentence opens with A's lead exactly when A has more, with B's exactly when B has more, and with the equal-split text otherwise |
| Negotiation.EvidenceSentence | core/negotiation.py:382-389 | the evidence sentence is empty exactly when neither evidence nor documents were counted |
| Negotiation.GenerateJustification | core/negotiation.py:323-391 | the appended text is the header, the dominance sentence for the two descriptions, then the evidence sentence |
| Negotiation.Negotiate | core/negotiation.py:28-102 | the result is the whole negotiated result: the five-round split (summing to 100), its 90% classification, the generated justification, the index of the first converging round as iterations (≤ 5), and converged exactly when iterations < 5. With no weights it converges at once on the seed |
| Calculator.CoverageFactor | core/calculator.py:103-123 | premium 1.0, estandar 0.9, basica 0.8 or missing, anything else 0.7, each in both directions |
| Calculator.Deductible | core/calculator.py:125-141 | the deductible is the larger of amount·pct/100 and the minimum, both defaulting to 0 |
| Calculator.NetAmount | core/calculator.py:67-68 | net is max(0, gross − deductible): never negative, and at most gross for a non-negative deductible and gross |
| Calculator.Settle | core/calculator.py:58-89 | one payment records payer, payee, COP and the payer's factor. Gross, deductible and net are the rounded exact amounts, with the payee's policy supplying the deductible. Net is never negative, and a zero share pays nothing |
| Calculator.Calculate | core/calculator.py:23-101 | the payments are crossed: A pays B under A's factor and B's deductible, and vice versa. The summary echoes the damages and percentages (missing ones as 0); nets are non-negative, and without percentages nothing is paid |
| Calculator.NetAtMostGross | core/calculator.py:67-78 | after rounding to cents, net still never exceeds gross |
| Calculator.SettleNetAtMostGross | core/calculator.py:58-78 | for non-negative shares, damages, factors and deductible percentages, the recorded net never exceeds the recorded gross |
| Calculator.WorkedExample | core/calculator.py:58-78 | pctA 100, damage B 1,000,000, estandar, 10% / 50,000 gives 900,000 gross, 90,000 deductible and 810,000 net, with nothing from B |
| MlModel.MatrixCopy | ai/ml/responsibility_model.py:45-62 | the model's table equals the rules table, and so is well formed |
| MlModel.Interpret | ai/ml/responsibility_model.py:286-342 | party, percentages, message and code are those of the rules interpreter for every input, and the whole outcome is the same in range. Justifications use "Circunstancia n" out of range, and both circumstances are echoed |
| MlModel.Lookup | ai/ml/responsibility_model.py:113-117 | an in-range lookup gives the rules component's outcome for the same pair and never an error |
| MlModel.LowerChar | ai/ml/responsibility_model.py:203-208 | each capital A-Z and Á É Í Ó Ú Ñ Ü becomes its lower-case letter at the same position of `Lowercase`, no capital survives, and other characters are unchanged |
| MlModel.Lower | ai/ml/responsibility_model.py:203-208 | length is kept, each character is lower-cased by `LowerChar` at its own position, and no capital remains |
| MlModel.LowerIdempotent | ai/ml/responsibility_model.py:203-208 | lower-casing twice is lower-casing once |
| MlModel.ContainsIff | ai/ml/responsibility_model.py:215 | the substring scan succeeds exactly when the clue occurs at some position |
| MlModel.ClueNumbering | ai/ml/responsibility_model.py:179-195 | there are fifteen clues, the k-th for circumstance k |
| MlModel.Hits | ai/ml/responsibility_model.py:214-216 | a description hits a circumstance at most once per clue |
| MlModel.HitsPrefix | ai/ml/responsibility_model.py:214-216 | a description hits circumstance k once if k's clue occurs in it and never otherwise |
| MlModel.CountStep | ai/ml/responsibility_model.py:211-216 | one more description raises k's count by one exactly when k's clue is a substring, and numbers outside 1..15 never count |
| MlModel.FirstMax | ai/ml/responsibility_model.py:219-220 | the chosen key has the maximal count, and every smaller key has a strictly smaller count (dictionary order 1..15) |
| MlModel.Choose | ai/ml/responsibility_model.py:219-224 | there is no choice exactly when every count is 0; otherwise the choice is in 1..15 with a positive, maximal count and is the first such |
| MlModel.CollectDescriptionsLower | ai/ml/responsibility_model.py:198-208 | every collected description is already lower-case |
| MlModel.StopSignCounts | ai/ml/responsibility_model.py:179-216 | the description "pare" counts once for circumstance 4 and nowhere else |
| MlModel.PredictedStopSign | ai/ml/responsibility_model.py:198-220 | the document text "PARE" predicts circumstance 4 |
| MlModel.MissingPlatesMatch | ai/ml/responsibility_model.py:206-208 | an entity without a plate matches a vehicle without a plate and contributes its account and damage text |
| MlModel.Gather | ai/ml/responsibility_model.py:197-208 | the loops collect each document's lower-cased text, then the account and damage text of matching entities, in order |
| MlModel.GatherEntities | ai/ml/responsibility_model.py:205-208 | the inner loop collects the lower-cased account and damage text of exactly the entities whose plate matches the vehicle's, in order |
| MlModel.CountClues | ai/ml/responsibility_model.py:210-216 | the nested loops produce the count dictionary for 1..15 that the clue definition specifies |
| MlModel.AddHits | ai/ml/responsibility_model.py:213-215 | the inner loop adds, for each circumstance, one count per clue of it that occurs in the description, and keeps exactly the keys 1..15 |
| MlModel.DrawCommon | ai/ml/responsibility_model.py:221-224 | the fallback is one of 2, 4, 5, 6, 8, 12 |
| MlModel.ResponsibilityModel.constructor | ai/ml/responsibility_model.py:19-38 | the model is loaded exactly for a non-empty path, and the table is installed |
| MlModel.ResponsibilityModel.PredictSimplified | ai/ml/responsibility_model.py:159-227 | the result is in 1..15; it is the first most-hit circumstance when any clue matched, and a common circumstance otherwise |
| MlModel.ResponsibilityModel.PredictCircumstance | ai/ml/responsibility_model.py:64-88 | the result is in 1..15; without a loaded model it follows the rule-based prediction |
| MlModel.ResponsibilityModel.PredictResponsibility | ai/ml/responsibility_model.py:90-120 | both circumstances are in 1..15, and the prediction is the table lookup for them. It agrees with the rules component. Without a model, each circumstance is the rule-based prediction when a clue matched and one of the common circumstances otherwise |
| Engine.Resolve | core/engine.py:100-123 | a disputed claim's decision is the whole negotiation result (party, split, justification, iterations, converged flag) and an undisputed one's is the matrix outcome. The calculator runs exactly when the party is neither "not applicable" nor "indeterminate", on the decision's percentages. Disputed claims are always indemnified, and any percentages sum to 100 |
| Engine.RangeErrorIsIndemnifiedWithZero | core/engine.py:111-123 | an undisputed out-of-range claim is an error that passes the guard and is indemnified with zero payments |
| Engine.UndisputedIndemnifiedIffLiable | core/engine.py:111-123 | an undisputed in-range claim is indemnified exactly when its cell is A, B or C |

## Left out

- Persistence, document and image processing, the API layer, configuration and logging
  are I/O and are not part of this model.
- The engine's `_determinar_circunstancia` is not part of this model. Its results enter
  `Engine.Claim` as the two circumstance fields.
- `_predecir_con_modelo` and `_extraer_caracteristicas` are random simulations. With a
  loaded model, `PredictCircumstance` returns some unspecified circumstance in 1..15, the
  only property the simulation has.
- `np.random.choice` becomes an unspecified choice from the common circumstances
  (`DrawCommon`), not a uniform distribution.
- The `evidencias` argument of the predictor is accepted but, as in the source, never read.
- Negotiation.Adjust: computed over exact reals rather than IEEE doubles. In particular
  the current-split factor `1.0 - 0.3 - 0.2` is exactly 0.5 here, whereas in double
  precision it is 0.49999999999999994. Ties of `round`, and hence the residual correction
  at core/negotiation.py:296-298, can therefore differ from the source on some inputs.
- Negotiation.InitialDistribution: exact reals likewise. By `RoundComplement` the
  correction at core/negotiation.py:151-153 never fires here, while float error could
  trigger it.
- Calculator.Calculate: `round(x, 2)` is modelled as exact half-to-even rounding to cents.
  Python rounds the binary double, so results can differ by one cent on decimal ties.
- MlModel.Lower: lower-cases only ASCII letters and Á É Í Ó Ú Ñ Ü, not the whole Unicode
  case table of `str.lower`.
- The negotiator's, the matrix's and the model's description tables are identical in
  the source, so they are defined once (`Liability.Description`). Each component keeps
  its own fallback text.
