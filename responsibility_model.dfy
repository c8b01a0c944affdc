/** The deterministic parts of `ResponsibilityModel`: its own copy of the
    liability table, the code interpreter that also reports both
    circumstances, and the rule-based circumstance predictor that counts
    keyword clues in the lower-cased document texts and picks the
    circumstance with the most hits. */
module MlModel {
  import opened Common
  import opened Liability
  import opened Records
  import Rules

  /** The model's copy of the 15x15 table, row = circumstance of A. */
  const MlMatrix: seq<seq<string>> := [
    //  1     2     3     4     5     6     7     8     9     10    11    12    13    14    15
    ["NA", "B",  "A",  "B",  "B",  "A",  "NA", "B",  "B",  "NA", "NA", "B",  "B",  "A",  "B" ],  // 1
    ["A",  "NA", "A",  "B",  "NA", "A",  "NA", "B",  "NA", "A",  "A",  "A",  "NA", "A",  "A" ],  // 2
    ["B",  "B",  "NA", "B",  "NA", "B",  "NA", "B",  "B",  "B",  "B",  "B",  "B",  "B",  "NA"],  // 3
    ["A",  "A",  "A",  "C",  "C",  "A",  "A",  "B",  "B",  "A",  "A",  "A",  "B",  "A",  "B" ],  // 4
    ["A",  "NA", "NA", "C",  "C",  "A",  "NA", "C",  "NA", "A",  "A",  "A",  "B",  "NA", "A" ],  // 5
    ["B",  "B",  "A",  "B",  "B",  "NA", "NA", "B",  "C",  "B",  "B",  "B",  "B",  "A",  "A" ],  // 6
    ["NA", "NA", "NA", "B",  "NA", "NA", "NA", "NA", "NA", "NA", "NA", "NA", "NA", "NA", "A" ],  // 7
    ["A",  "A",  "A",  "A",  "C",  "A",  "NA", "C",  "A",  "A",  "A",  "A",  "B",  "A",  "A" ],  // 8
    ["A",  "NA", "A",  "A",  "NA", "C",  "NA", "B",  "C",  "A",  "A",  "A",  "B",  "C",  "A" ],  // 9
    ["NA", "B",  "A",  "B",  "B",  "A",  "NA", "B",  "B",  "C",  "C",  "A",  "B",  "A",  "A" ],  // 10
    ["NA", "B",  "A",  "B",  "B",  "A",  "NA", "B",  "B",  "C",  "NA", "A",  "B",  "A",  "A" ],  // 11
    ["A",  "B",  "A",  "B",  "B",  "A",  "NA", "B",  "B",  "B",  "B",  "NA", "B",  "A",  "A" ],  // 12
    ["A",  "NA", "A",  "A",  "A",  "A",  "NA", "A",  "A",  "A",  "A",  "A",  "NA", "A",  "A" ],  // 13
    ["B",  "B",  "A",  "B",  "NA", "B",  "NA", "B",  "C",  "B",  "B",  "B",  "B",  "C",  "A" ],  // 14
    ["B",  "B",  "NA", "A",  "B",  "B",  "B",  "B",  "B",  "B",  "B",  "B",  "B",  "B",  "NA"]   // 15
  ]

  /** The copy agrees with the matrix of the rules component cell for cell. */
  lemma MatrixCopy()
    ensures MlMatrix == Rules.Matrix
    ensures Rules.WellFormed(MlMatrix)
  {
    Rules.MatrixWellFormed();
  }

  /** What `predecir_responsabilidad` returns: the interpreted outcome plus
      the two circumstances it came from. */
  datatype Prediction = Prediction(outcome: Outcome, circumstanceA: int, circumstanceB: int)

  /** `_interpretar_codigo` of the model: the rules interpreter's outcome,
      except that an unknown circumstance is described as "Circunstancia n". */
  function Interpret(code: string, ca: int, cb: int): (p: Prediction)
    ensures p.circumstanceA == ca && p.circumstanceB == cb
    // the same responsible party, percentages, message and code as the rules
    // interpreter, for every code and every pair of circumstances
    ensures var q := Rules.Interpret(code, ca, cb);
      p.outcome.responsible == q.responsible && p.outcome.percentages == q.percentages &&
      p.outcome.message == q.message && p.outcome.matrixCode == q.matrixCode
    // and the very same outcome when both circumstances are known
    ensures InRange(ca) && InRange(cb) ==> p.outcome == Rules.Interpret(code, ca, cb)
    ensures code == "A" ==> p.outcome.justification == Some(Rules.SoleAPrefix + ShortDescription(ca))
    ensures code == "B" ==> p.outcome.justification == Some(Rules.SoleBPrefix + ShortDescription(cb))
    ensures code == "C" ==>
      (p.outcome.justification ==
       Some("Responsabilidad compartida: Vehículo A (" + ShortDescription(ca) +
            ") y Vehículo B (" + ShortDescription(cb) + ")"))
    ensures code !in ["A", "B", "C"] ==> p.outcome.justification == None
  {
    var descA, descB := ShortDescription(ca), ShortDescription(cb);
    var outcome :=
      if code == "A" then
        Outcome(VehicleA, Some(Distribution(100, 0)), Some(Rules.SoleAPrefix + descA), None, Some("A"))
      else if code == "B" then
        Outcome(VehicleB, Some(Distribution(0, 100)), Some(Rules.SoleBPrefix + descB), None, Some("B"))
      else if code == "C" then
        Outcome(Shared, Some(Distribution(50, 50)),
                Some("Responsabilidad compartida: Vehículo A (" + descA + ") y Vehículo B (" + descB + ")"),
                None, Some("C"))
      else if code == "NA" then
        Outcome(NotApplicable, None, None, Some(Rules.NotApplicableMessage), Some("NA"))
      else if code == "NRD" then
        Outcome(Indeterminate, None, None, Some(Rules.IndeterminateMessage), Some("NRD"))
      else
        Outcome(Error, None, None, Some(Rules.UnknownCodeMessage + code), Some(code));
    Prediction(outcome, ca, cb)
  }

  /** The table lookup of `predecir_responsabilidad`. The source indexes the
      table without a range check, so both circumstances must be in 1..15. */
  function Lookup(ca: int, cb: int): (p: Prediction)
    requires InRange(ca) && InRange(cb)
    ensures p.circumstanceA == ca && p.circumstanceB == cb
    // the model and the rules component agree on every known pair
    ensures p.outcome == Rules.Determine(ca, cb)
    ensures p.outcome.responsible in {VehicleA, VehicleB, Shared, NotApplicable}
  {
    MatrixCopy();
    Interpret(MlMatrix[ca - 1][cb - 1], ca, cb)
  }

  // ---------------------------------------------------------------------------
  // Text
  // ---------------------------------------------------------------------------

  /** The letters `A` to `Z` (or `a` to `z`) in order. */
  function Alphabet(first: char): (s: string)
    requires first as int + 26 <= 0xD800
    ensures |s| == 26
    ensures forall i :: 0 <= i < 26 ==> s[i] as int == first as int + i
  {
    seq(26, i requires 0 <= i < 26 => (first as int + i) as char)
  }

  /** The capitals that are lower-cased: `A` to `Z`, then the accented ones. */
  const Uppercase := Alphabet('A') + "ÁÉÍÓÚÑÜ"
  /** The lower-case letter of each capital, position by position. */
  const Lowercase := Alphabet('a') + "áéíóúñü"

  /** Lower-casing of one character: ASCII letters and the accented capitals
      of Spanish; everything else is left alone. */
  function LowerChar(c: char): (l: char)
    ensures l !in Uppercase
    ensures c !in Uppercase ==> l == c
    ensures forall i :: 0 <= i < |Uppercase| && Uppercase[i] == c ==> l == Lowercase[i]
  {
    if 'A' <= c <= 'Z' then
      assert Uppercase[c as int - 'A' as int] == c;
      (c as int + 32) as char
    else if c == 'Á' then 'á'
    else if c == 'É' then 'é'
    else if c == 'Í' then 'í'
    else if c == 'Ó' then 'ó'
    else if c == 'Ú' then 'ú'
    else if c == 'Ñ' then 'ñ'
    else if c == 'Ü' then 'ü'
    else c
  }

  /** `str.lower`, character by character. */
  function Lower(s: string): (r: string)
    ensures |r| == |s|
    ensures forall i :: 0 <= i < |s| ==> r[i] == LowerChar(s[i])
    ensures forall i :: 0 <= i < |r| ==> r[i] !in Uppercase
  {
    seq(|s|, i requires 0 <= i < |s| => LowerChar(s[i]))
  }

  /** Lower-casing twice is lower-casing once. */
  lemma LowerIdempotent(s: string)
    ensures Lower(Lower(s)) == Lower(s)
  {
    var l := Lower(s);
    forall i | 0 <= i < |l|
      ensures Lower(l)[i] == l[i]
    {
      assert l[i] !in Uppercase;
    }
  }

  /** `pattern` occurs in `text` starting at position `i`. */
  predicate OccursAt(text: string, pattern: string, i: int) {
    0 <= i && i + |pattern| <= |text| && text[i..i + |pattern|] == pattern
  }

  /** Python's `pattern in text` on strings, by scanning the start positions. */
  function Contains(text: string, pattern: string): bool
    decreases |text|
  {
    if |pattern| > |text| then false
    else text[..|pattern|] == pattern || (|text| > 0 && Contains(text[1..], pattern))
  }

  /** The scan finds a match exactly when the pattern occurs somewhere. */
  lemma {:induction false} ContainsIff(text: string, pattern: string)
    ensures Contains(text, pattern) <==> exists i :: OccursAt(text, pattern, i)
    decreases |text|
  {
    if |pattern| > |text| {
      assert forall i :: !OccursAt(text, pattern, i);
    } else if text[..|pattern|] == pattern {
      assert OccursAt(text, pattern, 0);
    } else if |text| > 0 {
      ContainsIff(text[1..], pattern);
      forall i | OccursAt(text[1..], pattern, i)
        ensures OccursAt(text, pattern, i + 1)
      {
        assert text[1..][i..i + |pattern|] == text[i + 1..i + 1 + |pattern|];
      }
      forall i | OccursAt(text, pattern, i) && i > 0
        ensures OccursAt(text[1..], pattern, i - 1)
      {
        assert text[1..][i - 1..i - 1 + |pattern|] == text[i..i + |pattern|];
      }
      assert !OccursAt(text, pattern, 0);
    }
  }

  // ---------------------------------------------------------------------------
  // Clue counting
  // ---------------------------------------------------------------------------

  /** `pistas_circunstancias`, in the dictionary's order: a keyword and the
      circumstance it hints at. */
  const Clues: seq<(string, int)> := [
    ("sentido contrario", 1),
    ("invad", 2),
    ("giro", 3),
    ("pare", 4),
    ("velocidad", 5),
    ("distancia", 6),
    ("retroceso", 7),
    ("ceder", 8),
    ("cambio de carril", 9),
    ("adelanta", 10),
    ("estacionamiento", 11),
    ("semáforo", 12),
    ("embriaguez", 13),
    ("falla", 14),
    ("víctima", 15)
  ]

  /** The fallback choices when no clue matches. */
  const CommonCircumstances: set<int> := {2, 4, 5, 6, 8, 12}

  /** There is exactly one clue per circumstance, the k-th for circumstance k. */
  lemma ClueNumbering()
    ensures |Clues| == 15
    ensures forall j :: 0 <= j < |Clues| ==> Clues[j].1 == j + 1
  {
  }

  /** The clue of an in-range circumstance. */
  function ClueText(k: int): string
    requires InRange(k)
  {
    Clues[k - 1].0
  }

  /** How many of `clues` hint at `k` and occur in `description`. */
  function Hits(description: string, clues: seq<(string, int)>, k: int): (n: nat)
    ensures n <= |clues|
    decreases |clues|
  {
    if |clues| == 0 then 0
    else Hits(description, clues[..|clues| - 1], k) +
         (if clues[|clues| - 1].1 == k && Contains(description, clues[|clues| - 1].0) then 1 else 0)
  }

  /** `conteo_circunstancias[k]` after all of `descriptions` were scanned. */
  function Count(descriptions: seq<string>, k: int): nat
    decreases |descriptions|
  {
    if |descriptions| == 0 then 0
    else Count(descriptions[..|descriptions| - 1], k) + Hits(descriptions[|descriptions| - 1], Clues, k)
  }

  /** Among the first n clues, a description hits circumstance k once if
      k's clue is among them and occurs in it, and never otherwise. */
  lemma {:induction false} HitsPrefix(description: string, k: int, n: nat)
    requires n <= |Clues|
    ensures Hits(description, Clues[..n], k) ==
      (if 1 <= k <= n && Contains(description, Clues[k - 1].0) then 1 else 0)
  {
    ClueNumbering();
    if n > 0 {
      assert Clues[..n][..n - 1] == Clues[..n - 1];
      HitsPrefix(description, k, n - 1);
    }
  }

  /** Scanning one more description raises the count of circumstance k by one
      exactly when k's clue occurs in it; other numbers never count. */
  lemma CountStep(descriptions: seq<string>, description: string, k: int)
    ensures Count(descriptions + [description], k) ==
      Count(descriptions, k) + (if InRange(k) && Contains(description, ClueText(k)) then 1 else 0)
  {
    assert (descriptions + [description])[..|descriptions|] == descriptions;
    HitsPrefix(description, k, |Clues|);
    assert Clues[..|Clues|] == Clues;
  }

  /** The counts as the dictionary of the source, keyed by 1..15. */
  function CountMap(descriptions: seq<string>): (m: map<int, int>)
    ensures forall k :: k in m <==> InRange(k)
  {
    map k | 1 <= k <= 15 :: Count(descriptions, k)
  }

  /** `max(counts, key=counts.get)` restricted to the keys 1..n: the first key
      whose count is maximal, as the dictionary iterates its keys in order. */
  function FirstMax(counts: map<int, int>, n: int): (b: int)
    requires 1 <= n <= 15
    requires forall k :: 1 <= k <= 15 ==> k in counts
    ensures 1 <= b <= n
    ensures forall k :: 1 <= k <= n ==> counts[k] <= counts[b]
    ensures forall k :: 1 <= k < b ==> counts[k] < counts[b]
    decreases n
  {
    if n == 1 then 1
    else
      var b := FirstMax(counts, n - 1);
      if counts[n] > counts[b] then n else b
  }

  // ---------------------------------------------------------------------------
  // Descriptions
  // ---------------------------------------------------------------------------

  /** The lower-cased account and damage description of every entity whose
      plate equals the vehicle's (a missing plate reads as ""). */
  function EntityDescriptions(vehicle: Vehicle, entities: seq<VehicleEntity>): seq<string>
    decreases |entities|
  {
    if |entities| == 0 then []
    else
      var e := entities[|entities| - 1];
      EntityDescriptions(vehicle, entities[..|entities| - 1]) +
      (if e.plate.GetOr("") == vehicle.plate.GetOr("")
       then [Lower(e.account.GetOr("")), Lower(e.damages.GetOr(""))]
       else [])
  }

  /** The lower-cased text of a document, when it has one. */
  function TextDescriptions(doc: Document): seq<string> {
    if doc.text.Some? then [Lower(doc.text.value)] else []
  }

  /** What one document contributes: its text, then its matching entities. */
  function DocumentDescriptions(vehicle: Vehicle, doc: Document): seq<string> {
    TextDescriptions(doc) + (if doc.entities.Some? then EntityDescriptions(vehicle, doc.entities.value) else [])
  }

  /** `descripciones`, document after document. */
  function CollectDescriptions(vehicle: Vehicle, documents: seq<Document>): seq<string>
    decreases |documents|
  {
    if |documents| == 0 then []
    else CollectDescriptions(vehicle, documents[..|documents| - 1]) +
         DocumentDescriptions(vehicle, documents[|documents| - 1])
  }

  predicate IsLower(s: string) {
    Lower(s) == s
  }

  /** Every collected description is already lower-case, so clue matching
      ignores the capitalisation of the documents. */
  lemma {:induction false} EntityDescriptionsLower(vehicle: Vehicle, entities: seq<VehicleEntity>)
    ensures forall d :: d in EntityDescriptions(vehicle, entities) ==> IsLower(d)
    decreases |entities|
  {
    if |entities| > 0 {
      var e := entities[|entities| - 1];
      EntityDescriptionsLower(vehicle, entities[..|entities| - 1]);
      LowerIdempotent(e.account.GetOr(""));
      LowerIdempotent(e.damages.GetOr(""));
    }
  }

  lemma {:induction false} CollectDescriptionsLower(vehicle: Vehicle, documents: seq<Document>)
    ensures forall d :: d in CollectDescriptions(vehicle, documents) ==> IsLower(d)
    decreases |documents|
  {
    if |documents| > 0 {
      var doc := documents[|documents| - 1];
      CollectDescriptionsLower(vehicle, documents[..|documents| - 1]);
      if doc.text.Some? {
        LowerIdempotent(doc.text.value);
      }
      if doc.entities.Some? {
        EntityDescriptionsLower(vehicle, doc.entities.value);
      }
    }
  }

  /** The choice made from the counts: the first circumstance with the most
      hits, or None when every count is 0. */
  function Choose(counts: map<int, int>): (r: Option<int>)
    requires forall k :: 1 <= k <= 15 ==> k in counts
    ensures r.None? <==> forall k :: 1 <= k <= 15 ==> counts[k] <= 0
    ensures r.Some? ==> InRange(r.value) && counts[r.value] > 0
    ensures r.Some? ==> forall k :: 1 <= k <= 15 ==> counts[k] <= counts[r.value]
    ensures r.Some? ==> forall k :: 1 <= k < r.value ==> counts[k] < counts[r.value]
  {
    var best := FirstMax(counts, 15);
    if counts[best] > 0 then Some(best) else None
  }

  /** The deterministic prediction for a vehicle: the choice made from the
      clue counts of its descriptions. */
  function Predicted(vehicle: Vehicle, documents: seq<Document>): Option<int> {
    Choose(CountMap(CollectDescriptions(vehicle, documents)))
  }

  /** "pare" hits the stop-sign circumstance 4 and no other. */
  lemma StopSignCounts()
    ensures forall k :: InRange(k) ==> Count(["pare"], k) == if k == 4 then 1 else 0
  {
    assert [] + ["pare"] == ["pare"];
    forall k | InRange(k)
      ensures Count(["pare"], k) == if k == 4 then 1 else 0
    {
      CountStep([], "pare", k);
      if k == 3 {
        assert "pare"[..4][0] != "giro"[0];
      } else if k == 4 {
        assert "pare"[..4] == "pare";
      } else {
        assert |ClueText(k)| > 4;
      }
    }
  }

  /** A stop-sign clue written in capitals is still found. */
  lemma PredictedStopSign()
    ensures Predicted(Vehicle(None), [Document(Some("PARE"), None, Assessment(None, None))]) == Some(4)
  {
    var docs := [Document(Some("PARE"), None, Assessment(None, None))];
    assert docs[..0] == [];
    assert Lower("PARE") == "pare";
    assert CollectDescriptions(Vehicle(None), docs) == ["pare"];
    StopSignCounts();
    var counts := CountMap(["pare"]);
    assert counts[4] == 1;
  }

  /** Two vehicles without plates match every entity without a plate. */
  lemma MissingPlatesMatch(account: string, damages: string)
    ensures EntityDescriptions(Vehicle(None), [VehicleEntity(None, Some(account), Some(damages))]) ==
      [Lower(account), Lower(damages)]
  {
    assert [VehicleEntity(None, Some(account), Some(damages))][..0] == [];
  }

  /** The first half of `_predecir_simplificado`: the loops that collect
      the descriptions of one vehicle. */
  method Gather(vehicle: Vehicle, documents: seq<Document>) returns (descriptions: seq<string>)
    ensures descriptions == CollectDescriptions(vehicle, documents)
  {
    descriptions := [];
    for i := 0 to |documents|
      invariant descriptions == CollectDescriptions(vehicle, documents[..i])
    {
      var doc := documents[i];
      if doc.text.Some? {
        descriptions := descriptions + [Lower(doc.text.value)];
      }
      assert descriptions == CollectDescriptions(vehicle, documents[..i]) + TextDescriptions(doc);
      if doc.entities.Some? {
        var matched := GatherEntities(vehicle, doc.entities.value);
        descriptions := descriptions + matched;
      }
      assert documents[..i + 1][..i] == documents[..i];
    }
    assert documents[..|documents|] == documents;
  }

  /** The inner loop of `Gather`: the account and damage text of every
      entity whose plate matches the vehicle's, in order. */
  method GatherEntities(vehicle: Vehicle, entities: seq<VehicleEntity>) returns (descriptions: seq<string>)
    ensures descriptions == EntityDescriptions(vehicle, entities)
  {
    descriptions := [];
    for j := 0 to |entities|
      invariant descriptions == EntityDescriptions(vehicle, entities[..j])
    {
      var e := entities[j];
      assert entities[..j + 1][..j] == entities[..j];
      if e.plate.GetOr("") == vehicle.plate.GetOr("") {
        descriptions := descriptions + [Lower(e.account.GetOr(""))];
        descriptions := descriptions + [Lower(e.damages.GetOr(""))];
      }
    }
    assert entities[..|entities|] == entities;
  }

  /** The second half: the nested loops that count, for every description
      and every clue, a hit of the clue's circumstance. */
  method CountClues(descriptions: seq<string>) returns (counts: map<int, int>)
    ensures counts == CountMap(descriptions)
  {
    ClueNumbering();
    counts := CountMap([]);  // every circumstance at 0
    for i := 0 to |descriptions|
      invariant forall k :: k in counts <==> InRange(k)
      invariant forall k :: InRange(k) ==> counts[k] == Count(descriptions[..i], k)
    {
      counts := AddHits(descriptions[i], counts);
      assert descriptions[..i + 1][..i] == descriptions[..i];
    }
    assert descriptions[..|descriptions|] == descriptions;
  }

  /** The inner loop of `CountClues`: one hit of a clue's circumstance for
      every clue that occurs in the description. */
  method AddHits(description: string, counts: map<int, int>) returns (r: map<int, int>)
    requires forall k :: k in counts <==> InRange(k)
    ensures forall k :: k in r <==> InRange(k)
    ensures forall k :: InRange(k) ==> r[k] == counts[k] + Hits(description, Clues, k)
  {
    ClueNumbering();
    r := counts;
    for j := 0 to |Clues|
      invariant forall k :: k in r <==> InRange(k)
      invariant forall k :: InRange(k) ==> r[k] == counts[k] + Hits(description, Clues[..j], k)
    {
      var (clue, circumstance) := Clues[j];
      assert Clues[..j + 1][..j] == Clues[..j];
      if Contains(description, clue) {
        r := r[circumstance := r[circumstance] + 1];
      }
    }
    assert Clues[..|Clues|] == Clues;
  }

  /** `np.random.choice` over the common circumstances, as an unspecified choice. */
  method DrawCommon() returns (c: int)
    ensures c in CommonCircumstances && InRange(c)
  {
    assert 2 in CommonCircumstances;
    c :| c in CommonCircumstances;
  }

  // ---------------------------------------------------------------------------
  // The model
  // ---------------------------------------------------------------------------

  class ResponsibilityModel {
    /** `model_loaded`: whether a trained model path was given. */
    var modelLoaded: bool
    /** `matriz`. */
    var matrix: seq<seq<string>>

    predicate Valid()
      reads this
    {
      matrix == MlMatrix
    }

    /** `__init__`: a non-empty path marks the model as loaded; the table is
        always installed. */
    constructor (modelPath: Option<string>)
      ensures modelLoaded <==> modelPath.Some? && modelPath.value != ""
      ensures Valid()
    {
      modelLoaded := modelPath.Some? && modelPath.value != "";
      matrix := MlMatrix;
    }

    /** `_predecir_simplificado`: collect the descriptions, count the clue
        hits per circumstance, and pick the first most frequent one; with no
        hit at all, any of the common circumstances. */
    method PredictSimplified(vehicle: Vehicle, documents: seq<Document>, evidence: seq<Evidence>)
      returns (c: int)
      ensures InRange(c)
      ensures Predicted(vehicle, documents).Some? ==> c == Predicted(vehicle, documents).value
      ensures Predicted(vehicle, documents).None? ==> c in CommonCircumstances
    {
      var descriptions := Gather(vehicle, documents);
      var counts := CountClues(descriptions);
      var choice := Choose(counts);
      assert Predicted(vehicle, documents) == choice;
      if choice.Some? {
        c := choice.value;
      } else {
        c := DrawCommon();
      }
    }

    /** `predecir_circunstancia`: with a loaded model, the simulated model's
        draw, which is some circumstance in 1..15; otherwise the rule-based
        prediction. */
    method PredictCircumstance(vehicle: Vehicle, documents: seq<Document>, evidence: seq<Evidence>)
      returns (c: int)
      ensures InRange(c)
      ensures !modelLoaded && Predicted(vehicle, documents).Some? ==> c == Predicted(vehicle, documents).value
      ensures !modelLoaded && Predicted(vehicle, documents).None? ==> c in CommonCircumstances
    {
      if modelLoaded {
        assert InRange(1);
        c :| InRange(c);
      } else {
        c := PredictSimplified(vehicle, documents, evidence);
      }
    }

    /** `predecir_responsabilidad`: predict both circumstances, look the pair
        up in the table and interpret the code. */
    method PredictResponsibility(vehicleA: Vehicle, vehicleB: Vehicle, documents: seq<Document>,
                                 evidence: seq<Evidence>)
      returns (p: Prediction)
      requires Valid()
      ensures InRange(p.circumstanceA) && InRange(p.circumstanceB)
      ensures p == Lookup(p.circumstanceA, p.circumstanceB)
      ensures p.outcome == Rules.Determine(p.circumstanceA, p.circumstanceB)
      ensures !modelLoaded && Predicted(vehicleA, documents).Some? ==>
        p.circumstanceA == Predicted(vehicleA, documents).value
      ensures !modelLoaded && Predicted(vehicleB, documents).Some? ==>
        p.circumstanceB == Predicted(vehicleB, documents).value
      // with no clue matched, each circumstance is one of the common ones
      ensures !modelLoaded && Predicted(vehicleA, documents).None? ==> p.circumstanceA in CommonCircumstances
      ensures !modelLoaded && Predicted(vehicleB, documents).None? ==> p.circumstanceB in CommonCircumstances
    {
      var ca := PredictCircumstance(vehicleA, documents, evidence);
      var cb := PredictCircumstance(vehicleB, documents, evidence);
      MatrixCopy();
      var code := matrix[ca - 1][cb - 1];
      p := Interpret(code, ca, cb);
    }
  }
}
