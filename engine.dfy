/**
 * The scoring side of runbook search (rag/engine.py): a vector-store cosine
 * distance becomes a similarity in [0, 1], and a similarity is bucketed into a
 * high, medium or low confidence label.
 */
module Engine {
  import opened Wrappers

  datatype ConfidenceLevel = HighConfidence | MediumConfidence | LowConfidence

  function LevelName(l: ConfidenceLevel): string {
    match l
    case HighConfidence => "high"
    case MediumConfidence => "medium"
    case LowConfidence => "low"
  }

  /** The order of the buckets: low < medium < high. */
  function Rank(l: ConfidenceLevel): nat {
    match l
    case LowConfidence => 0
    case MediumConfidence => 1
    case HighConfidence => 2
  }

  /** `_classify_confidence(score)`: above 0.7 is high, from 0.4 up to 0.7 medium, below 0.4 low. */
  function ClassifyConfidence(score: real): (r: ConfidenceLevel)
    ensures r == HighConfidence <==> score > 0.7
    ensures r == MediumConfidence <==> 0.4 <= score <= 0.7
    ensures r == LowConfidence <==> score < 0.4
  {
    if score > 0.7 then HighConfidence
    else if score >= 0.4 then MediumConfidence
    else LowConfidence
  }

  /** A higher score never lands in a lower bucket. */
  lemma ClassifyMonotone(a: real, b: real)
    requires a <= b
    ensures Rank(ClassifyConfidence(a)) <= Rank(ClassifyConfidence(b))
  {
  }

  /** Cosine distance (0 identical, 2 opposite) as a similarity: `1 - distance / 2`. */
  function Similarity(distance: real): (s: real)
    ensures 0.0 <= distance <= 2.0 <==> 0.0 <= s <= 1.0
    ensures distance == 0.0 ==> s == 1.0
    ensures distance == 2.0 ==> s == 0.0
  {
    1.0 - distance / 2.0
  }

  /** A larger distance gives a smaller similarity, and the map is one-to-one. */
  lemma SimilarityDecreasing(d1: real, d2: real)
    requires d1 < d2
    ensures Similarity(d1) > Similarity(d2)
  {
  }

  /** Going back from a similarity to the distance it came from. */
  lemma SimilarityInverse(distance: real)
    ensures 2.0 * (1.0 - Similarity(distance)) == distance
  {
  }

  /** What `RAGResult` records about a hit: its similarity and its confidence label. */
  datatype Hit = Hit(similarityScore: real, confidence: ConfidenceLevel)

  /**
   * Turning one distance into a `RAGResult`'s score fields. The model's
   * `similarity_score: Field(ge=0.0, le=1.0)` rejects a similarity outside
   * [0, 1], i.e. a distance outside [0, 2].
   */
  function HitOf(distance: real): (r: Result<Hit>)
    ensures r.Success? <==> 0.0 <= distance <= 2.0
    ensures r.Success? ==> 0.0 <= r.value.similarityScore <= 1.0
    ensures r.Success? ==> (r.value.confidence == HighConfidence <==> distance < 0.6)
    ensures r.Success? ==> (r.value.confidence == MediumConfidence <==> 0.6 <= distance <= 1.2)
    ensures r.Success? ==> (r.value.confidence == LowConfidence <==> distance > 1.2)
  {
    var similarity := Similarity(distance);
    if 0.0 <= similarity <= 1.0 then Success(Hit(similarity, ClassifyConfidence(similarity)))
    else Failure("ValidationError: similarity_score")
  }

  /** A nearer hit is never labelled less confident than a farther one. */
  lemma NearerIsNoLessConfident(d1: real, d2: real)
    requires 0.0 <= d1 <= d2 <= 2.0
    ensures Rank(HitOf(d1).value.confidence) >= Rank(HitOf(d2).value.confidence)
  {
    ClassifyMonotone(Similarity(d2), Similarity(d1));
  }
}
