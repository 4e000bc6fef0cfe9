/** The persisted records of the ingestion pipeline: the LLM's structured
    analysis (`AITranslatedResult`) and the enriched article (`Article`), with
    the field constraints and defaults their schema declares. */
module ArticleModel {
  import opened Wrappers

  const MinKeyPoints: nat := 3
  const MaxKeyPoints: nat := 10
  const MinAiScore: int := 0
  const MaxAiScore: int := 100

  /** The validated analysis returned by the summariser. */
  datatype AITranslatedResult = AITranslatedResult(
    topic: string,
    titleCn: string,
    summary: string,
    keyPoints: seq<string>,
    techStack: seq<string>,
    takeaway: string,
    aiScore: int,
    originalTextTrans: Option<string>,
    urlContentTrans: Option<string>)

  /** The constraints the schema puts on an analysis. */
  predicate ValidAnalysis(a: AITranslatedResult) {
    MinKeyPoints <= |a.keyPoints| <= MaxKeyPoints && MinAiScore <= a.aiScore <= MaxAiScore
  }

  /** One field of a decoded JSON object, as schema validation sees it: absent,
      present with a value of the declared type, or present with a value of
      another type. */
  datatype Field<T> = Missing | Given(value: T) | WrongType

  /** A decoded JSON object offered to the analysis schema. */
  datatype RawAnalysis = RawAnalysis(
    topic: Field<string>,
    titleCn: Field<string>,
    summary: Field<string>,
    keyPoints: Field<seq<string>>,
    techStack: Field<seq<string>>,
    takeaway: Field<string>,
    aiScore: Field<int>,
    originalTextTrans: Field<Option<string>>,
    urlContentTrans: Field<Option<string>>)

  /** A field with a default is acceptable when absent or well typed. */
  predicate DefaultedOk<T>(f: Field<T>) {
    !f.WrongType?
  }

  function OrDefault<T>(f: Field<T>, default: T): T {
    match f
    case Given(v) => v
    case _ => default
  }

  /** Every required field is present and well typed, every defaulted field is
      absent or well typed, and the bounds hold. */
  predicate Acceptable(raw: RawAnalysis) {
    && raw.topic.Given? && raw.titleCn.Given? && raw.summary.Given?
    && raw.keyPoints.Given? && raw.takeaway.Given? && raw.aiScore.Given?
    && DefaultedOk(raw.techStack) && DefaultedOk(raw.originalTextTrans) && DefaultedOk(raw.urlContentTrans)
    && MinKeyPoints <= |raw.keyPoints.value| <= MaxKeyPoints
    && MinAiScore <= raw.aiScore.value <= MaxAiScore
  }

  /** Schema validation of a decoded object (`model_validate`); a validation error is `None`. */
  function Validate(raw: RawAnalysis): (r: Option<AITranslatedResult>)
    ensures r.Some? <==> Acceptable(raw)
    ensures r.Some? ==> ValidAnalysis(r.value)
    ensures r.Some? ==> (r.value.topic == raw.topic.value && r.value.titleCn == raw.titleCn.value
                         && r.value.summary == raw.summary.value && r.value.keyPoints == raw.keyPoints.value
                         && r.value.takeaway == raw.takeaway.value && r.value.aiScore == raw.aiScore.value)
    ensures r.Some? && raw.techStack.Missing? ==> r.value.techStack == []
    ensures r.Some? && raw.originalTextTrans.Missing? ==> r.value.originalTextTrans == None
    ensures r.Some? && raw.urlContentTrans.Missing? ==> r.value.urlContentTrans == None
  {
    if !Acceptable(raw) then None
    else Some(AITranslatedResult(
      raw.topic.value, raw.titleCn.value, raw.summary.value, raw.keyPoints.value,
      OrDefault(raw.techStack, []), raw.takeaway.value, raw.aiScore.value,
      OrDefault(raw.originalTextTrans, None), OrDefault(raw.urlContentTrans, None)))
  }

  /** The JSON object that serialises an analysis, every field present. */
  function Encode(a: AITranslatedResult): RawAnalysis {
    RawAnalysis(Given(a.topic), Given(a.titleCn), Given(a.summary), Given(a.keyPoints),
                Given(a.techStack), Given(a.takeaway), Given(a.aiScore),
                Given(a.originalTextTrans), Given(a.urlContentTrans))
  }

  /** Validation accepts exactly the serialisations of valid analyses, and gives them back unchanged. */
  lemma ValidateEncode(a: AITranslatedResult)
    ensures Validate(Encode(a)) == (if ValidAnalysis(a) then Some(a) else None)
  {
  }

  /** A score outside 0..100 is always rejected, whatever the other fields hold. */
  lemma ScoreOutOfRangeRejected(raw: RawAnalysis)
    requires raw.aiScore.Given? && (raw.aiScore.value < MinAiScore || raw.aiScore.value > MaxAiScore)
    ensures Validate(raw) == None
  {
  }

  /** The enriched article persisted by the pipeline. Thread metadata other than
      the comment count (kids, parent, poll, parts), image URLs and comment
      analyses are not part of this model. */
  datatype Article = Article(
    id: Option<int>,
    hnId: int,
    kind: string,
    author: Option<string>,
    postedAt: string,
    originalTitle: string,
    originalUrl: Option<string>,
    originalText: Option<string>,
    score: int,
    descendants: Option<int>,
    deleted: Option<bool>,
    dead: Option<bool>,
    rawContent: string,
    isEmbedded: bool,
    detailedAnalysis: Option<AITranslatedResult>)
}
