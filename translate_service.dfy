/** The translate-and-summarise service: the input guard, the "N/A" defaults,
    the truncation of scraped content, the prompt, the mapping of every failure
    of the LLM call to "no result", and the keyed batch. The LLM and the JSON
    decoder are parameters. */
module TranslateService {
  import opened Wrappers
  import opened Text
  import opened ArticleModel
  import Keyed

  const MaxScrapedChars: nat := 100000
  const NotAvailable := "N/A"

  /** What the chat-completion call produced: a reply whose message content may
      be absent, or an exception (network, quota, malformed response). */
  datatype LlmReply = Reply(content: Option<string>) | Raised

  /** JSON decoding of the reply text. */
  datatype Decoded = InvalidJson | Decoded(raw: RawAnalysis)

  /** The guard: nothing at all to summarise. */
  predicate AllEmpty(title: Option<string>, hnText: Option<string>, scraped: Option<string>) {
    !Truthy(title) && !Truthy(hnText) && !Truthy(scraped)
  }

  /** `x or "N/A"`. */
  function OrNotAvailable(s: Option<string>): (r: string)
    ensures Truthy(s) ==> r == s.value
    ensures !Truthy(s) ==> r == NotAvailable
    ensures r != ""
  {
    if Truthy(s) then s.value else NotAvailable
  }

  /** `scraped[:100000] if scraped else "N/A"`. */
  function SafeScraped(scraped: Option<string>): (r: string)
    ensures |r| <= MaxScrapedChars
    ensures Truthy(scraped) ==> |r| <= |scraped.value| && r == scraped.value[..|r|]
    ensures Truthy(scraped) && |scraped.value| <= MaxScrapedChars ==> r == scraped.value
    ensures Truthy(scraped) && |scraped.value| > MaxScrapedChars ==> r == scraped.value[..MaxScrapedChars]
    ensures !Truthy(scraped) ==> r == NotAvailable
  {
    if Truthy(scraped) then PrefixUpTo(scraped.value, MaxScrapedChars) else NotAvailable
  }

  /** A line break followed by the prompt's eight-space indentation. */
  const Indent := "\n        "
  const Rule := "---"
  const PromptHead := Indent + "Title: "
  const PromptBeforeText := Indent + "Original Post Description: " + Indent
  const PromptBeforeContent := Indent + Rule + Indent + "Scraped Article Content:" + Indent
  const PromptTail := Indent

  /** The user message: the title, the post description, a `---` rule and the
      scraped content, each on its own indented line. */
  function CombinedInput(title: string, text: string, content: string): string {
    PromptHead + title + PromptBeforeText + text + PromptBeforeContent + content + PromptTail
  }

  /** The four pieces appear in the prompt in order: the title after its label,
      then the description, then the `---` rule, then the content. */
  lemma PromptLayout(title: string, text: string, content: string)
    ensures var p := CombinedInput(title, text, content);
      var iTitle := |PromptHead|;
      var iText := iTitle + |title| + |PromptBeforeText|;
      var iRule := iText + |text| + |Indent|;
      var iContent := iText + |text| + |PromptBeforeContent|;
      && OccursAt(p, "Title: ", iTitle - 7)
      && OccursAt(p, title, iTitle)
      && OccursAt(p, text, iText)
      && OccursAt(p, Rule, iRule)
      && OccursAt(p, content, iContent)
      && iTitle + |title| < iText && iText + |text| < iRule && iRule + 3 < iContent
  {
    var p := CombinedInput(title, text, content);
    var a := PromptHead + title;
    var b := a + PromptBeforeText + text;
    var c := b + PromptBeforeContent + content;
    assert p == c + PromptTail;
    assert p[..|c|] == c;
    assert c[..|b|] == b;
    assert b[..|a|] == a;
    assert a[|PromptHead|..] == title;
    assert a[|PromptHead| - 7..|PromptHead|] == "Title: ";
    assert b[|a| + |PromptBeforeText|..] == text;
    assert c[|b| + |PromptBeforeContent|..] == content;
    assert c[|b|..|b| + |PromptBeforeContent|] == PromptBeforeContent;
    assert PromptBeforeContent[|Indent|..|Indent| + |Rule|] == Rule;
    assert c[|b| + |Indent|..|b| + |Indent| + |Rule|] == Rule;
  }

  /** The prompt sent to the LLM, or `None` when the guard returns early. */
  function PromptFor(title: Option<string>, hnText: Option<string>, scraped: Option<string>): (r: Option<string>)
    ensures r.None? <==> AllEmpty(title, hnText, scraped)
    ensures r.Some? ==> r.value == CombinedInput(OrNotAvailable(title), OrNotAvailable(hnText), SafeScraped(scraped))
  {
    if AllEmpty(title, hnText, scraped) then None
    else Some(CombinedInput(OrNotAvailable(title), OrNotAvailable(hnText), SafeScraped(scraped)))
  }

  /** What becomes of the LLM's reply: an exception, an empty reply, text that is
      not JSON, and JSON the schema rejects all end in `None`. */
  function Interpret(reply: LlmReply, decode: string -> Decoded): (r: Option<AITranslatedResult>)
    ensures r.Some? <==> reply.Reply? && Truthy(reply.content)
                         && decode(reply.content.value).Decoded?
                         && Acceptable(decode(reply.content.value).raw)
    ensures r.Some? ==> r == Validate(decode(reply.content.value).raw) && ValidAnalysis(r.value)
  {
    match reply
    case Raised => None
    case Reply(content) =>
      if !Truthy(content) then None
      else match decode(content.value)
        case InvalidJson => None
        case Decoded(raw) => Validate(raw)
  }

  /** `translate_and_summarize`: never fails, returns a valid analysis or `None`. */
  function SummariseOne(title: Option<string>, hnText: Option<string>, scraped: Option<string>,
                        llm: string -> LlmReply, decode: string -> Decoded): (r: Option<AITranslatedResult>)
    ensures AllEmpty(title, hnText, scraped) ==> r.None?
    ensures r.Some? ==> ValidAnalysis(r.value)
    ensures !AllEmpty(title, hnText, scraped) ==> r == Interpret(llm(PromptFor(title, hnText, scraped).value), decode)
  {
    match PromptFor(title, hnText, scraped)
    case None => None
    case Some(prompt) => Interpret(llm(prompt), decode)
  }

  /** The guard returns before the LLM is consulted: with nothing to summarise, any
      two LLMs give the same (empty) answer. */
  lemma AllEmptySkipsLlm(title: Option<string>, hnText: Option<string>, scraped: Option<string>,
                         llm1: string -> LlmReply, llm2: string -> LlmReply, decode: string -> Decoded)
    requires AllEmpty(title, hnText, scraped)
    ensures SummariseOne(title, hnText, scraped, llm1, decode) == SummariseOne(title, hnText, scraped, llm2, decode) == None
  {
  }

  /** One input of the batch: a dictionary from field name to a value that may be `None`. */
  type AiInput = map<string, Option<string>>

  /** `d.get(key, default)`. */
  function Get(d: AiInput, key: string, default: Option<string>): (r: Option<string>)
    ensures key in d ==> r == d[key]
    ensures key !in d ==> r == default
  {
    if key in d then d[key] else default
  }

  /** The summary of one batch input, read with the batch's own defaults: a missing
      title is `""`, missing text or content is `None`. */
  function SummariseInput(input: AiInput, llm: string -> LlmReply, decode: string -> Decoded): Option<AITranslatedResult> {
    SummariseOne(Get(input, "title", Some("")), Get(input, "hn_text", None), Get(input, "scraped_content", None), llm, decode)
  }

  /** `translate_and_summarize_batch`: every key is answered from its own input. */
  function SummariseBatch(inputs: map<int, AiInput>, llm: string -> LlmReply, decode: string -> Decoded)
    : (r: map<int, Option<AITranslatedResult>>)
    ensures r.Keys == inputs.Keys
    ensures forall id :: id in inputs ==> r[id] == SummariseInput(inputs[id], llm, decode)
    ensures forall id :: id in r && r[id].Some? ==> ValidAnalysis(r[id].value)
  {
    map id | id in inputs :: SummariseInput(inputs[id], llm, decode)
  }

  /** The results of the fan-out over `ids`, in the order of `ids`, as
      `asyncio.gather` returns them. */
  function GatherResults(inputs: map<int, AiInput>, ids: seq<int>, llm: string -> LlmReply, decode: string -> Decoded)
    : (rs: seq<Option<AITranslatedResult>>)
    requires forall i :: 0 <= i < |ids| ==> ids[i] in inputs
    ensures |rs| == |ids|
    ensures forall i :: 0 <= i < |ids| ==> rs[i] == SummariseInput(inputs[ids[i]], llm, decode)
    decreases |ids|
  {
    if ids == [] then []
    else [SummariseInput(inputs[ids[0]], llm, decode)] + GatherResults(inputs, ids[1..], llm, decode)
  }

  /** The batch as written, `dict(zip(ids, gather(...)))` over the dictionary's keys
      in whatever order it lists them, is the keyed map above. */
  lemma BatchIsZip(inputs: map<int, AiInput>, ids: seq<int>, llm: string -> LlmReply, decode: string -> Decoded)
    requires forall i :: 0 <= i < |ids| ==> ids[i] in inputs
    requires forall id :: id in inputs ==> id in ids
    ensures Keyed.ZipToMap(ids, GatherResults(inputs, ids, llm, decode)) == SummariseBatch(inputs, llm, decode)
  {
    var rs := GatherResults(inputs, ids, llm, decode);
    var m := SummariseBatch(inputs, llm, decode);
    assert |rs| == |ids|;
    forall i | 0 <= i < |ids| ensures ids[i] in m && rs[i] == m[ids[i]] {
    }
    assert forall k :: k in m ==> k in ids;
    Keyed.ZipToMapEquals(ids, rs, m);
  }

  /** An input whose title is present but empty and whose other fields are absent is
      never summarised. */
  lemma EmptyInputGivesNone(inputs: map<int, AiInput>, id: int, llm: string -> LlmReply, decode: string -> Decoded)
    requires id in inputs && "hn_text" !in inputs[id] && "scraped_content" !in inputs[id]
    requires Get(inputs[id], "title", Some("")) == Some("")
    ensures SummariseBatch(inputs, llm, decode)[id] == None
  {
  }
}
