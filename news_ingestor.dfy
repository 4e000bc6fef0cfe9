/** The ingestion pipeline: fetch the front-page stories, extract the linked pages,
    summarise the stories that have content, save the summarised ones and
    vectorise what was saved; and the backfill that retries vectorisation.
    Every collaborator (story source, validity test, article conversion, article
    store, vectoriser) is a field of `Env`; extraction and summarisation are the
    models of the two services, over their own HTTP and LLM parameters. */
module NewsIngestor {
  import opened Wrappers
  import opened ArticleModel
  import TranslateService
  import ExtractionService
  import Keyed

  /** A story as fetched from Hacker News, reduced to the fields the pipeline reads. */
  datatype Story = Story(hnId: int, originalTitle: string, originalUrl: Option<string>, originalText: Option<string>)

  /** `add_article`: the stored article, a `None` return, or an exception. */
  datatype SaveOutcome = Saved(article: Article) | ReturnedNone | SaveRaised

  /** The vectoriser's answer: its results, or an exception. */
  datatype VectorOutcome<R> = Vectorised(results: seq<R>) | VectorRaised

  /** The collaborators of one run. `toArticle` answers `None` where the
      conversion raises. */
  datatype Env<R> = Env(
    fetched: seq<Story>,
    extractor: ExtractionService.ExtractionService,
    web: ExtractionService.Web,
    hasValidContent: (Story, Option<string>) -> bool,
    llm: string -> TranslateService.LlmReply,
    decode: string -> TranslateService.Decoded,
    toArticle: (Story, Option<string>, AITranslatedResult) -> Option<Article>,
    addArticle: Article -> SaveOutcome,
    vectorise: seq<Article> -> VectorOutcome<R>)

  /** What a run asked of its collaborators: the URLs sent to extraction, the inputs
      sent to summarisation, every article passed to `add_article` (in order), and
      the articles sent to vectorisation. `None` means the call was not made. */
  datatype Trace = Trace(
    extractRequest: Option<seq<string>>,
    summariseRequest: Option<map<int, TranslateService.AiInput>>,
    saveRequests: seq<Article>,
    vectoriseRequest: Option<seq<Article>>)

  datatype RunOutcome<R> = RunOutcome(results: seq<R>, trace: Trace)

  const NothingRequested := Trace(None, None, [], None)

  // ---------------------------------------------------------------------------
  // The value-level specification of a run.

  /** The state of one story context. */
  datatype Ctx = Ctx(story: Story, extracted: Option<string>, aiResult: Option<AITranslatedResult>)

  /** Fresh contexts: nothing extracted, nothing summarised. */
  function Initial(stories: seq<Story>): seq<Ctx> {
    seq(|stories|, i requires 0 <= i < |stories| => Ctx(stories[i], None, None))
  }

  /** The URLs of the contexts that have a truthy URL, in order. */
  function UrlsOf(cs: seq<Ctx>): (urls: seq<string>)
    ensures |urls| <= |cs|
    ensures forall c :: c in cs && Truthy(c.story.originalUrl) ==> c.story.originalUrl.value in urls
    ensures forall u :: u in urls ==> exists c :: c in cs && Truthy(c.story.originalUrl) && c.story.originalUrl.value == u
    decreases |cs|
  {
    if cs == [] then []
    else
      var rest := UrlsOf(cs[1..]);
      assert forall c :: c in cs[1..] ==> c in cs;
      (if Truthy(cs[0].story.originalUrl) then [cs[0].story.originalUrl.value] else []) + rest
  }

  /** A context's content after extraction: the map's content for its URL when the
      map holds a non-`None` one, and its previous content otherwise. */
  function ExtractedFor(c: Ctx, m: map<string, Option<string>>): (e: Option<string>)
    ensures e != c.extracted ==> Truthy(c.story.originalUrl) && c.story.originalUrl.value in m
                                 && m[c.story.originalUrl.value] == e && e.Some?
    ensures Truthy(c.story.originalUrl) && c.story.originalUrl.value in m && m[c.story.originalUrl.value].Some?
            ==> e == m[c.story.originalUrl.value]
  {
    if Truthy(c.story.originalUrl) then
      var found := Lookup(m, c.story.originalUrl.value);
      if found.Some? && found.value.Some? then found.value else c.extracted
    else c.extracted
  }

  function ExtractOne(c: Ctx, m: map<string, Option<string>>): Ctx {
    c.(extracted := ExtractedFor(c, m))
  }

  function WithExtraction(cs: seq<Ctx>, m: map<string, Option<string>>): seq<Ctx> {
    seq(|cs|, i requires 0 <= i < |cs| => ExtractOne(cs[i], m))
  }

  /** The contexts that pass the validity test, in order. */
  function ValidOnly(cs: seq<Ctx>, hv: (Story, Option<string>) -> bool): (vs: seq<Ctx>)
    ensures |vs| <= |cs|
    ensures forall c :: c in vs <==> c in cs && hv(c.story, c.extracted)
    decreases |cs|
  {
    if cs == [] then []
    else
      var rest := ValidOnly(cs[1..], hv);
      assert forall c :: c in cs <==> c == cs[0] || c in cs[1..];
      (if hv(cs[0].story, cs[0].extracted) then [cs[0]] else []) + rest
  }

  /** The summariser's input for a context. */
  function InputOf(c: Ctx): TranslateService.AiInput {
    map["title" := Some(c.story.originalTitle), "hn_text" := c.story.originalText, "scraped_content" := c.extracted]
  }

  function Ids(cs: seq<Ctx>): seq<int> {
    seq(|cs|, i requires 0 <= i < |cs| => cs[i].story.hnId)
  }

  function Inputs(cs: seq<Ctx>): seq<TranslateService.AiInput> {
    seq(|cs|, i requires 0 <= i < |cs| => InputOf(cs[i]))
  }

  /** The summariser's inputs, keyed by story id; assigning in order, a later context
      with the same id replaces an earlier one. */
  function AiInputs(cs: seq<Ctx>): map<int, TranslateService.AiInput> {
    Keyed.ZipToMap(Ids(cs), Inputs(cs))
  }

  /** `results.get(id)`. */
  function ResultFor(results: map<int, Option<AITranslatedResult>>, id: int): Option<AITranslatedResult> {
    if id in results then results[id] else None
  }

  function WithAiResults(cs: seq<Ctx>, results: map<int, Option<AITranslatedResult>>): seq<Ctx> {
    seq(|cs|, i requires 0 <= i < |cs| => cs[i].(aiResult := ResultFor(results, cs[i].story.hnId)))
  }

  /** The save loop's state: the stored articles and every article offered to the store. */
  datatype SaveLog = SaveLog(saved: seq<Article>, requests: seq<Article>)

  /** One iteration of the save loop: contexts without an analysis are skipped; a
      conversion that raises offers nothing; a store that returns `None` or raises
      is logged and skipped. */
  function SaveStep(log: SaveLog, c: Ctx, toArticle: (Story, Option<string>, AITranslatedResult) -> Option<Article>,
                    addArticle: Article -> SaveOutcome): SaveLog {
    if c.aiResult.None? then log
    else match toArticle(c.story, c.extracted, c.aiResult.value)
      case None => log
      case Some(a) =>
        match addArticle(a)
        case Saved(s) => SaveLog(log.saved + [s], log.requests + [a])
        case _ => SaveLog(log.saved, log.requests + [a])
  }

  function SaveStage(cs: seq<Ctx>, toArticle: (Story, Option<string>, AITranslatedResult) -> Option<Article>,
                     addArticle: Article -> SaveOutcome): SaveLog
    decreases |cs|
  {
    if cs == [] then SaveLog([], [])
    else SaveStep(SaveStage(cs[..|cs| - 1], toArticle, addArticle), cs[|cs| - 1], toArticle, addArticle)
  }

  /** The article a context is converted to: nothing without an analysis or when the
      conversion raises. */
  function ArticleOf(c: Ctx, toArticle: (Story, Option<string>, AITranslatedResult) -> Option<Article>): Option<Article> {
    if c.aiResult.None? then None else toArticle(c.story, c.extracted, c.aiResult.value)
  }

  /** The articles of the analysed contexts, in context order. */
  function Offered(cs: seq<Ctx>, toArticle: (Story, Option<string>, AITranslatedResult) -> Option<Article>): seq<Article>
  {
    if cs == [] then []
    else (match ArticleOf(cs[0], toArticle) case Some(a) => [a] case None => []) + Offered(cs[1..], toArticle)
  }

  /** The store's answers that are stored articles, in request order. */
  function Stored(requests: seq<Article>, addArticle: Article -> SaveOutcome): seq<Article>
  {
    if requests == [] then []
    else (match addArticle(requests[0]) case Saved(s) => [s] case _ => []) + Stored(requests[1..], addArticle)
  }

  lemma {:induction false} OfferedAppend(a: seq<Ctx>, b: seq<Ctx>, toArticle: (Story, Option<string>, AITranslatedResult) -> Option<Article>)
    ensures Offered(a + b, toArticle) == Offered(a, toArticle) + Offered(b, toArticle)
    decreases |a|
  {
    if a != [] {
      OfferedAppend(a[1..], b, toArticle);
      assert (a + b)[1..] == a[1..] + b;
    } else {
      assert a + b == b;
    }
  }

  lemma {:induction false} StoredAppend(a: seq<Article>, b: seq<Article>, addArticle: Article -> SaveOutcome)
    ensures Stored(a + b, addArticle) == Stored(a, addArticle) + Stored(b, addArticle)
    decreases |a|
  {
    if a != [] {
      StoredAppend(a[1..], b, addArticle);
      assert (a + b)[1..] == a[1..] + b;
    } else {
      assert a + b == b;
    }
  }

  function Contexts<R>(env: Env<R>): seq<Ctx> {
    Initial(env.fetched)
  }

  function ExtractRequestOf<R>(env: Env<R>): Option<seq<string>> {
    var urls := UrlsOf(Contexts(env));
    if urls != [] then Some(urls) else None
  }

  function AfterExtraction<R>(env: Env<R>): seq<Ctx> {
    match ExtractRequestOf(env)
    case None => Contexts(env)
    case Some(urls) => WithExtraction(Contexts(env), env.extractor.ExtractBatch(urls, env.web))
  }

  function ValidOf<R>(env: Env<R>): seq<Ctx> {
    ValidOnly(AfterExtraction(env), env.hasValidContent)
  }

  function SummariseRequestOf<R>(env: Env<R>): Option<map<int, TranslateService.AiInput>> {
    if ValidOf(env) != [] then Some(AiInputs(ValidOf(env))) else None
  }

  function AfterSummary<R>(env: Env<R>): seq<Ctx> {
    match SummariseRequestOf(env)
    case None => ValidOf(env)
    case Some(inputs) => WithAiResults(ValidOf(env), TranslateService.SummariseBatch(inputs, env.llm, env.decode))
  }

  function SaveLogOf<R>(env: Env<R>): SaveLog {
    SaveStage(AfterSummary(env), env.toArticle, env.addArticle)
  }

  /** A whole run: its return value and what it asked of its collaborators. */
  function Pipeline<R>(env: Env<R>): RunOutcome<R> {
    var saved := SaveLogOf(env).saved;
    var vectoriseRequest := if saved != [] then Some(saved) else None;
    var results := if saved != [] && env.vectorise(saved).Vectorised? then env.vectorise(saved).results else [];
    RunOutcome(results, Trace(ExtractRequestOf(env), SummariseRequestOf(env), SaveLogOf(env).requests, vectoriseRequest))
  }

  // ---------------------------------------------------------------------------
  // The pipeline as the source runs it: contexts are objects updated in place.

  class StoryContext {
    const story: Story
    var extractedContent: Option<string>
    var aiResult: Option<AITranslatedResult>

    constructor(story: Story)
      ensures this.story == story && extractedContent == None && aiResult == None
    {
      this.story := story;
      extractedContent := None;
      aiResult := None;
    }

    function Value(): Ctx
      reads this
    {
      Ctx(story, extractedContent, aiResult)
    }
  }

  function Values(cs: seq<StoryContext>): (vs: seq<Ctx>)
    reads cs
    ensures |vs| == |cs| && forall i :: 0 <= i < |cs| ==> vs[i] == cs[i].Value()
  {
    seq(|cs|, i requires 0 <= i < |cs| reads cs => cs[i].Value())
  }

  /** One fresh context per story. */
  method CreateContexts(stories: seq<Story>) returns (cs: seq<StoryContext>)
    ensures |cs| == |stories|
    ensures forall c :: c in cs ==> fresh(c)
    ensures Values(cs) == Initial(stories)
  {
    cs := [];
    var i := 0;
    while i < |stories|
      invariant 0 <= i <= |stories| && |cs| == i
      invariant forall c :: c in cs ==> fresh(c)
      invariant forall j :: 0 <= j < i ==> cs[j].Value() == Ctx(stories[j], None, None)
    {
      var c := new StoryContext(stories[i]);
      cs := cs + [c];
      i := i + 1;
    }
  }

  /** `[ctx for ctx in contexts if ctx.story.original_url]`. */
  function WithUrl(cs: seq<StoryContext>): (us: seq<StoryContext>)
    ensures forall i :: 0 <= i < |us| ==> us[i] in cs && Truthy(us[i].story.originalUrl)
    ensures forall i :: 0 <= i < |cs| && Truthy(cs[i].story.originalUrl) ==> cs[i] in us
    decreases |cs|
  {
    if cs == [] then []
    else
      var rest := WithUrl(cs[1..]);
      assert forall i :: 1 <= i < |cs| ==> cs[i] == cs[1..][i - 1];
      (if Truthy(cs[0].story.originalUrl) then [cs[0]] else []) + rest
  }

  /** The URL list sent to extraction is the URL list of the contexts' values. */
  lemma {:induction false} UrlsOfWithUrl(cs: seq<StoryContext>)
    ensures forall c :: c in WithUrl(cs) ==> Truthy(c.story.originalUrl)
    ensures StoryUrls(WithUrl(cs)) == UrlsOf(Initial(Stories(cs)))
    decreases |cs|
  {
    if cs != [] {
      var tail := cs[1..];
      UrlsOfWithUrl(tail);
      var vs := Initial(Stories(cs));
      InitialTail(cs);
      var head: seq<StoryContext> := if Truthy(cs[0].story.originalUrl) then [cs[0]] else [];
      assert WithUrl(cs) == head + WithUrl(tail);
      StoryUrlsAppend(head, WithUrl(tail));
      assert UrlsOf(vs) == StoryUrls(head) + UrlsOf(vs[1..]);
    }
  }

  lemma InitialTail(cs: seq<StoryContext>)
    requires cs != []
    ensures Initial(Stories(cs)) != [] && Initial(Stories(cs))[0].story == cs[0].story
    ensures Initial(Stories(cs))[1..] == Initial(Stories(cs[1..]))
  {
  }

  lemma StoryUrlsAppend(a: seq<StoryContext>, b: seq<StoryContext>)
    requires forall i :: 0 <= i < |a| ==> Truthy(a[i].story.originalUrl)
    requires forall i :: 0 <= i < |b| ==> Truthy(b[i].story.originalUrl)
    ensures StoryUrls(a + b) == StoryUrls(a) + StoryUrls(b)
  {
  }

  function Stories(cs: seq<StoryContext>): seq<Story> {
    seq(|cs|, i requires 0 <= i < |cs| => cs[i].story)
  }

  /** `[ctx.story.original_url for ctx in url_contexts]`. */
  function StoryUrls(cs: seq<StoryContext>): seq<string>
    requires forall i :: 0 <= i < |cs| ==> Truthy(cs[i].story.originalUrl)
  {
    seq(|cs|, i requires 0 <= i < |cs| && Truthy(cs[i].story.originalUrl) => cs[i].story.originalUrl.value)
  }

  /** The extraction loop: a context takes the map's content for its URL only when
      that content is not `None`. */
  method ApplyExtraction(urlContexts: seq<StoryContext>, m: map<string, Option<string>>)
    requires forall c :: c in urlContexts ==> Truthy(c.story.originalUrl)
    modifies set c | c in urlContexts
    ensures forall c :: c in urlContexts ==> c.Value() == ExtractOne(old(c.Value()), m)
  {
    var i := 0;
    while i < |urlContexts|
      invariant 0 <= i <= |urlContexts|
      invariant forall c :: c in urlContexts[..i] ==> c.Value() == ExtractOne(old(c.Value()), m)
      invariant forall c :: c in urlContexts && c !in urlContexts[..i] ==> c.Value() == old(c.Value())
    {
      var ctx := urlContexts[i];
      var content := Lookup(m, ctx.story.originalUrl.value);
      if content.Some? && content.value.Some? {
        ctx.extractedContent := content.value;
      }
      assert urlContexts[..i + 1] == urlContexts[..i] + [ctx];
      i := i + 1;
    }
    assert urlContexts[..i] == urlContexts;
  }

  /** `[ctx for ctx in contexts if ctx.has_valid_content]`. */
  function ValidContexts(cs: seq<StoryContext>, hv: (Story, Option<string>) -> bool): (vs: seq<StoryContext>)
    reads cs
    ensures forall i :: 0 <= i < |vs| ==> vs[i] in cs
    decreases |cs|
  {
    if cs == [] then []
    else
      var rest := ValidContexts(cs[1..], hv);
      assert forall i :: 0 <= i < |rest| ==> rest[i] in cs;
      (if hv(cs[0].story, cs[0].extractedContent) then [cs[0]] else []) + rest
  }

  /** The filtered objects hold exactly the filtered values. */
  lemma {:induction false} ValuesOfValidContexts(cs: seq<StoryContext>, hv: (Story, Option<string>) -> bool)
    ensures Values(ValidContexts(cs, hv)) == ValidOnly(Values(cs), hv)
    decreases |cs|
  {
    if cs != [] {
      ValuesOfValidContexts(cs[1..], hv);
      var rest := ValidContexts(cs[1..], hv);
      var head: seq<StoryContext> := if hv(cs[0].story, cs[0].extractedContent) then [cs[0]] else [];
      ValuesTail(cs);
      ValuesAppend(head, rest);
      assert ValidContexts(cs, hv) == head + rest;
    }
  }

  lemma ValuesTail(cs: seq<StoryContext>)
    requires cs != []
    ensures Values(cs)[1..] == Values(cs[1..])
  {
  }

  lemma ValuesAppend(a: seq<StoryContext>, b: seq<StoryContext>)
    ensures Values(a + b) == Values(a) + Values(b)
  {
  }

  /** The loop that fills `ai_inputs`, one assignment per valid context. */
  method BuildAiInputs(valid: seq<StoryContext>) returns (inputs: map<int, TranslateService.AiInput>)
    ensures inputs == AiInputs(Values(valid))
  {
    ghost var vs := Values(valid);
    inputs := map[];
    var i := 0;
    while i < |valid|
      invariant 0 <= i <= |valid|
      invariant inputs == AiInputs(vs[..i])
    {
      var ctx := valid[i];
      inputs := inputs[ctx.story.hnId := map["title" := Some(ctx.story.originalTitle),
                                             "hn_text" := ctx.story.originalText,
                                             "scraped_content" := ctx.extractedContent]];
      assert Ids(vs[..i + 1])[..i] == Ids(vs[..i]);
      assert Inputs(vs[..i + 1])[..i] == Inputs(vs[..i]);
      i := i + 1;
    }
    assert vs[..i] == vs;
  }

  /** The loop that stores each valid context's result: `results.get(hn_id)`. */
  method ApplyAiResults(valid: seq<StoryContext>, results: map<int, Option<AITranslatedResult>>)
    modifies set c | c in valid
    ensures forall c :: c in valid ==> c.Value() == old(c.Value()).(aiResult := ResultFor(results, c.story.hnId))
  {
    var i := 0;
    while i < |valid|
      invariant 0 <= i <= |valid|
      invariant forall c :: c in valid[..i] ==> c.Value() == old(c.Value()).(aiResult := ResultFor(results, c.story.hnId))
      invariant forall c :: c in valid && c !in valid[..i] ==> c.Value() == old(c.Value())
    {
      var ctx := valid[i];
      ctx.aiResult := if ctx.story.hnId in results then results[ctx.story.hnId] else None;
      assert valid[..i + 1] == valid[..i] + [ctx];
      i := i + 1;
    }
    assert valid[..i] == valid;
  }

  /** The save loop: `saved_count` counts exactly the stored articles. */
  method SaveAll(valid: seq<StoryContext>, toArticle: (Story, Option<string>, AITranslatedResult) -> Option<Article>,
                 addArticle: Article -> SaveOutcome)
    returns (saved: seq<Article>, savedCount: int, requests: seq<Article>)
    ensures savedCount == |saved|
    ensures SaveLog(saved, requests) == SaveStage(Values(valid), toArticle, addArticle)
  {
    ghost var vs := Values(valid);
    saved, savedCount, requests := [], 0, [];
    var i := 0;
    while i < |valid|
      invariant 0 <= i <= |valid|
      invariant savedCount == |saved|
      invariant SaveLog(saved, requests) == SaveStage(vs[..i], toArticle, addArticle)
    {
      var ctx := valid[i];
      if ctx.aiResult.Some? {
        var article := toArticle(ctx.story, ctx.extractedContent, ctx.aiResult.value);
        if article.Some? {
          requests := requests + [article.value];
          var outcome := addArticle(article.value);
          if outcome.Saved? {
            savedCount := savedCount + 1;
            saved := saved + [outcome.article];
          }
        }
      }
      assert vs[..i + 1][..i] == vs[..i];
      i := i + 1;
    }
    assert vs[..i] == vs;
  }

  /** Step 2 of `run`: the contexts with a URL are extracted in one batch, and each
      takes its content when the batch has one for its URL. */
  method ExtractStage<R>(env: Env<R>, contexts: seq<StoryContext>) returns (extractRequest: Option<seq<string>>)
    requires Stories(contexts) == env.fetched
    requires Values(contexts) == Contexts(env)
    modifies set c | c in contexts
    ensures extractRequest == ExtractRequestOf(env)
    ensures Values(contexts) == AfterExtraction(env)
  {
    var urlContexts := WithUrl(contexts);
    UrlsOfWithUrl(contexts);
    extractRequest := None;
    if urlContexts != [] {
      var urls := StoryUrls(urlContexts);
      extractRequest := Some(urls);
      var extractedMap := env.extractor.ExtractBatch(urls, env.web);
      ghost var before := Values(contexts);
      ApplyExtraction(urlContexts, extractedMap);
      forall i | 0 <= i < |contexts|
        ensures Values(contexts)[i] == WithExtraction(before, extractedMap)[i]
      {
        if Truthy(contexts[i].story.originalUrl) {
          assert contexts[i] in urlContexts;
        } else {
          assert contexts[i] !in urlContexts;
        }
      }
    } else {
      assert UrlsOf(Contexts(env)) == [];
      forall i | 0 <= i < |contexts| ensures !Truthy(contexts[i].story.originalUrl) {
      }
    }
  }

  /** Step 3 of `run`: the valid contexts' inputs are summarised in one batch, and
      each valid context takes the answer for its id. */
  method SummariseStage<R>(env: Env<R>, valid: seq<StoryContext>) returns (summariseRequest: Option<map<int, TranslateService.AiInput>>)
    requires Values(valid) == ValidOf(env)
    modifies set c | c in valid
    ensures summariseRequest == SummariseRequestOf(env)
    ensures Values(valid) == AfterSummary(env)
  {
    summariseRequest := None;
    if valid != [] {
      var aiInputs := BuildAiInputs(valid);
      summariseRequest := Some(aiInputs);
      var aiResults := TranslateService.SummariseBatch(aiInputs, env.llm, env.decode);
      ApplyAiResults(valid, aiResults);
      forall i | 0 <= i < |valid|
        ensures valid[i].Value() == old(valid[i].Value()).(aiResult := ResultFor(aiResults, valid[i].story.hnId))
      {
        assert valid[i] in valid;
      }
      assert Values(valid) == WithAiResults(ValidOf(env), aiResults);
    }
  }

  /** The extraction and summarisation stages over the run's fresh contexts; the
      contexts that pass the validity test are returned, analysed. */
  method Analyse<R>(env: Env<R>, contexts: seq<StoryContext>)
    returns (extractRequest: Option<seq<string>>, summariseRequest: Option<map<int, TranslateService.AiInput>>,
             valid: seq<StoryContext>)
    requires Stories(contexts) == env.fetched
    requires Values(contexts) == Contexts(env)
    modifies set c | c in contexts
    ensures extractRequest == ExtractRequestOf(env)
    ensures summariseRequest == SummariseRequestOf(env)
    ensures Values(valid) == AfterSummary(env)
  {
    extractRequest := ExtractStage(env, contexts);
    valid := ValidContexts(contexts, env.hasValidContent);
    assert forall c :: c in valid ==> c in contexts;
    ValuesOfValidContexts(contexts, env.hasValidContent);
    summariseRequest := SummariseStage(env, valid);
  }

  /** `NewsIngestor.run`: returns the vectoriser's results and makes exactly the
      requests of `Pipeline`. */
  method Run<R>(env: Env<R>) returns (results: seq<R>, trace: Trace)
    ensures RunOutcome(results, trace) == Pipeline(env)
  {
    if env.fetched == [] {
      EmptyFetchRunsNothing(env);
      return [], NothingRequested;
    }
    var contexts := CreateContexts(env.fetched);
    assert Stories(contexts) == env.fetched;
    var extractRequest, summariseRequest, valid := Analyse(env, contexts);
    var saved, savedCount, saveRequests := SaveAll(valid, env.toArticle, env.addArticle);
    assert SaveLog(saved, saveRequests) == SaveLogOf(env);

    results := [];
    var vectoriseRequest: Option<seq<Article>> := None;
    if saved != [] {
      vectoriseRequest := Some(saved);
      var outcome := env.vectorise(saved);
      if outcome.Vectorised? {
        results := outcome.results;
      }
    }
    trace := Trace(extractRequest, summariseRequest, saveRequests, vectoriseRequest);
  }

  // ---------------------------------------------------------------------------
  // Properties of a run.

  /** An empty fetch returns `[]` and asks nothing of extraction, summarisation,
      the store or the vectoriser. */
  lemma EmptyFetchRunsNothing<R>(env: Env<R>)
    requires env.fetched == []
    ensures Pipeline(env) == RunOutcome([], NothingRequested)
  {
    assert Contexts(env) == [];
    assert ExtractRequestOf(env) == None;
    assert AfterExtraction(env) == [];
    assert ValidOf(env) == [];
    assert AfterSummary(env) == [];
  }

  /** Extraction is asked exactly when some story has a truthy URL, and is asked
      for exactly the truthy URLs. */
  lemma ExtractRequestIsTruthyUrls<R>(env: Env<R>)
    ensures ExtractRequestOf(env).Some? <==> exists s :: s in env.fetched && Truthy(s.originalUrl)
    ensures ExtractRequestOf(env).Some? ==>
      forall u :: u in ExtractRequestOf(env).value <==> exists s :: s in env.fetched && Truthy(s.originalUrl) && s.originalUrl.value == u
  {
    var cs := Contexts(env);
    var urls := UrlsOf(cs);
    forall s | s in env.fetched && Truthy(s.originalUrl) ensures s.originalUrl.value in urls {
      var i :| 0 <= i < |env.fetched| && env.fetched[i] == s;
      assert cs[i] in cs;
    }
    forall u | u in urls ensures exists s :: s in env.fetched && Truthy(s.originalUrl) && s.originalUrl.value == u {
      var c :| c in cs && Truthy(c.story.originalUrl) && c.story.originalUrl.value == u;
      var i :| 0 <= i < |cs| && cs[i] == c;
      assert env.fetched[i] in env.fetched;
    }
    if exists s :: s in env.fetched && Truthy(s.originalUrl) {
      var s :| s in env.fetched && Truthy(s.originalUrl);
      assert s.originalUrl.value in urls;
    }
    if urls != [] {
      assert urls[0] in urls;
    }
  }

  /** After extraction, each context holds its own page's extracted text when the
      reader returned one, and nothing otherwise; a story without a URL holds nothing. */
  lemma ExtractedIsOwnPage<R>(env: Env<R>)
    ensures |AfterExtraction(env)| == |env.fetched|
    ensures forall i :: 0 <= i < |env.fetched| ==>
      AfterExtraction(env)[i].story == env.fetched[i] && AfterExtraction(env)[i].aiResult == None
      && AfterExtraction(env)[i].extracted ==
           (if Truthy(env.fetched[i].originalUrl)
            then env.extractor.ExtractUrl(env.fetched[i].originalUrl.value, env.web) else None)
  {
    ExtractRequestIsTruthyUrls(env);
    match ExtractRequestOf(env)
    case None =>
    case Some(urls) =>
      env.extractor.ExtractBatchSpec(urls, env.web);
      forall i | 0 <= i < |env.fetched| && Truthy(env.fetched[i].originalUrl)
        ensures env.fetched[i].originalUrl.value in urls
      {
        assert env.fetched[i] in env.fetched;
      }
  }

  /** Summarisation is asked exactly when some context passes the validity test; its
      inputs are keyed by the ids of the passing contexts and of no others. */
  lemma SummariseOnlyValid<R>(env: Env<R>)
    ensures forall c :: c in ValidOf(env) ==> c in AfterExtraction(env) && env.hasValidContent(c.story, c.extracted)
    ensures SummariseRequestOf(env).None? <==> ValidOf(env) == []
    ensures SummariseRequestOf(env).Some? ==>
      SummariseRequestOf(env).value.Keys == set c | c in ValidOf(env) :: c.story.hnId
  {
    AiInputsKeys(ValidOf(env));
  }

  /** The summariser's inputs are keyed by exactly the contexts' ids. */
  lemma AiInputsKeys(vs: seq<Ctx>)
    ensures AiInputs(vs).Keys == set c | c in vs :: c.story.hnId
  {
    Keyed.ZipToMapSpec(Ids(vs), Inputs(vs));
    forall id | id in Ids(vs) ensures id in set c | c in vs :: c.story.hnId {
      var i :| 0 <= i < |vs| && Ids(vs)[i] == id;
      assert vs[i] in vs;
    }
    forall c | c in vs ensures c.story.hnId in Ids(vs) {
      var i :| 0 <= i < |vs| && vs[i] == c;
      assert Ids(vs)[i] == c.story.hnId;
    }
  }

  /** Each valid context's input is the one of the last valid context with its id:
      contexts that share an id all receive the summary of the last one's input. */
  lemma SharedIdTakesLastInput<R>(env: Env<R>, i: nat)
    requires i < |ValidOf(env)|
    ensures var vs := ValidOf(env);
      var inputs := AiInputs(vs);
      vs[i].story.hnId in Ids(vs) && vs[i].story.hnId in inputs
      && inputs[vs[i].story.hnId] == InputOf(vs[Keyed.LastIndexOf(Ids(vs), vs[i].story.hnId)])
  {
    var vs := ValidOf(env);
    Keyed.ZipToMapSpec(Ids(vs), Inputs(vs));
    assert Ids(vs)[i] == vs[i].story.hnId;
  }

  /** No context holds an analysis before summarisation. */
  lemma ValidUnsummarised<R>(env: Env<R>)
    ensures forall c :: c in ValidOf(env) ==> c.aiResult == None
  {
    ExtractedIsOwnPage(env);
    forall c | c in ValidOf(env) ensures c.aiResult == None {
      var i :| 0 <= i < |AfterExtraction(env)| && AfterExtraction(env)[i] == c;
    }
  }

  /** After summarisation, each valid context holds the batch's answer for its own id,
      and any analysis it holds satisfies the schema bounds. */
  lemma AiResultIsOwnEntry<R>(env: Env<R>)
    ensures |AfterSummary(env)| == |ValidOf(env)|
    ensures forall i :: 0 <= i < |ValidOf(env)| ==>
      AfterSummary(env)[i].story == ValidOf(env)[i].story && AfterSummary(env)[i].extracted == ValidOf(env)[i].extracted
    ensures SummariseRequestOf(env).Some? ==> forall i :: 0 <= i < |ValidOf(env)| ==>
      var batch := TranslateService.SummariseBatch(SummariseRequestOf(env).value, env.llm, env.decode);
      ValidOf(env)[i].story.hnId in batch && AfterSummary(env)[i].aiResult == ResultFor(batch, ValidOf(env)[i].story.hnId)
    ensures forall c :: c in AfterSummary(env) && c.aiResult.Some? ==> ValidAnalysis(c.aiResult.value)
  {
    var vs := ValidOf(env);
    match SummariseRequestOf(env)
    case None =>
      ValidUnsummarised(env);
    case Some(inputs) =>
      AiInputsKeys(vs);
      WithAiResultsOwnEntry(vs, TranslateService.SummariseBatch(inputs, env.llm, env.decode));
  }

  /** Results merged by id: each context gets the entry for its own id, and an
      analysis it gets is one of the batch's. */
  lemma WithAiResultsOwnEntry(vs: seq<Ctx>, batch: map<int, Option<AITranslatedResult>>)
    requires batch.Keys == set c | c in vs :: c.story.hnId
    requires forall id :: id in batch && batch[id].Some? ==> ValidAnalysis(batch[id].value)
    ensures forall i :: 0 <= i < |vs| ==> vs[i].story.hnId in batch && WithAiResults(vs, batch)[i].aiResult == ResultFor(batch, vs[i].story.hnId)
    ensures forall c :: c in WithAiResults(vs, batch) && c.aiResult.Some? ==> ValidAnalysis(c.aiResult.value)
  {
    var after := WithAiResults(vs, batch);
    forall i | 0 <= i < |vs| ensures vs[i].story.hnId in batch {
      assert vs[i] in vs;
    }
    forall c | c in after && c.aiResult.Some? ensures ValidAnalysis(c.aiResult.value) {
      var i :| 0 <= i < |vs| && after[i] == c;
      assert c.aiResult == batch[vs[i].story.hnId];
    }
  }

  /** Every article offered to the store was converted from a context whose analysis
      is present, and every stored article is what the store returned for an offered one. */
  lemma {:induction false} SaveStageSources(cs: seq<Ctx>, toArticle: (Story, Option<string>, AITranslatedResult) -> Option<Article>,
                                             addArticle: Article -> SaveOutcome)
    ensures var log := SaveStage(cs, toArticle, addArticle);
      && |log.saved| <= |log.requests| <= |cs|
      && (forall a :: a in log.requests ==>
            exists c :: c in cs && c.aiResult.Some? && toArticle(c.story, c.extracted, c.aiResult.value) == Some(a))
      && (forall s :: s in log.saved ==> exists a :: a in log.requests && addArticle(a) == Saved(s))
    decreases |cs|
  {
    if cs != [] {
      var init := cs[..|cs| - 1];
      SaveStageSources(init, toArticle, addArticle);
      assert forall c :: c in init ==> c in cs;
    }
  }

  /** The save loop offers the store exactly the articles of the analysed contexts, in
      order, and keeps exactly the store's answers that are articles, in order: a
      failed conversion, a store that returns `None` and a store that raises each skip
      one context without stopping the loop. */
  lemma {:induction false} SaveStageExact(cs: seq<Ctx>, toArticle: (Story, Option<string>, AITranslatedResult) -> Option<Article>,
                                          addArticle: Article -> SaveOutcome)
    ensures SaveStage(cs, toArticle, addArticle).requests == Offered(cs, toArticle)
    ensures SaveStage(cs, toArticle, addArticle).saved == Stored(Offered(cs, toArticle), addArticle)
    decreases |cs|
  {
    if cs != [] {
      var init, last := cs[..|cs| - 1], cs[|cs| - 1];
      SaveStageExact(init, toArticle, addArticle);
      assert cs == init + [last];
      OfferedAppend(init, [last], toArticle);
      StoredAppend(Offered(init, toArticle), Offered([last], toArticle), addArticle);
      assert Offered([last], toArticle) == (match ArticleOf(last, toArticle) case Some(a) => [a] case None => []) + Offered([], toArticle);
    }
  }

  /** Every analysed context's article is offered to the store, whatever the store
      answered for the contexts before it. */
  lemma {:induction false} OfferedHasEvery(cs: seq<Ctx>, toArticle: (Story, Option<string>, AITranslatedResult) -> Option<Article>, i: nat)
    requires i < |cs| && ArticleOf(cs[i], toArticle).Some?
    ensures ArticleOf(cs[i], toArticle).value in Offered(cs, toArticle)
    decreases i
  {
    if i > 0 {
      OfferedHasEvery(cs[1..], toArticle, i - 1);
    }
  }

  /** Saving more contexts after a first batch keeps the first batch's log and appends
      the later contexts' own log: what happened to earlier saves does not affect later ones. */
  lemma SaveStageAppend(a: seq<Ctx>, b: seq<Ctx>, toArticle: (Story, Option<string>, AITranslatedResult) -> Option<Article>,
                        addArticle: Article -> SaveOutcome)
    ensures SaveStage(a + b, toArticle, addArticle).requests == SaveStage(a, toArticle, addArticle).requests + SaveStage(b, toArticle, addArticle).requests
    ensures SaveStage(a + b, toArticle, addArticle).saved == SaveStage(a, toArticle, addArticle).saved + SaveStage(b, toArticle, addArticle).saved
  {
    SaveStageExact(a + b, toArticle, addArticle);
    SaveStageExact(a, toArticle, addArticle);
    SaveStageExact(b, toArticle, addArticle);
    OfferedAppend(a, b, toArticle);
    StoredAppend(Offered(a, toArticle), Offered(b, toArticle), addArticle);
  }

  /** What reaches the store: at most one article per summarised context, each from a
      context that passed the validity test and holds a valid analysis; every analysed
      context's article is offered, in order, and the stored articles are exactly the
      store's successful answers, in order. */
  lemma SavedOnlyAnalysed<R>(env: Env<R>)
    ensures |SaveLogOf(env).saved| <= |SaveLogOf(env).requests| <= |ValidOf(env)|
    ensures forall a :: a in Pipeline(env).trace.saveRequests ==>
      exists c :: c in AfterSummary(env) && env.hasValidContent(c.story, c.extracted)
                  && c.aiResult.Some? && ValidAnalysis(c.aiResult.value)
                  && env.toArticle(c.story, c.extracted, c.aiResult.value) == Some(a)
    ensures Pipeline(env).trace.saveRequests == Offered(AfterSummary(env), env.toArticle)
    ensures SaveLogOf(env).saved == Stored(Pipeline(env).trace.saveRequests, env.addArticle)
    ensures forall i :: 0 <= i < |AfterSummary(env)| && ArticleOf(AfterSummary(env)[i], env.toArticle).Some? ==>
      ArticleOf(AfterSummary(env)[i], env.toArticle).value in Pipeline(env).trace.saveRequests
  {
    AiResultIsOwnEntry(env);
    SummariseOnlyValid(env);
    SaveStageSources(AfterSummary(env), env.toArticle, env.addArticle);
    SaveStageExact(AfterSummary(env), env.toArticle, env.addArticle);
    forall c | c in AfterSummary(env) ensures env.hasValidContent(c.story, c.extracted) {
      var i :| 0 <= i < |AfterSummary(env)| && AfterSummary(env)[i] == c;
      assert ValidOf(env)[i] in ValidOf(env);
    }
    forall i | 0 <= i < |AfterSummary(env)| && ArticleOf(AfterSummary(env)[i], env.toArticle).Some?
      ensures ArticleOf(AfterSummary(env)[i], env.toArticle).value in Pipeline(env).trace.saveRequests
    {
      OfferedHasEvery(AfterSummary(env), env.toArticle, i);
    }
  }

  /** The vectoriser is called with exactly the stored articles, and only when there
      are some; its results are returned, and an exception gives `[]`. */
  lemma VectoriseExactlySaved<R>(env: Env<R>)
    ensures Pipeline(env).trace.vectoriseRequest.Some? <==> SaveLogOf(env).saved != []
    ensures Pipeline(env).trace.vectoriseRequest.Some? ==> Pipeline(env).trace.vectoriseRequest.value == SaveLogOf(env).saved
    ensures Pipeline(env).results != [] ==>
      Pipeline(env).trace.vectoriseRequest.Some? && env.vectorise(SaveLogOf(env).saved) == Vectorised(Pipeline(env).results)
    ensures Pipeline(env).trace.vectoriseRequest.Some? && env.vectorise(SaveLogOf(env).saved).VectorRaised? ==> Pipeline(env).results == []
    ensures Pipeline(env).trace.vectoriseRequest.Some? && env.vectorise(SaveLogOf(env).saved).Vectorised? ==>
      Pipeline(env).results == env.vectorise(SaveLogOf(env).saved).results
  {
  }

  // ---------------------------------------------------------------------------
  // The backfill.

  /** The number of pending articles the backfill asks for, whatever its argument. */
  const BackfillBatch: int := 10

  /** `get_articles_without_embedding`: the pending articles, or an exception. */
  datatype PendingOutcome = Pending(articles: seq<Article>) | PendingRaised

  /** `process_failed_embeddings`: the vectoriser's results for the pending articles;
      `[]` when there are none or anything raises. */
  function Backfill<R>(limit: int, pending: int -> PendingOutcome, vectorise: seq<Article> -> VectorOutcome<R>): (r: seq<R>)
    ensures r != [] ==> pending(BackfillBatch).Pending? && pending(BackfillBatch).articles != []
                        && vectorise(pending(BackfillBatch).articles) == Vectorised(r)
    ensures pending(BackfillBatch).PendingRaised? ==> r == []
    ensures pending(BackfillBatch).Pending? && pending(BackfillBatch).articles == [] ==> r == []
    ensures pending(BackfillBatch).Pending? && pending(BackfillBatch).articles != [] ==>
      match vectorise(pending(BackfillBatch).articles)
      case Vectorised(results) => r == results
      case VectorRaised => r == []
  {
    match pending(BackfillBatch)
    case PendingRaised => []
    case Pending(articles) =>
      if articles == [] then []
      else match vectorise(articles)
        case VectorRaised => []
        case Vectorised(results) => results
  }

  /** The backfill vectorises its pending articles as a run vectorises the articles it
      stored: a run's results are the backfill's for a store whose pending articles are
      the ones the run saved. */
  lemma BackfillIsRunVectorisation<R>(env: Env<R>, limit: int)
    ensures Pipeline(env).results == Backfill(limit, _ => Pending(SaveLogOf(env).saved), env.vectorise)
  {
  }

  /** The `limit` argument has no effect. */
  lemma BackfillIgnoresLimit<R>(l1: int, l2: int, pending: int -> PendingOutcome, vectorise: seq<Article> -> VectorOutcome<R>)
    ensures Backfill(l1, pending, vectorise) == Backfill(l2, pending, vectorise)
  {
  }
}
