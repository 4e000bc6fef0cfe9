/** The chat service helpers: the conversion of the client's history into the
    LLM library's message types, the numbered context built from vector-search
    results for the global chat, and the whitespace strip of the rewritten
    search query. The LLM and the vector search are parameters. */
module ChatService {
  import opened Wrappers
  import opened Text

  /** A message of the client's history; its role is free text. */
  datatype ChatMessage = ChatMessage(role: string, content: string)

  /** The LLM library's message types the history is converted to. */
  datatype LcMessage = HumanMessage(content: string) | AIMessage(content: string)

  predicate KnownRole(role: string) {
    role == "user" || role == "assistant"
  }

  /** The conversion of one message: a user message becomes a human message, an
      assistant message an AI message, any other role nothing. */
  function ConvertOne(m: ChatMessage): (r: seq<LcMessage>)
    ensures |r| == if KnownRole(m.role) then 1 else 0
    ensures m.role == "user" ==> r == [HumanMessage(m.content)]
    ensures m.role == "assistant" ==> r == [AIMessage(m.content)]
  {
    if m.role == "user" then [HumanMessage(m.content)]
    else if m.role == "assistant" then [AIMessage(m.content)]
    else []
  }

  /** The converted history, message by message in order. */
  function Converted(history: seq<ChatMessage>): seq<LcMessage>
    decreases |history|
  {
    if history == [] then []
    else Converted(history[..|history| - 1]) + ConvertOne(history[|history| - 1])
  }

  /** `_convert_history`: the loop appending one converted message per known role. */
  method ConvertHistory(history: seq<ChatMessage>) returns (lcHistory: seq<LcMessage>)
    ensures lcHistory == Converted(history)
  {
    lcHistory := [];
    var i := 0;
    while i < |history|
      invariant 0 <= i <= |history|
      invariant lcHistory == Converted(history[..i])
    {
      var msg := history[i];
      if msg.role == "user" {
        lcHistory := lcHistory + [HumanMessage(msg.content)];
      } else if msg.role == "assistant" {
        lcHistory := lcHistory + [AIMessage(msg.content)];
      }
      assert history[..i + 1][..i] == history[..i];
      i := i + 1;
    }
    assert history[..i] == history;
  }

  /** Conversion distributes over concatenation, so the converted messages keep the
      order of the history. */
  lemma {:induction false} ConvertedAppend(a: seq<ChatMessage>, b: seq<ChatMessage>)
    ensures Converted(a + b) == Converted(a) + Converted(b)
    decreases |b|
  {
    if b == [] {
      assert a + b == a;
    } else {
      var b', last := b[..|b| - 1], b[|b| - 1];
      ConvertedAppend(a, b');
      assert (a + b)[..|a + b| - 1] == a + b' && (a + b)[|a + b| - 1] == last;
      calc {
        Converted(a + b);
        Converted(a + b') + ConvertOne(last);
        (Converted(a) + Converted(b')) + ConvertOne(last);
        Converted(a) + (Converted(b') + ConvertOne(last));
        Converted(a) + Converted(b);
      }
    }
  }

  /** The converted history is no longer than the history, and exactly as long when
      every role is `user` or `assistant`. */
  lemma {:induction false} ConvertedLength(history: seq<ChatMessage>)
    ensures |Converted(history)| <= |history|
    ensures |Converted(history)| == |history| <==> forall i :: 0 <= i < |history| ==> KnownRole(history[i].role)
    decreases |history|
  {
    if history != [] {
      var init := history[..|history| - 1];
      ConvertedLength(init);
      if forall i :: 0 <= i < |init| ==> KnownRole(init[i].role) {
        assert forall i :: 0 <= i < |history| - 1 ==> history[i] == init[i];
      } else {
        var i :| 0 <= i < |init| && !KnownRole(init[i].role);
        assert history[i] == init[i];
      }
    }
  }

  /** The reply the global chat gives when the search finds nothing. */
  const NoResultsMessage := "数据库中暂无相关文章涉及此话题。"

  /** A metadata value as the f-string renders it; a JSON null renders as "None". */
  datatype MetaValue = Text(s: string) | Number(n: int) | NullValue

  function Render(v: MetaValue): string {
    match v
    case Text(s) => s
    case Number(n) => IntToString(n)
    case NullValue => "None"
  }

  /** A key of a search result's dict: absent, present with a null value, or present. */
  datatype Field<T> = Absent | Null | Present(value: T)

  /** A search result: its metadata and content keys. */
  datatype SearchResult = SearchResult(metadata: Field<map<string, MetaValue>>, content: Field<string>)

  const UnknownTitle := "Unknown Title"
  const UnknownId := "Unknown ID"

  /** `meta.get(key, default)` on `meta = res.get("metadata", {})`: `None` when the
      metadata is a null, on which `.get` raises `AttributeError`. */
  function MetaField(res: SearchResult, key: string, default: string): (r: Option<string>)
    ensures r.None? <==> res.metadata.Null?
    ensures res.metadata.Absent? ==> r == Some(default)
    ensures res.metadata.Present? && key in res.metadata.value ==> r == Some(Render(res.metadata.value[key]))
    ensures res.metadata.Present? && key !in res.metadata.value ==> r == Some(default)
  {
    match res.metadata
    case Null => None
    case Absent => Some(default)
    case Present(meta) => Some(if key in meta then Render(meta[key]) else default)
  }

  /** `res.get("content", "")` as the f-string renders it. */
  function ContentField(res: SearchResult): string {
    match res.content
    case Absent => ""
    case Null => "None"
    case Present(c) => c
  }

  /** The results whose blocks can be rendered: none has a null metadata. */
  predicate Renderable(results: seq<SearchResult>) {
    forall k :: 0 <= k < |results| ==> !results[k].metadata.Null?
  }

  /** The block for the result at 0-based position `i`, numbered from 1. */
  function DocumentBlock(i: nat, res: SearchResult): string
    requires !res.metadata.Null?
  {
    "--- Document " + NatToString(i + 1)
      + " (Title: " + MetaField(res, "title", UnknownTitle).value
      + ", ID: " + MetaField(res, "hn_id", UnknownId).value + ") ---\n"
      + ContentField(res) + "\n"
  }

  function Blocks(results: seq<SearchResult>): seq<string>
    requires Renderable(results)
  {
    seq(|results|, i requires 0 <= i < |results| => DocumentBlock(i, results[i]))
  }

  /** The context handed to the global chat prompt, or `None` when building it raises. */
  function RagContext(results: seq<SearchResult>): Option<string> {
    if results == [] then Some(NoResultsMessage)
    else if Renderable(results) then Some(JoinWith(Blocks(results), "\n"))
    else None
  }

  /** `_build_rag_context`: the fixed message for no results; otherwise one block per
      result, collected in a loop and joined with line breaks. A null metadata makes
      the loop raise, which gives `None`. */
  method BuildRagContext(results: seq<SearchResult>) returns (context: Option<string>)
    ensures results == [] ==> context == Some(NoResultsMessage)
    ensures context.None? <==> exists k :: 0 <= k < |results| && results[k].metadata.Null?
    ensures results != [] && context.Some? ==> context.value == JoinWith(Blocks(results), "\n")
    ensures context == RagContext(results)
  {
    if results == [] {
      return Some(NoResultsMessage);
    }
    var parts: seq<string> := [];
    var i := 0;
    while i < |results|
      invariant 0 <= i <= |results|
      invariant Renderable(results[..i])
      invariant parts == Blocks(results[..i])
    {
      var res := results[i];
      if res.metadata.Null? {
        return None;
      }
      var title := MetaField(res, "title", UnknownTitle).value;
      var hnId := MetaField(res, "hn_id", UnknownId).value;
      var part := "--- Document " + NatToString(i + 1) + " (Title: " + title + ", ID: " + hnId + ") ---\n"
        + ContentField(res) + "\n";
      BlocksSnoc(results, i);
      parts := parts + [part];
      i := i + 1;
    }
    assert results[..i] == results;
    context := Some(JoinWith(parts, "\n"));
  }

  lemma BlocksSnoc(results: seq<SearchResult>, i: nat)
    requires i < |results| && Renderable(results[..i]) && !results[i].metadata.Null?
    ensures Renderable(results[..i + 1])
    ensures Blocks(results[..i + 1]) == Blocks(results[..i]) + [DocumentBlock(i, results[i])]
  {
    assert results[..i + 1] == results[..i] + [results[i]];
  }

  /** Each result's block appears in the context at its own offset, the blocks in
      search-result order, each followed by a line break. */
  lemma BlocksInOrder(results: seq<SearchResult>, i: nat)
    requires Renderable(results)
    requires i < |results|
    ensures RagContext(results).Some?
    ensures OccursAt(RagContext(results).value, DocumentBlock(i, results[i]), PartOffset(Blocks(results), "\n", i))
    ensures i + 1 < |results| ==>
      PartOffset(Blocks(results), "\n", i + 1) == PartOffset(Blocks(results), "\n", i) + |DocumentBlock(i, results[i])| + 1
  {
    JoinWithPlacesParts(Blocks(results), "\n", i);
    if i + 1 < |results| {
      PartOffsetNext(Blocks(results), "\n", i);
    }
  }

  /** A result without metadata or content is listed under the placeholders. */
  lemma MissingFieldsDefault(i: nat)
    ensures DocumentBlock(i, SearchResult(Absent, Absent)) ==
      "--- Document " + NatToString(i + 1) + " (Title: " + UnknownTitle + ", ID: " + UnknownId + ") ---\n\n"
  {
    var res := SearchResult(Absent, Absent);
    var head := "--- Document " + NatToString(i + 1) + " (Title: " + UnknownTitle + ", ID: " + UnknownId + ") ---";
    assert MetaField(res, "title", UnknownTitle) == Some(UnknownTitle);
    assert MetaField(res, "hn_id", UnknownId) == Some(UnknownId);
    assert DocumentBlock(i, res) == head + "\n" + "" + "\n";
    assert "\n" + "" + "\n" == "\n\n";
    assert head + "\n" + "" + "\n" == head + ("\n" + "" + "\n");
  }

  /** A null content is rendered as the text "None" at the end of its block. */
  lemma NullContentRendersNone(i: nat, metadata: Field<map<string, MetaValue>>)
    requires !metadata.Null?
    ensures var block := DocumentBlock(i, SearchResult(metadata, Null));
      |block| >= 5 && block[|block| - 5..] == "None\n"
  {
    var block := DocumentBlock(i, SearchResult(metadata, Null));
    var head := "--- Document " + NatToString(i + 1)
      + " (Title: " + MetaField(SearchResult(metadata, Null), "title", UnknownTitle).value
      + ", ID: " + MetaField(SearchResult(metadata, Null), "hn_id", UnknownId).value + ") ---\n";
    assert block == head + ("None" + "\n");
  }

  /** The search query handed to the vector search: the LLM's rewrite of the message
      in the light of the converted history, stripped of surrounding whitespace. */
  function RewrittenQuery(message: string, history: seq<ChatMessage>,
                          rewrite: (seq<LcMessage>, string) -> string): (q: string)
    ensures q != "" ==> !IsPySpace(q[0]) && !IsPySpace(q[|q| - 1])
    ensures var reply := rewrite(Converted(history), message);
      var lead := LeadingCount(reply, IsPySpace);
      lead + |q| <= |reply| && q == reply[lead..lead + |q|]
      && (forall k :: 0 <= k < lead ==> IsPySpace(reply[k]))
      && (forall k :: lead + |q| <= k < |reply| ==> IsPySpace(reply[k]))
  {
    Strip(rewrite(Converted(history), message), IsPySpace)
  }

  /** The number of results the global chat asks of the vector search. */
  const SearchLimit: nat := 5

  /** What the global chat hands to the answering chain. */
  datatype GlobalChatInput = GlobalChatInput(context: string, history: seq<LcMessage>, message: string)

  /** `stream_global_chat` up to the answering chain: rewrite, search for five results
      with the rewritten query, build the context; `None` when building the context
      raises. The streaming of the answer is not modelled. */
  function GlobalChatInputFor(message: string, history: seq<ChatMessage>,
                              rewrite: (seq<LcMessage>, string) -> string,
                              search: (string, nat) -> seq<SearchResult>): (g: Option<GlobalChatInput>)
    ensures var results := search(RewrittenQuery(message, history, rewrite), SearchLimit);
      g.None? <==> exists k :: 0 <= k < |results| && results[k].metadata.Null?
    ensures g.Some? ==> g.value.message == message && g.value.history == Converted(history)
    ensures g.Some? ==> Some(g.value.context) == RagContext(search(RewrittenQuery(message, history, rewrite), SearchLimit))
  {
    var query := RewrittenQuery(message, history, rewrite);
    match RagContext(search(query, SearchLimit))
    case None => None
    case Some(context) => Some(GlobalChatInput(context, Converted(history), message))
  }
}
