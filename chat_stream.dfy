/** The client's chat stream hook: the message list, the loading flag and the
    conversation id, and `sendMessage`, which posts a message and reads the
    streamed reply. The reply arrives as text chunks holding blocks separated by
    a blank line: `data: <payload>` blocks carry the answer, with line breaks
    escaped as backslash-`n`; `event: new_conversation` and `event: error` blocks
    carry a second `data: ` line. The server is a parameter: a function from the
    request to the response, with the body already decoded into text chunks. */
module ChatStream {
  import opened Wrappers
  import opened Text
  import ChatStore

  datatype Role = User | Assistant

  datatype ChatMessage = ChatMessage(role: Role, content: string)

  const SignInReply := "Please sign in to use the chat."
  const BlockSeparator := "\n\n"
  const LineBreak := "\n"
  const DataPrefix := "data: "
  const NewConversationEvent := "event: new_conversation"
  const ErrorEvent := "event: error"
  const DoneMarker := "[DONE]"
  const UnknownError := "Unknown error"
  const NoBodyError := "No response body"
  const UnauthorizedError := "Unauthorized. Please sign in again."
  const ApiErrorPrefix := "API Error: "
  const FetchFailedText := "Failed to fetch response."
  const ErrorPrefix := "Error: "

  /** The two chat endpoints and what is posted to them. */
  datatype ChatRequest =
    | ArticleChat(articleId: int, message: string, conversationId: Option<string>)
    | GlobalChat(message: string, conversationId: Option<string>)

  /** The article endpoint serves the article mode with a truthy article id; every
      other call goes to the global endpoint. */
  function RequestFor(content: string, mode: ChatStore.Mode, articleId: Option<int>,
                      conversationId: Option<string>): (r: ChatRequest)
    ensures r.ArticleChat? <==> mode == ChatStore.Article && TruthyId(articleId)
    ensures r.ArticleChat? ==> r.articleId == articleId.value
    ensures r.message == content && r.conversationId == conversationId
  {
    if mode == ChatStore.Article && TruthyId(articleId) then ArticleChat(articleId.value, content, conversationId)
    else GlobalChat(content, conversationId)
  }

  /** A thrown value: an `Error` with its message, or anything else. */
  datatype Thrown = ErrorObject(message: string) | OtherValue

  /** How reading the body ends after the chunks: normally, or with an exception. */
  datatype StreamEnd = Done | ReadFailed(thrown: Thrown)

  /** What the request produced: a response (body present or not, status, `ok`,
      status text, the decoded chunks and how reading ends), or an exception. */
  datatype Response =
    | Response(hasBody: bool, status: int, ok: bool, statusText: string, chunks: seq<string>, end: StreamEnd)
    | RequestFailed(thrown: Thrown)

  /** The checks made before reading: a missing body, then status 401, then any
      other failed status, each turned into an error. */
  function ResponseCheck(r: Response): (e: Option<string>)
    requires r.Response?
    ensures e.None? <==> r.hasBody && r.status != 401 && r.ok
    ensures !r.hasBody ==> e == Some(NoBodyError)
    ensures r.hasBody && r.status == 401 ==> e == Some(UnauthorizedError)
    ensures r.hasBody && r.status != 401 && !r.ok ==> e == Some(ApiErrorPrefix + r.statusText)
  {
    if !r.hasBody then Some(NoBodyError)
    else if r.status == 401 then Some(UnauthorizedError)
    else if !r.ok then Some(ApiErrorPrefix + r.statusText)
    else None
  }

  /** The assistant message that replaces the last one when an exception is caught. */
  function ErrorReply(t: Thrown): (m: ChatMessage)
    ensures m.role == Assistant && StartsWith(m.content, ErrorPrefix)
  {
    ChatMessage(Assistant, ErrorPrefix + match t case ErrorObject(msg) => msg case OtherValue => FetchFailedText)
  }

  /** Assigning the last index of a copy of the list: the list keeps its length, and an
      empty list stays empty. */
  function ReplaceLast(ms: seq<ChatMessage>, m: ChatMessage): (r: seq<ChatMessage>)
    ensures ms == [] ==> r == []
    ensures ms != [] ==> |r| == |ms| && r[..|ms| - 1] == ms[..|ms| - 1] && r[|ms| - 1] == m
  {
    if ms == [] then [] else ms[..|ms| - 1] + [m]
  }

  /** `[...prev.slice(0, -1), m]`: the last message replaced, or `m` alone when the
      list is empty. */
  function ReplaceLastForError(ms: seq<ChatMessage>, m: ChatMessage): (r: seq<ChatMessage>)
    ensures |r| == if ms == [] then 1 else |ms|
    ensures r[..|r| - 1] == ms[..|r| - 1] && r[|r| - 1] == m
  {
    (if ms == [] then [] else ms[..|ms| - 1]) + [m]
  }

  /** The state of a read: the unfinished text, the answer so far, the messages, the
      conversation id, and the error an `event: error` block threw. */
  datatype Progress = Progress(buffer: string, content: string, messages: seq<ChatMessage>,
                               conversationId: Option<string>, error: Option<string>)

  /** `block.split("\n")[1]`, absent when the block has a single line. */
  function SecondLine(block: string): (r: Option<string>)
    ensures r.Some? <==> |SplitOn(block, LineBreak)| >= 2
    ensures r.Some? ==> r.value == SplitOn(block, LineBreak)[1]
  {
    var lines := SplitOn(block, LineBreak);
    if |lines| >= 2 then Some(lines[1]) else None
  }

  /** What one complete block does. */
  function StepBlock(p: Progress, block: string): Progress {
    if StartsWith(block, NewConversationEvent) then
      var dataLine := SecondLine(block);
      if dataLine.Some? && StartsWith(dataLine.value, DataPrefix) then
        p.(conversationId := Some(Strip(ReplaceFirst(dataLine.value, DataPrefix, ""), IsJsSpace)))
      else p
    else if StartsWith(block, DataPrefix) then
      var data := ReplaceFirst(block, DataPrefix, "");
      if data == DoneMarker then p
      else
        var content := p.content + UnescapeNewlines(data);
        p.(content := content, messages := ReplaceLast(p.messages, ChatMessage(Assistant, content)))
    else if StartsWith(block, ErrorEvent) then
      var dataLine := SecondLine(block);
      var e := if dataLine.Some? then ReplaceFirst(dataLine.value, DataPrefix, "") else "";
      p.(error := Some(if e == "" then UnknownError else e))
    else p
  }

  /** The blocks in order, up to the first that throws. */
  function StepBlocks(p: Progress, blocks: seq<string>): Progress
    decreases |blocks|
  {
    if blocks == [] then p
    else
      var q := StepBlocks(p, blocks[..|blocks| - 1]);
      if q.error.Some? then q else StepBlock(q, blocks[|blocks| - 1])
  }

  /** One chunk: appended to the buffer, the buffer split at blank lines, the last
      piece kept as the new buffer and the complete blocks before it processed. */
  function StepChunk(p: Progress, chunk: string): Progress {
    var text := p.buffer + chunk;
    StepBlocks(p.(buffer := LastPiece(text, BlockSeparator)), CompletePieces(text, BlockSeparator))
  }

  /** The chunks in order, up to the first block that throws. */
  function StepChunks(p: Progress, chunks: seq<string>): Progress
    decreases |chunks|
  {
    if chunks == [] then p
    else
      var q := StepChunks(p, chunks[..|chunks| - 1]);
      if q.error.Some? then q else StepChunk(q, chunks[|chunks| - 1])
  }

  /** The hook's state as one value. */
  datatype ChatView = ChatView(messages: seq<ChatMessage>, isLoading: bool, conversationId: Option<string>)

  /** What the request and the read leave: the messages, the conversation id, and the
      exception caught, if any. */
  datatype Exchange = Exchange(messages: seq<ChatMessage>, conversationId: Option<string>, thrown: Option<Thrown>)

  function ExchangeOf(messages: seq<ChatMessage>, conversationId: Option<string>, response: Response): Exchange {
    match response
    case RequestFailed(t) => Exchange(messages, conversationId, Some(t))
    case Response(_, _, _, _, chunks, end) =>
      match ResponseCheck(response)
      case Some(e) => Exchange(messages, conversationId, Some(ErrorObject(e)))
      case None =>
        var p := StepChunks(Progress("", "", messages, conversationId, None), chunks);
        if p.error.Some? then Exchange(p.messages, p.conversationId, Some(ErrorObject(p.error.value)))
        else Exchange(p.messages, p.conversationId, if end.ReadFailed? then Some(end.thrown) else None)
  }

  /** The state after `sendMessage(content, mode, articleId)` with the given token. */
  function AfterSend(v: ChatView, content: string, mode: ChatStore.Mode, articleId: Option<int>,
                     token: Option<string>, api: ChatRequest -> Response): ChatView
  {
    if !Truthy(token) then
      v.(messages := v.messages + [ChatMessage(User, content), ChatMessage(Assistant, SignInReply)])
    else
      var placed := v.messages + [ChatMessage(User, content), ChatMessage(Assistant, "")];
      var x := ExchangeOf(placed, v.conversationId, api(RequestFor(content, mode, articleId, v.conversationId)));
      var messages := if x.thrown.Some? then ReplaceLastForError(x.messages, ErrorReply(x.thrown.value)) else x.messages;
      ChatView(messages, false, x.conversationId)
  }

  class ChatStream {
    var messages: seq<ChatMessage>
    var isLoading: bool
    var conversationId: Option<string>

    function View(): ChatView
      reads this
    {
      ChatView(messages, isLoading, conversationId)
    }

    /** The hook's initial state. */
    constructor()
      ensures View() == ChatView([], false, None)
    {
      messages := [];
      isLoading := false;
      conversationId := None;
    }

    /** The body of the inner `for` loop: one complete block. */
    method HandleBlock(line: string, assistantContent: string, ghost buffer: string)
      returns (content: string, error: Option<string>)
      modifies this
      ensures Progress(buffer, content, messages, conversationId, error)
              == StepBlock(Progress(buffer, assistantContent, old(messages), old(conversationId), None), line)
      ensures isLoading == old(isLoading)
    {
      content := assistantContent;
      error := None;
      if StartsWith(line, NewConversationEvent) {
        var lines := SplitOn(line, LineBreak);
        if |lines| >= 2 && StartsWith(lines[1], DataPrefix) {
          conversationId := Some(Strip(ReplaceFirst(lines[1], DataPrefix, ""), IsJsSpace));
        }
      } else if StartsWith(line, DataPrefix) {
        var data := ReplaceFirst(line, DataPrefix, "");
        if data != DoneMarker {
          var text := UnescapeNewlines(data);
          content := content + text;
          if |messages| > 0 {
            messages := messages[|messages| - 1 := ChatMessage(Assistant, content)];
          }
        }
      } else if StartsWith(line, ErrorEvent) {
        var lines := SplitOn(line, LineBreak);
        var e := if |lines| >= 2 then ReplaceFirst(lines[1], DataPrefix, "") else "";
        error := Some(if e == "" then UnknownError else e);
      }
    }

    /** The inner `for` loop: the complete blocks of one chunk, until one throws. */
    method ReadBlocks(complete: seq<string>, assistantContent: string, ghost buffer: string)
      returns (content: string, error: Option<string>)
      modifies this
      ensures Progress(buffer, content, messages, conversationId, error)
              == StepBlocks(Progress(buffer, assistantContent, old(messages), old(conversationId), None), complete)
      ensures isLoading == old(isLoading)
    {
      ghost var split := Progress(buffer, assistantContent, messages, conversationId, None);
      content := assistantContent;
      error := None;
      var j := 0;
      while j < |complete| && error.None?
        invariant 0 <= j <= |complete|
        invariant Progress(buffer, content, messages, conversationId, error) == StepBlocks(split, complete[..j])
        invariant isLoading == old(isLoading)
      {
        assert complete[..j + 1][..j] == complete[..j];
        content, error := HandleBlock(complete[j], content, buffer);
        j := j + 1;
      }
      if error.Some? {
        StepBlocksStopped(split, complete, j);
      } else {
        assert complete[..j] == complete;
      }
    }

    /** The read loop: chunk by chunk until the stream ends or a block throws. */
    method ReadStream(chunks: seq<string>) returns (error: Option<string>)
      modifies this
      ensures var p := StepChunks(Progress("", "", old(messages), old(conversationId), None), chunks);
        messages == p.messages && conversationId == p.conversationId && error == p.error
      ensures isLoading == old(isLoading)
    {
      ghost var start := Progress("", "", messages, conversationId, None);
      var assistantContent := "";
      var buffer := "";
      error := None;
      var i := 0;
      while i < |chunks| && error.None?
        invariant 0 <= i <= |chunks|
        invariant Progress(buffer, assistantContent, messages, conversationId, error) == StepChunks(start, chunks[..i])
        invariant isLoading == old(isLoading)
      {
        ghost var before := Progress(buffer, assistantContent, messages, conversationId, error);
        assert chunks[..i + 1][..i] == chunks[..i];
        assert StepChunks(start, chunks[..i + 1]) == StepChunk(before, chunks[i]);
        buffer := buffer + chunks[i];
        var lines := SplitOn(buffer, BlockSeparator);
        buffer := lines[|lines| - 1];
        assistantContent, error := ReadBlocks(lines[..|lines| - 1], assistantContent, buffer);
        i := i + 1;
      }
      if error.Some? {
        StepChunksStopped(start, chunks, i);
      } else {
        assert chunks[..i] == chunks;
      }
    }

    /** The `try` block of `sendMessage` after the request: the response checks, then
        the read; the exception thrown, if any, is returned. */
    method Receive(response: Response) returns (thrown: Option<Thrown>)
      modifies this
      ensures Exchange(messages, conversationId, thrown) == ExchangeOf(old(messages), old(conversationId), response)
      ensures isLoading == old(isLoading)
    {
      thrown := None;
      if response.RequestFailed? {
        thrown := Some(response.thrown);
      } else if !response.hasBody {
        thrown := Some(ErrorObject(NoBodyError));
      } else if response.status == 401 {
        thrown := Some(ErrorObject(UnauthorizedError));
      } else if !response.ok {
        thrown := Some(ErrorObject(ApiErrorPrefix + response.statusText));
      } else {
        var error := ReadStream(response.chunks);
        if error.Some? {
          thrown := Some(ErrorObject(error.value));
        } else if response.end.ReadFailed? {
          thrown := Some(response.end.thrown);
        }
      }
    }

    /** `sendMessage`. Without a token the user's message and the sign-in reply are
        appended and no request is made. Otherwise the user's message and an empty
        assistant placeholder are appended, the request goes out, the reply is read
        into the placeholder, any exception replaces the last message with its error
        text, and loading ends. */
    method SendMessage(content: string, mode: ChatStore.Mode, articleId: Option<int>,
                       token: Option<string>, api: ChatRequest -> Response)
      modifies this
      ensures View() == AfterSend(old(View()), content, mode, articleId, token, api)
    {
      if !Truthy(token) {
        messages := messages + [ChatMessage(User, content)];
        messages := messages + [ChatMessage(Assistant, SignInReply)];
        return;
      }
      ghost var before := View();
      isLoading := true;
      messages := messages + [ChatMessage(User, content)];
      messages := messages + [ChatMessage(Assistant, "")];
      assert messages == before.messages + [ChatMessage(User, content), ChatMessage(Assistant, "")];
      var response := api(RequestFor(content, mode, articleId, conversationId));
      var thrown := Receive(response);
      if thrown.Some? {
        var kept := if messages == [] then [] else messages[..|messages| - 1];
        messages := kept + [ErrorReply(thrown.value)];
      }
      isLoading := false;
    }

    /** `resetChat`: no messages and no conversation; loading is untouched. */
    method ResetChat()
      modifies this
      ensures View() == ChatView([], old(isLoading), None)
    {
      messages := [];
      conversationId := None;
    }
  }

  /** After a block throws, later blocks change nothing. */
  lemma {:induction false} ErrorStops(q: Progress, blocks: seq<string>)
    requires q.error.Some?
    ensures StepBlocks(q, blocks) == q
    decreases |blocks|
  {
    if blocks != [] {
      ErrorStops(q, blocks[..|blocks| - 1]);
    }
  }

  /** Processing two runs of blocks is processing their concatenation. */
  lemma {:induction false} StepBlocksAppend(p: Progress, a: seq<string>, b: seq<string>)
    ensures StepBlocks(p, a + b) == StepBlocks(StepBlocks(p, a), b)
    decreases |b|
  {
    if b == [] {
      assert a + b == a;
    } else {
      assert (a + b)[..|a + b| - 1] == a + b[..|b| - 1];
      StepBlocksAppend(p, a, b[..|b| - 1]);
    }
  }

  lemma StepBlocksStopped(p: Progress, blocks: seq<string>, k: nat)
    requires k <= |blocks| && StepBlocks(p, blocks[..k]).error.Some?
    ensures StepBlocks(p, blocks) == StepBlocks(p, blocks[..k])
  {
    assert blocks == blocks[..k] + blocks[k..];
    StepBlocksAppend(p, blocks[..k], blocks[k..]);
    ErrorStops(StepBlocks(p, blocks[..k]), blocks[k..]);
  }

  lemma {:induction false} StepChunksStopped(p: Progress, chunks: seq<string>, k: nat)
    requires k <= |chunks| && StepChunks(p, chunks[..k]).error.Some?
    ensures StepChunks(p, chunks) == StepChunks(p, chunks[..k])
    decreases |chunks|
  {
    if k < |chunks| {
      var init := chunks[..|chunks| - 1];
      assert init[..k] == chunks[..k];
      StepChunksStopped(p, init, k);
    } else {
      assert chunks[..k] == chunks;
    }
  }

  /** The blocks never look at the buffer nor change it. */
  lemma {:induction false} StepBlocksBuffer(p: Progress, blocks: seq<string>, buffer: string)
    ensures StepBlocks(p.(buffer := buffer), blocks) == StepBlocks(p, blocks).(buffer := buffer)
    ensures StepBlocks(p, blocks).buffer == p.buffer
    decreases |blocks|
  {
    if blocks != [] {
      StepBlocksBuffer(p, blocks[..|blocks| - 1], buffer);
    }
  }

  /** A `data: [DONE]` block contributes nothing. */
  lemma DoneBlockIgnored(p: Progress)
    ensures StepBlock(p, DataPrefix + DoneMarker) == p
  {
    var block := DataPrefix + DoneMarker;
    assert block[0] == 'd';
    assert !StartsWith(block, NewConversationEvent);
  }

  /** Any other data block appends its payload, escapes turned into line breaks, to
      the answer, and shows the answer in the last message. */
  lemma DataBlockAppends(p: Progress, x: string)
    requires x != DoneMarker
    ensures var q := StepBlock(p, DataPrefix + x);
      && q.content == p.content + UnescapeNewlines(x)
      && q.messages == ReplaceLast(p.messages, ChatMessage(Assistant, q.content))
      && q.conversationId == p.conversationId && q.error == p.error && q.buffer == p.buffer
  {
    var block := DataPrefix + x;
    assert block[0] == 'd';
    assert !StartsWith(block, NewConversationEvent);
    assert StartsWith(block, DataPrefix);
    assert ReplaceFirst(block, DataPrefix, "") == x;
  }

  predicate SingleLine(s: string) {
    forall j :: 0 <= j < |s| ==> s[j] != '\n'
  }

  /** The second line of an event block written as `<event>\ndata: <x>`. */
  lemma EventDataLine(event: string, x: string)
    requires SingleLine(event) && SingleLine(x)
    ensures SecondLine(event + LineBreak + DataPrefix + x) == Some(DataPrefix + x)
  {
    forall j: nat | j < |event| ensures !OccursAt(event + LineBreak, LineBreak, j) {
      assert (event + LineBreak)[j..j + 1] == [event[j]];
    }
    SplitOnFirst(event, LineBreak, DataPrefix + x);
    assert SingleLine(DataPrefix + x);
    WithoutCharNotContained(DataPrefix + x, '\n');
    SplitWithoutSeparator(DataPrefix + x, LineBreak);
    assert event + LineBreak + DataPrefix + x == event + LineBreak + (DataPrefix + x);
  }

  /** A `new_conversation` event sets the conversation id to its data, trimmed, and
      changes nothing else. */
  lemma NewConversationBlock(p: Progress, x: string)
    requires SingleLine(x)
    ensures StepBlock(p, NewConversationEvent + LineBreak + DataPrefix + x)
            == p.(conversationId := Some(Strip(x, IsJsSpace)))
  {
    var block := NewConversationEvent + LineBreak + DataPrefix + x;
    assert SingleLine(NewConversationEvent);
    EventDataLine(NewConversationEvent, x);
    assert block[..|NewConversationEvent|] == NewConversationEvent;
    assert ReplaceFirst(DataPrefix + x, DataPrefix, "") == x;
  }

  /** An `error` event throws its data as the message, or "Unknown error" when the
      data is empty. */
  lemma ErrorBlock(p: Progress, m: string)
    requires SingleLine(m)
    ensures StepBlock(p, ErrorEvent + LineBreak + DataPrefix + m)
            == p.(error := Some(if m == "" then UnknownError else m))
  {
    var block := ErrorEvent + LineBreak + DataPrefix + m;
    assert SingleLine(ErrorEvent);
    EventDataLine(ErrorEvent, m);
    assert block[7] == 'e';
    assert !StartsWith(block, NewConversationEvent);
    assert block[0] == 'e';
    assert !StartsWith(block, DataPrefix);
    assert block[..|ErrorEvent|] == ErrorEvent;
    assert ReplaceFirst(DataPrefix + m, DataPrefix, "") == m;
  }

  /** An `error` event without a data line throws "Unknown error". */
  lemma BareErrorBlock(p: Progress)
    ensures StepBlock(p, ErrorEvent) == p.(error := Some(UnknownError))
  {
    ErrorEventHasOneLine();
    assert ErrorEvent[0] != DataPrefix[0];
    assert StartsWith(ErrorEvent, ErrorEvent) by {
      assert ErrorEvent[..|ErrorEvent|] == ErrorEvent;
    }
  }

  lemma ErrorEventHasOneLine()
    ensures SecondLine(ErrorEvent).None?
  {
    WithoutCharNotContained(ErrorEvent, '\n');
    SplitWithoutSeparator(ErrorEvent, LineBreak);
  }

  /** The last message shows the answer read so far. */
  predicate ShowsAnswer(p: Progress) {
    p.messages != [] && p.messages[|p.messages| - 1] == ChatMessage(Assistant, p.content)
  }

  /** A block never changes the number of messages nor any but the last, and keeps the
      answer shown in the last one. */
  lemma StepBlockKeepsEarlier(p: Progress, block: string)
    requires p.messages != []
    ensures var q := StepBlock(p, block);
      |q.messages| == |p.messages| && q.messages[..|p.messages| - 1] == p.messages[..|p.messages| - 1]
      && (ShowsAnswer(p) ==> ShowsAnswer(q))
  {
  }

  lemma {:induction false} StepBlocksKeepEarlier(p: Progress, blocks: seq<string>)
    requires p.messages != []
    ensures var q := StepBlocks(p, blocks);
      |q.messages| == |p.messages| && q.messages[..|p.messages| - 1] == p.messages[..|p.messages| - 1]
      && (ShowsAnswer(p) ==> ShowsAnswer(q))
    decreases |blocks|
  {
    if blocks != [] {
      var init := blocks[..|blocks| - 1];
      StepBlocksKeepEarlier(p, init);
      StepBlockKeepsEarlier(StepBlocks(p, init), blocks[|blocks| - 1]);
    }
  }

  /** Reading the stream changes neither the number of messages nor any but the last,
      and the last one always shows the answer read so far. */
  lemma {:induction false} StepChunksKeepEarlier(p: Progress, chunks: seq<string>)
    requires p.messages != []
    ensures var q := StepChunks(p, chunks);
      |q.messages| == |p.messages| && q.messages[..|p.messages| - 1] == p.messages[..|p.messages| - 1]
      && (ShowsAnswer(p) ==> ShowsAnswer(q))
    decreases |chunks|
  {
    if chunks != [] {
      var init := chunks[..|chunks| - 1];
      StepChunksKeepEarlier(p, init);
      var q := StepChunks(p, init);
      var text := q.buffer + chunks[|chunks| - 1];
      StepBlocksKeepEarlier(q.(buffer := LastPiece(text, BlockSeparator)), CompletePieces(text, BlockSeparator));
    }
  }

  /** After every chunk the buffer holds no blank line: every complete block has been
      taken out of it. */
  lemma {:induction false} BufferHasNoSeparator(p: Progress, chunks: seq<string>)
    requires !Contains(p.buffer, BlockSeparator)
    ensures !Contains(StepChunks(p, chunks).buffer, BlockSeparator)
    decreases |chunks|
  {
    if chunks != [] {
      var init := chunks[..|chunks| - 1];
      BufferHasNoSeparator(p, init);
      var q := StepChunks(p, init);
      if q.error.None? {
        var text := q.buffer + chunks[|chunks| - 1];
        SplitLastHasNoSeparator(text, BlockSeparator);
        StepBlocksBuffer(q.(buffer := LastPiece(text, BlockSeparator)), CompletePieces(text, BlockSeparator), "");
      }
    }
  }

  /** All the text received, chunk after chunk. */
  function Concat(chunks: seq<string>): string
    decreases |chunks|
  {
    if chunks == [] then "" else Concat(chunks[..|chunks| - 1]) + chunks[|chunks| - 1]
  }

  lemma PiecesOfSplit(t: string, u: string, a: seq<string>)
    requires SplitOn(t, BlockSeparator) == a + SplitOn(u, BlockSeparator)
    ensures CompletePieces(t, BlockSeparator) == a + CompletePieces(u, BlockSeparator)
    ensures LastPiece(t, BlockSeparator) == LastPiece(u, BlockSeparator)
  {
    var pu := SplitOn(u, BlockSeparator);
    assert (a + pu)[..|a + pu| - 1] == a + pu[..|pu| - 1];
  }

  /** The pieces of the text after one more chunk. */
  lemma SplitOneMore(text0: string, c: string)
    ensures var u := LastPiece(text0, BlockSeparator);
      && CompletePieces(text0 + c, BlockSeparator) == CompletePieces(text0, BlockSeparator) + CompletePieces(u + c, BlockSeparator)
      && LastPiece(text0 + c, BlockSeparator) == LastPiece(u + c, BlockSeparator)
  {
    SplitOnline(text0, c, BlockSeparator);
    PiecesOfSplit(text0 + c, LastPiece(text0, BlockSeparator) + c, CompletePieces(text0, BlockSeparator));
  }

  /** The claim of `ReadIsCompleteBlocks` about the state `q` a read reaches from `p`
      on the text `text`. */
  predicate ReadClaim(p: Progress, q: Progress, text: string) {
    && q.(buffer := p.buffer) == StepBlocks(p, CompletePieces(text, BlockSeparator))
    && (q.error.None? ==> q.buffer == LastPiece(text, BlockSeparator))
  }

  /** One more chunk, given the claim for the chunks before it. */
  lemma ReadIsCompleteBlocksStep(p: Progress, init: seq<string>, c: string)
    requires ReadClaim(p, StepChunks(p, init), p.buffer + Concat(init))
    ensures ReadClaim(p, StepChunks(p, init + [c]), p.buffer + Concat(init + [c]))
  {
    StepChunksSnoc(p, init, c);
    ConcatSnoc(p.buffer, init, c);
    ReadOneChunk(p, StepChunks(p, init), p.buffer + Concat(init), c);
  }

  lemma StepChunksSnoc(p: Progress, init: seq<string>, c: string)
    ensures var q0 := StepChunks(p, init);
      StepChunks(p, init + [c]) == if q0.error.Some? then q0 else StepChunk(q0, c)
  {
    var chunks := init + [c];
    assert chunks[..|chunks| - 1] == init;
  }

  lemma ConcatSnoc(buffer: string, init: seq<string>, c: string)
    ensures buffer + Concat(init + [c]) == buffer + Concat(init) + c
  {
    var chunks := init + [c];
    assert chunks[..|chunks| - 1] == init;
  }

  lemma ReadOneChunk(p: Progress, q0: Progress, text0: string, c: string)
    requires ReadClaim(p, q0, text0)
    ensures ReadClaim(p, if q0.error.Some? then q0 else StepChunk(q0, c), text0 + c)
  {
    if q0.error.Some? {
      ReadErroredChunk(p, q0, text0, c);
    } else {
      ReadCleanChunk(p, q0, text0, c);
    }
  }

  /** One more chunk after a block threw: nothing more is processed. */
  lemma ReadErroredChunk(p: Progress, q0: Progress, text0: string, c: string)
    requires q0.error.Some?
    requires q0.(buffer := p.buffer) == StepBlocks(p, CompletePieces(text0, BlockSeparator))
    ensures q0.(buffer := p.buffer) == StepBlocks(p, CompletePieces(text0 + c, BlockSeparator))
  {
    SplitOneMore(text0, c);
    ErroredChunk(p, q0, CompletePieces(text0, BlockSeparator), CompletePieces(LastPiece(text0, BlockSeparator) + c, BlockSeparator));
  }

  /** One more chunk after chunks that threw nothing. */
  lemma ReadCleanChunk(p: Progress, q0: Progress, text0: string, c: string)
    requires q0.error.None?
    requires q0.(buffer := p.buffer) == StepBlocks(p, CompletePieces(text0, BlockSeparator))
    requires q0.buffer == LastPiece(text0, BlockSeparator)
    ensures StepChunk(q0, c).(buffer := p.buffer) == StepBlocks(p, CompletePieces(text0 + c, BlockSeparator))
    ensures StepChunk(q0, c).error.None? ==> StepChunk(q0, c).buffer == LastPiece(text0 + c, BlockSeparator)
  {
    SplitOneMore(text0, c);
    CleanChunk(p, q0, c, CompletePieces(text0, BlockSeparator), CompletePieces(text0 + c, BlockSeparator));
  }

  lemma ErroredChunk(p: Progress, q0: Progress, before: seq<string>, rest: seq<string>)
    requires q0.error.Some?
    requires q0.(buffer := p.buffer) == StepBlocks(p, before)
    ensures q0.(buffer := p.buffer) == StepBlocks(p, before + rest)
  {
    StepBlocksAppend(p, before, rest);
    ErrorStops(q0.(buffer := p.buffer), rest);
  }

  lemma CleanChunk(p: Progress, q0: Progress, c: string, before: seq<string>, all: seq<string>)
    requires q0.error.None?
    requires q0.(buffer := p.buffer) == StepBlocks(p, before)
    requires all == before + CompletePieces(q0.buffer + c, BlockSeparator)
    ensures StepChunk(q0, c).(buffer := p.buffer) == StepBlocks(p, all)
    ensures StepChunk(q0, c).error.None? ==> StepChunk(q0, c).buffer == LastPiece(q0.buffer + c, BlockSeparator)
  {
    var text := q0.buffer + c;
    var rest := CompletePieces(text, BlockSeparator);
    var start := q0.(buffer := LastPiece(text, BlockSeparator));
    StepBlocksBuffer(start, rest, p.buffer);
    assert start.(buffer := p.buffer) == q0.(buffer := p.buffer);
    StepBlocksAppend(p, before, rest);
  }

  /** However the stream is cut into chunks, the read processes exactly the complete
      blocks of all the text received, in order, up to the first that throws; when
      none throws, the buffer ends holding the unfinished last block, which is never
      processed. */
  lemma {:induction false} ReadIsCompleteBlocks(p: Progress, chunks: seq<string>)
    requires !Contains(p.buffer, BlockSeparator)
    ensures var text := p.buffer + Concat(chunks);
      var q := StepChunks(p, chunks);
      && q.(buffer := p.buffer) == StepBlocks(p, CompletePieces(text, BlockSeparator))
      && (q.error.None? ==> q.buffer == LastPiece(text, BlockSeparator))
    decreases |chunks|
  {
    if chunks == [] {
      SplitWithoutSeparator(p.buffer, BlockSeparator);
      assert p.buffer + Concat(chunks) == p.buffer;
    } else {
      var init := chunks[..|chunks| - 1];
      ReadIsCompleteBlocks(p, init);
      ReadIsCompleteBlocksStep(p, init, chunks[|chunks| - 1]);
      assert chunks == init + [chunks[|chunks| - 1]];
    }
  }

  // ---------------------------------------------------------------------------
  // The answer shown, and what sending leaves.

  /** The answer text one block contributes: the payload after `data: ` of a data
      block other than `[DONE]`, escapes turned into line breaks; nothing for any
      other block. */
  function Payload(block: string): string {
    if !StartsWith(block, NewConversationEvent) && StartsWith(block, DataPrefix)
       && block[|DataPrefix|..] != DoneMarker
    then UnescapeNewlines(block[|DataPrefix|..])
    else ""
  }

  /** The payloads of the blocks, in order. */
  function Payloads(blocks: seq<string>): string
    decreases |blocks|
  {
    if blocks == [] then "" else Payloads(blocks[..|blocks| - 1]) + Payload(blocks[|blocks| - 1])
  }

  /** A block that throws nothing adds exactly its payload to the answer. */
  lemma StepBlockPayload(q: Progress, block: string)
    ensures StepBlock(q, block).error.None? ==> StepBlock(q, block).content == q.content + Payload(block)
  {
    if !StartsWith(block, NewConversationEvent) && StartsWith(block, DataPrefix) {
      assert ReplaceFirst(block, DataPrefix, "") == block[|DataPrefix|..];
    }
  }

  /** When no block throws, the answer is what it was followed by the payloads of the
      blocks, in order. */
  lemma {:induction false} AnswerIsPayloads(p: Progress, blocks: seq<string>)
    ensures StepBlocks(p, blocks).error.None? ==> StepBlocks(p, blocks).content == p.content + Payloads(blocks)
    decreases |blocks|
  {
    if blocks != [] {
      var init := blocks[..|blocks| - 1];
      AnswerIsPayloads(p, init);
      StepBlockPayload(StepBlocks(p, init), blocks[|blocks| - 1]);
    }
  }

  /** The read from the empty buffer with an empty assistant placeholder last: when no
      block throws, the placeholder ends holding the payloads of the complete blocks of
      all the text received, and the messages before it are untouched. */
  lemma ReplyIsStreamedAnswer(messages: seq<ChatMessage>, conversationId: Option<string>, chunks: seq<string>)
    requires messages != [] && messages[|messages| - 1] == ChatMessage(Assistant, "")
    ensures var q := StepChunks(Progress("", "", messages, conversationId, None), chunks);
      && |q.messages| == |messages| && q.messages[..|messages| - 1] == messages[..|messages| - 1]
      && (q.error.None? ==>
            q.messages[|messages| - 1] == ChatMessage(Assistant, Payloads(CompletePieces(Concat(chunks), BlockSeparator))))
  {
    var p := Progress("", "", messages, conversationId, None);
    var q := StepChunks(p, chunks);
    assert !Contains(p.buffer, BlockSeparator);
    ReadIsCompleteBlocks(p, chunks);
    assert "" + Concat(chunks) == Concat(chunks);
    StepChunksKeepEarlier(p, chunks);
    AnswerIsPayloads(p, CompletePieces(Concat(chunks), BlockSeparator));
  }

  /** However the text is cut into chunks, the read ends with the same answer,
      messages, conversation id and error; when no block throws, with the same
      unfinished text too. */
  lemma ChunkingDoesNotMatter(p: Progress, cs1: seq<string>, cs2: seq<string>)
    requires !Contains(p.buffer, BlockSeparator) && Concat(cs1) == Concat(cs2)
    ensures var q1, q2 := StepChunks(p, cs1), StepChunks(p, cs2);
      && q1.content == q2.content && q1.messages == q2.messages
      && q1.conversationId == q2.conversationId && q1.error == q2.error
      && (q1.error.None? ==> q1.buffer == q2.buffer)
  {
    ReadIsCompleteBlocks(p, cs1);
    ReadIsCompleteBlocks(p, cs2);
  }

  /** Without a token the reply is the sign-in message, whatever the server would have
      answered: no request is made, and loading and the conversation are untouched. */
  lemma SignedOutMakesNoRequest(v: ChatView, content: string, mode: ChatStore.Mode, articleId: Option<int>,
                                token: Option<string>, api1: ChatRequest -> Response, api2: ChatRequest -> Response)
    requires !Truthy(token)
    ensures AfterSend(v, content, mode, articleId, token, api1) == AfterSend(v, content, mode, articleId, token, api2)
    ensures AfterSend(v, content, mode, articleId, token, api1)
            == v.(messages := v.messages + [ChatMessage(User, content), ChatMessage(Assistant, SignInReply)])
  {
  }

  /** With a token, sending adds exactly two messages, the user's and an assistant
      reply, leaves the earlier ones alone and ends loading. The reply is the
      streamed answer when every check and block passes and the body is read to its
      end, and an error text otherwise. */
  lemma SendAddsExchange(v: ChatView, content: string, mode: ChatStore.Mode, articleId: Option<int>,
                         token: Option<string>, api: ChatRequest -> Response)
    requires Truthy(token)
    ensures var w := AfterSend(v, content, mode, articleId, token, api);
      && |w.messages| == |v.messages| + 2
      && w.messages[..|v.messages| + 1] == v.messages + [ChatMessage(User, content)]
      && w.messages[|v.messages| + 1].role == Assistant
      && !w.isLoading
    ensures var w := AfterSend(v, content, mode, articleId, token, api);
      var r := api(RequestFor(content, mode, articleId, v.conversationId));
      var placed := v.messages + [ChatMessage(User, content), ChatMessage(Assistant, "")];
      var q := if r.Response? then StepChunks(Progress("", "", placed, v.conversationId, None), r.chunks) else Progress("", "", [], None, None);
      if r.Response? && ResponseCheck(r).None? && q.error.None? && r.end.Done? then
        w.messages[|v.messages| + 1].content == Payloads(CompletePieces(Concat(r.chunks), BlockSeparator))
        && w.conversationId == q.conversationId
      else StartsWith(w.messages[|v.messages| + 1].content, ErrorPrefix)
  {
    var r := api(RequestFor(content, mode, articleId, v.conversationId));
    var placed := v.messages + [ChatMessage(User, content), ChatMessage(Assistant, "")];
    assert placed[..|placed| - 1] == v.messages + [ChatMessage(User, content)];
    ExchangeOfPlaced(placed, v.conversationId, r);
  }

  /** The exchange that follows the placeholder: the messages before it are kept, and
      it ends without an exception exactly when every check and block passes and the
      body is read to its end, holding then the streamed answer. */
  lemma ExchangeOfPlaced(placed: seq<ChatMessage>, conversationId: Option<string>, r: Response)
    requires placed != [] && placed[|placed| - 1] == ChatMessage(Assistant, "")
    ensures var x := ExchangeOf(placed, conversationId, r);
      |x.messages| == |placed| && x.messages[..|placed| - 1] == placed[..|placed| - 1]
    ensures var x := ExchangeOf(placed, conversationId, r);
      var q := if r.Response? then StepChunks(Progress("", "", placed, conversationId, None), r.chunks) else Progress("", "", [], None, None);
      && (x.thrown.None? <==> r.Response? && ResponseCheck(r).None? && q.error.None? && r.end.Done?)
      && (x.thrown.None? ==>
            x.messages[|placed| - 1] == ChatMessage(Assistant, Payloads(CompletePieces(Concat(r.chunks), BlockSeparator)))
            && x.conversationId == q.conversationId)
  {
    if r.Response? && ResponseCheck(r).None? {
      ReplyIsStreamedAnswer(placed, conversationId, r.chunks);
    }
  }
}
