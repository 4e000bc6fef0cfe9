/** The client's chat panel store: whether the panel is open, in which mode, and
    for which article. */
module ChatStore {
  import opened Wrappers

  datatype Mode = Global | Article

  /** The store's fields as one value. */
  datatype ChatState = ChatState(isOpen: bool, mode: Mode, articleId: Option<int>, articleTitle: Option<string>)

  /** Closed, global, no article. */
  const InitialState := ChatState(false, Global, None, None)

  /** The state `openChat(mode, articleId, articleTitle)` sets. */
  function Opened(s: ChatState, mode: Mode, articleId: Option<int>, articleTitle: Option<string>): ChatState {
    ChatState(true, mode, articleId, articleTitle)
  }

  /** The state `closeChat()` sets: closed, article forgotten, mode kept. */
  function Closed(s: ChatState): ChatState {
    s.(isOpen := false, articleId := None, articleTitle := None)
  }

  /** Opening sets every field from its arguments, whatever the state before. */
  lemma OpenForgetsPrior(s1: ChatState, s2: ChatState, mode: Mode, articleId: Option<int>, articleTitle: Option<string>)
    ensures Opened(s1, mode, articleId, articleTitle) == Opened(s2, mode, articleId, articleTitle)
    ensures Opened(s1, mode, articleId, articleTitle).isOpen
  {
  }

  /** Closing twice is closing once; closing keeps the mode. */
  lemma CloseIdempotent(s: ChatState)
    ensures Closed(Closed(s)) == Closed(s)
    ensures Closed(s).mode == s.mode && !Closed(s).isOpen
  {
  }

  /** Closing after opening leaves the mode that was opened and nothing else. */
  lemma OpenThenClose(s: ChatState, mode: Mode, articleId: Option<int>, articleTitle: Option<string>)
    ensures Closed(Opened(s, mode, articleId, articleTitle)) == ChatState(false, mode, None, None)
  {
  }

  class ChatStore {
    var isOpen: bool
    var mode: Mode
    var articleId: Option<int>
    var articleTitle: Option<string>

    function State(): ChatState
      reads this
    {
      ChatState(isOpen, mode, articleId, articleTitle)
    }

    /** The store's initial fields. */
    constructor()
      ensures State() == InitialState
    {
      isOpen := false;
      mode := Global;
      articleId := None;
      articleTitle := None;
    }

    /** `openChat`. */
    method OpenChat(mode: Mode, articleId: Option<int>, articleTitle: Option<string>)
      modifies this
      ensures State() == Opened(old(State()), mode, articleId, articleTitle)
    {
      isOpen := true;
      this.mode := mode;
      this.articleId := articleId;
      this.articleTitle := articleTitle;
    }

    /** `closeChat`. */
    method CloseChat()
      modifies this
      ensures State() == Closed(old(State()))
    {
      isOpen := false;
      articleId := None;
      articleTitle := None;
    }
  }
}
