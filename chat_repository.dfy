/** The chat repository: conversations and messages in the database, and a per-
    conversation message cache kept as Redis lists under `chat:<conversation id>`.
    The database is a parameter (the outcome of each query); the cache is the
    state of a `ChatRepository` object. */
module ChatRepository {
  import opened Wrappers
  import opened Text

  /** A message: its role and content, and the row's other columns (id, conversation
      id, creation time) when it comes from the database. */
  datatype Message = Message(role: string, content: string, otherColumns: map<string, string>)

  /** What the cache keeps of a message: `{"role": ..., "content": ...}`. */
  function Cached(m: Message): Message {
    Message(m.role, m.content, map[])
  }

  function CachedAll(ms: seq<Message>): (cs: seq<Message>)
    ensures |cs| == |ms|
    ensures forall i :: 0 <= i < |ms| ==> cs[i] == Cached(ms[i])
  {
    seq(|ms|, i requires 0 <= i < |ms| => Cached(ms[i]))
  }

  /** The outcome of a database write: done, or an exception. */
  datatype Write = Written | WriteRaised

  /** The outcome of a database read: the rows (`result.data or []`), or an exception. */
  datatype Read<T> = Rows(data: seq<T>) | ReadRaised

  const CachePrefix := "chat:"

  /** The cache key of a conversation. */
  function CacheKey(conversationId: string): (key: string)
    ensures StartsWith(key, CachePrefix) && key[|CachePrefix|..] == conversationId
  {
    CachePrefix + conversationId
  }

  /** Distinct conversations never share a cache list. */
  lemma CacheKeyInjective(a: string, b: string)
    requires CacheKey(a) == CacheKey(b)
    ensures a == b
  {
    assert CacheKey(a)[|CachePrefix|..] == a;
  }

  /** The sequence in the opposite order. */
  function Reversed<T>(s: seq<T>): (r: seq<T>)
    ensures |r| == |s|
    decreases |s|
  {
    if s == [] then [] else Reversed(s[1..]) + [s[0]]
  }

  /** The i-th element of the reversal is the i-th from the end of the original. */
  lemma {:induction false} ReversedIndex<T>(s: seq<T>, i: nat)
    requires i < |s|
    ensures Reversed(s)[i] == s[|s| - 1 - i]
    decreases |s|
  {
    if i < |s| - 1 {
      ReversedIndex(s[1..], i);
    }
  }

  /** Reversing twice gives back the original order. */
  lemma ReversedInvolution<T>(s: seq<T>)
    ensures Reversed(Reversed(s)) == s
  {
    forall i | 0 <= i < |s| ensures Reversed(Reversed(s))[i] == s[i] {
      ReversedIndex(Reversed(s), i);
      ReversedIndex(s, |s| - 1 - i);
    }
  }

  /** `list.reverse()`: reverses the rows in place. */
  method ReverseInPlace<T>(a: array<T>)
    modifies a
    ensures a[..] == Reversed(old(a[..]))
  {
    var n := a.Length;
    var i := 0;
    while i < n / 2
      invariant 0 <= i <= n / 2
      invariant forall k :: 0 <= k < i ==> a[k] == old(a[n - 1 - k]) && a[n - 1 - k] == old(a[k])
      invariant forall k :: i <= k < n - i ==> a[k] == old(a[k])
    {
      a[i], a[n - 1 - i] := a[n - 1 - i], a[i];
      i := i + 1;
    }
    forall k | 0 <= k < n ensures a[..][k] == Reversed(old(a[..]))[k] {
      ReversedIndex(old(a[..]), k);
    }
  }

  /** What a cache hit returns: the cached list, cut to its last `limit` entries when it
      is longer (`messages[-limit:]`). As in Python, a limit of 0 keeps every entry
      and a negative limit drops that many entries from the front. */
  function TrimToLimit(l: seq<Message>, limit: int): (r: seq<Message>)
    ensures limit > 0 ==> |r| == (if |l| <= limit then |l| else limit) && r == l[|l| - |r|..]
    ensures limit == 0 ==> r == l
    ensures limit < 0 ==> r == (if -limit <= |l| then l[-limit..] else [])
  {
    if |l| > limit then SliceFrom(l, -limit) else l
  }

  /** With a positive limit the newest entry is always returned, last. */
  lemma TrimKeepsNewest(l: seq<Message>, limit: int)
    requires l != [] && limit > 0
    ensures var r := TrimToLimit(l, limit); r != [] && r[|r| - 1] == l[|l| - 1]
  {
    var r := TrimToLimit(l, limit);
    assert r == l[|l| - |r|..];
    assert r[|r| - 1] == l[|l| - |r|..][|r| - 1];
  }

  /** The database request of a cache miss: the rows of one conversation, ordered by
      creation time newest first, at most `limit` of them. */
  datatype MessageQuery = MessageQuery(conversationId: string, newestFirst: bool, limit: int)

  /** The request `get_messages` builds for a conversation and a limit. */
  function MessageQueryFor(conversationId: string, limit: int): (q: MessageQuery)
    ensures q.conversationId == conversationId && q.newestFirst && q.limit == limit
  {
    MessageQuery(conversationId, true, limit)
  }

  class ChatRepository {
    /** The Redis lists, by key. */
    var cache: map<string, seq<Message>>

    /** Redis drops a list together with its last entry: no key holds an empty list. */
    predicate Valid()
      reads this
    {
      forall k :: k in cache ==> cache[k] != []
    }

    /** `LRANGE key 0 -1`: the list under `key`, empty when the key is absent. */
    function CachedList(key: string): (l: seq<Message>)
      reads this
      ensures key in cache ==> l == cache[key]
      ensures key !in cache ==> l == []
      ensures Valid() ==> (l != [] <==> key in cache)
    {
      if key in cache then cache[key] else []
    }

    constructor()
      ensures Valid()
      ensures cache == map[]
    {
      cache := map[];
    }

    /** `add_message`: the row is inserted first; when that succeeds, exactly one
        `{role, content}` entry is pushed onto the end of the conversation's list
        and nothing else changes. A failed insert returns `false` and leaves the
        cache alone. */
    method AddMessage(conversationId: string, role: string, content: string, insert: Write) returns (ok: bool)
      requires Valid()
      modifies this
      ensures Valid()
      ensures ok <==> insert.Written?
      ensures ok ==> cache == old(cache)[CacheKey(conversationId) :=
                                old(CachedList(CacheKey(conversationId))) + [Message(role, content, map[])]]
      ensures !ok ==> cache == old(cache)
    {
      if insert.WriteRaised? {
        return false;
      }
      var key := CacheKey(conversationId);
      var entry := Message(role, content, map[]);
      cache := cache[key := CachedList(key) + [entry]];
      return true;
    }

    /** `get_messages`, with `db` the database's answer to a message query. A cache
        hit is answered from the cache, trimmed, and changes nothing. On a miss the
        database is asked for the conversation's newest `limit` rows, newest first;
        the rows are put in oldest-first order, the key is cleared and refilled with
        exactly those messages, and the full rows are returned. A miss with no rows
        or a failed query returns `[]` and leaves the cache alone. */
    method GetMessages(conversationId: string, limit: int, db: MessageQuery -> Read<Message>) returns (messages: seq<Message>)
      requires Valid()
      modifies this
      ensures Valid()
      ensures var key := CacheKey(conversationId);
        old(CachedList(key)) != [] ==> messages == TrimToLimit(old(CachedList(key)), limit) && cache == old(cache)
      ensures var key, query := CacheKey(conversationId), db(MessageQueryFor(conversationId, limit));
        old(CachedList(key)) == [] && (query.ReadRaised? || query.data == []) ==> messages == [] && cache == old(cache)
      ensures var key, query := CacheKey(conversationId), db(MessageQueryFor(conversationId, limit));
        old(CachedList(key)) == [] && query.Rows? && query.data != [] ==>
          messages == Reversed(query.data) && cache == old(cache)[key := CachedAll(Reversed(query.data))]
    {
      var key := CacheKey(conversationId);
      var cachedData := CachedList(key);
      if cachedData != [] {
        messages := cachedData;
        if |messages| > limit {
          messages := SliceFrom(messages, -limit);
        }
        return;
      }
      var query := db(MessageQueryFor(conversationId, limit));
      if query.ReadRaised? {
        return [];
      }
      var rows := query.data;
      if rows == [] {
        return [];
      }
      messages := Refill(key, rows);
    }

    /** The refill of a miss: the rows, newest first, are reversed in place, the key
        is cleared and the role and content of each are pushed, oldest first. */
    method Refill(key: string, rows: seq<Message>) returns (messages: seq<Message>)
      requires Valid() && rows != []
      modifies this
      ensures Valid()
      ensures messages == Reversed(rows)
      ensures cache == old(cache)[key := CachedAll(Reversed(rows))]
    {
      var a := new Message[|rows|](i requires 0 <= i < |rows| => rows[i]);
      assert a[..] == rows;
      ReverseInPlace(a);
      messages := a[..];
      var entries := CachedAll(messages);
      cache := cache - {key};
      assert CachedList(key) + entries == CachedAll(Reversed(rows));
      cache := cache[key := CachedList(key) + entries];
    }

    /** `add_message` as written: after the push, the expiry call reads
        `settings.redis_cache_expire_seconds`, a setting the settings class does not
        declare. The read raises `AttributeError`, the `except` catches it, and the
        method returns `false` although the row was inserted and the entry pushed. */
    method AddMessageAsWritten(conversationId: string, role: string, content: string, insert: Write) returns (ok: bool)
      requires Valid()
      modifies this
      ensures Valid()
      ensures !ok
      ensures insert.Written? ==> cache == old(cache)[CacheKey(conversationId) :=
                                         old(CachedList(CacheKey(conversationId))) + [Message(role, content, map[])]]
      ensures insert.WriteRaised? ==> cache == old(cache)
    {
      if insert.WriteRaised? {
        return false;
      }
      var key := CacheKey(conversationId);
      var entry := Message(role, content, map[]);
      cache := cache[key := CachedList(key) + [entry]];
      // the expiry setting is read here and raises
      return false;
    }

    /** `get_messages` as written: a miss with rows clears and refills the key, and
        the expiry call that follows reads the undeclared
        `settings.redis_cache_expire_seconds`; the `AttributeError` lands in the
        `except`, which returns `[]`. Hits and misses without rows are as in
        `GetMessages`. */
    method GetMessagesAsWritten(conversationId: string, limit: int, db: MessageQuery -> Read<Message>) returns (messages: seq<Message>)
      requires Valid()
      modifies this
      ensures Valid()
      ensures var key := CacheKey(conversationId);
        old(CachedList(key)) != [] ==> messages == TrimToLimit(old(CachedList(key)), limit) && cache == old(cache)
      ensures var key, query := CacheKey(conversationId), db(MessageQueryFor(conversationId, limit));
        old(CachedList(key)) == [] && (query.ReadRaised? || query.data == []) ==> messages == [] && cache == old(cache)
      ensures var key, query := CacheKey(conversationId), db(MessageQueryFor(conversationId, limit));
        old(CachedList(key)) == [] && query.Rows? && query.data != [] ==>
          messages == [] && cache == old(cache)[key := CachedAll(Reversed(query.data))]
    {
      var key := CacheKey(conversationId);
      var cachedData := CachedList(key);
      if cachedData != [] {
        messages := cachedData;
        if |messages| > limit {
          messages := SliceFrom(messages, -limit);
        }
        return;
      }
      var query := db(MessageQueryFor(conversationId, limit));
      if query.ReadRaised? {
        return [];
      }
      var rows := query.data;
      if rows == [] {
        return [];
      }
      var refilled := Refill(key, rows);
      // the expiry setting is read here and raises
      messages := [];
    }

    /** `delete_conversation`: the row is deleted first; when that succeeds, the
        conversation's cache key is removed and nothing else changes. A failed
        delete returns `false` and leaves the cache alone. */
    method DeleteConversation(conversationId: string, userId: string, delete: Write) returns (ok: bool)
      requires Valid()
      modifies this
      ensures Valid()
      ensures ok <==> delete.Written?
      ensures ok ==> cache == old(cache) - {CacheKey(conversationId)}
      ensures !ok ==> cache == old(cache)
    {
      if delete.WriteRaised? {
        return false;
      }
      cache := cache - {CacheKey(conversationId)};
      return true;
    }
  }

  /** A stored conversation. */
  datatype Conversation = Conversation(id: string, userId: string, articleId: Option<int>, title: Option<string>)

  /** The conversation listing query: the user, the article filter if any, and the
      inclusive row range, newest update first. */
  datatype ConversationQuery = ConversationQuery(userId: string, articleId: Option<int>, rangeFrom: int, rangeTo: int)

  /** The query of `get_user_conversations`: the article filter is applied exactly when
      the article id is truthy, and the inclusive range starts at `skip` and holds
      `limit` rows. */
  function ConversationQueryFor(userId: string, articleId: Option<int>, skip: int, limit: int): (q: ConversationQuery)
    ensures q.userId == userId
    ensures q.articleId.Some? <==> TruthyId(articleId)
    ensures q.articleId.Some? ==> q.articleId == articleId
    ensures q.rangeFrom == skip && q.rangeTo - q.rangeFrom + 1 == limit
  {
    ConversationQuery(userId, if TruthyId(articleId) then articleId else None, skip, skip + limit - 1)
  }

  /** Consecutive pages of the listing neither overlap nor leave a gap. */
  lemma ConversationPagesTile(userId: string, articleId: Option<int>, skip: int, limit: int)
    ensures ConversationQueryFor(userId, articleId, skip + limit, limit).rangeFrom
            == ConversationQueryFor(userId, articleId, skip, limit).rangeTo + 1
  {
  }

  /** `get_user_conversations`: the rows of the query, or `[]` when it fails. */
  function GetUserConversations(userId: string, articleId: Option<int>, skip: int, limit: int,
                                db: ConversationQuery -> Read<Conversation>): (r: seq<Conversation>)
    ensures db(ConversationQueryFor(userId, articleId, skip, limit)).ReadRaised? ==> r == []
    ensures db(ConversationQueryFor(userId, articleId, skip, limit)).Rows? ==>
              r == db(ConversationQueryFor(userId, articleId, skip, limit)).data
  {
    match db(ConversationQueryFor(userId, articleId, skip, limit))
    case ReadRaised => []
    case Rows(data) => data
  }

  /** What the insert of a conversation returns: the selected row (absent when the
      insert returned nothing), or an exception. */
  datatype Insert = Inserted(data: Option<map<string, string>>) | InsertRaised

  /** What is handed to `asyncio.to_thread`: the query's `execute` method itself, or
      the response an eager `execute()` call already produced. */
  datatype ThreadArgument = ExecuteMethod | ExecuteResult(response: Insert)

  /** Awaiting `asyncio.to_thread(f)`: runs `f` when it is the method, and raises a
      `TypeError` when it is a response object, which cannot be called. */
  function AwaitToThread(f: ThreadArgument, execute: Insert): (r: Insert)
    ensures f.ExecuteMethod? ==> r == execute
    ensures f.ExecuteResult? ==> r.InsertRaised?
  {
    match f
    case ExecuteMethod => execute
    case ExecuteResult(_) => InsertRaised
  }

  /** The id of the inserted row when the insert returned one, `None` on any other
      outcome, exceptions included. */
  function IdOf(outcome: Insert): (r: Option<string>)
    ensures r.Some? <==> outcome.Inserted? && outcome.data.Some? && "id" in outcome.data.value
    ensures r.Some? ==> r.value == outcome.data.value["id"]
  {
    match outcome
    case InsertRaised => None
    case Inserted(data) =>
      if data.Some? && data.value != map[] && "id" in data.value then Some(data.value["id"]) else None
  }

  /** `create_conversation` as written: `execute()` runs eagerly inside the `try`
      (the row is inserted whenever it succeeds), and its response is then passed to
      `to_thread`, whose `TypeError` lands in the `except`. */
  function CreateConversationAsWritten(execute: Insert): (r: Option<string>)
    ensures r.None?
  {
    if execute.InsertRaised? then None
    else IdOf(AwaitToThread(ExecuteResult(execute), execute))
  }

  /** `create_conversation` with `to_thread(query.execute)`: the new conversation's id
      whenever the insert returns one. */
  function CreateConversation(execute: Insert): (r: Option<string>)
    ensures r.Some? <==> execute.Inserted? && execute.data.Some? && "id" in execute.data.value
    ensures r.Some? ==> r.value == execute.data.value["id"]
  {
    IdOf(AwaitToThread(ExecuteMethod, execute))
  }

  /** An insert that returns the new row's id: the corrected function returns that id,
      the function as written returns `None` although the row was inserted. */
  lemma CreateConversationLosesId()
    ensures CreateConversation(Inserted(Some(map["id" := "c1"]))) == Some("c1")
    ensures CreateConversationAsWritten(Inserted(Some(map["id" := "c1"]))) == None
  {
  }

  /** A successful insert into a fresh repository: both versions push the same entry,
      but only the corrected one reports success. */
  method AddMessageLosesSuccess(conversationId: string, role: string, content: string)
    returns (corrected: bool, asWritten: bool, listCorrected: seq<Message>, listAsWritten: seq<Message>)
    ensures corrected && !asWritten
    ensures listCorrected == listAsWritten == [Message(role, content, map[])]
  {
    var key := CacheKey(conversationId);
    var r1 := new ChatRepository();
    corrected := r1.AddMessage(conversationId, role, content, Written);
    listCorrected := r1.CachedList(key);
    var r2 := new ChatRepository();
    asWritten := r2.AddMessageAsWritten(conversationId, role, content, Written);
    listAsWritten := r2.CachedList(key);
  }

  /** A cache miss on a fresh repository whose database holds rows: both versions
      refill the cache with the same messages, but only the corrected one returns them. */
  method GetMessagesLosesRows(conversationId: string, limit: int, rows: seq<Message>)
    returns (corrected: seq<Message>, asWritten: seq<Message>, listCorrected: seq<Message>, listAsWritten: seq<Message>)
    requires rows != []
    ensures corrected == Reversed(rows) && asWritten == []
    ensures listCorrected == listAsWritten == CachedAll(Reversed(rows))
  {
    var key := CacheKey(conversationId);
    var db := (q: MessageQuery) => Rows(rows);
    var r1 := new ChatRepository();
    corrected := r1.GetMessages(conversationId, limit, db);
    listCorrected := r1.CachedList(key);
    var r2 := new ChatRepository();
    asWritten := r2.GetMessagesAsWritten(conversationId, limit, db);
    listAsWritten := r2.CachedList(key);
  }
}
