/**
 * `ConversationMemory` in its in-process mode: per-session conversation
 * lists, most recent first and capped at ten turns, and an embedding cache
 * whose entries expire. The clock is an explicit `now` argument (seconds).
 */
module Memory {
  import opened Wrappers
  import opened Text

  /** Turns kept per session. */
  const MaxTurns := 10
  const EmbeddingPrefix := "embedding:"

  /** One stored exchange; the ISO timestamp is kept as the clock reading. */
  datatype Turn = Turn(timestamp: int, question: string, answer: string, sources: seq<string>)

  /** An embedding vector; its contents are opaque here. */
  type Embedding = seq<real>

  datatype CacheEntry = CacheEntry(data: Embedding, expires: int)

  type Histories = map<string, seq<Turn>>
  type Cache = map<string, CacheEntry>

  // ---------------------------------------------------------------------
  // The embedding cache, as values

  /** The cache key of an embedding, `"embedding:" + key`. */
  function CacheKey(key: string): (k: string)
    ensures EmbeddingPrefix <= k && k[|EmbeddingPrefix|..] == key
  {
    EmbeddingPrefix + key
  }

  lemma CacheKeyInjective(a: string, b: string)
    requires CacheKey(a) == CacheKey(b)
    ensures a == b
  {
    assert a == CacheKey(a)[|EmbeddingPrefix|..];
  }

  /** `cache_embedding`: (over)write the entry, expiring `ttl` seconds from now. */
  function Put(cache: Cache, key: string, embedding: Embedding, ttl: int, now: int): (r: Cache)
    ensures r.Keys == cache.Keys + {CacheKey(key)}
    ensures r[CacheKey(key)] == CacheEntry(embedding, now + ttl)
    ensures forall k :: k in cache && k != CacheKey(key) ==> r[k] == cache[k]
  {
    cache[CacheKey(key) := CacheEntry(embedding, now + ttl)]
  }

  /** `get_cached_embedding`: a hit needs an entry whose expiry is strictly later than now. */
  function Get(cache: Cache, key: string, now: int): (r: Option<Embedding>)
    ensures r.Some? <==> CacheKey(key) in cache && cache[CacheKey(key)].expires > now
    ensures r.Some? ==> r.value == cache[CacheKey(key)].data
  {
    var k := CacheKey(key);
    if k in cache && cache[k].expires > now then Some(cache[k].data) else None
  }

  /**
   * Reading back what was just cached: a hit with the stored vector exactly
   * while the read is earlier than `now + ttl`; so a zero (or negative) ttl
   * read at the same instant misses.
   */
  lemma GetAfterPut(cache: Cache, key: string, embedding: Embedding, ttl: int, now: int, at: int)
    ensures Get(Put(cache, key, embedding, ttl, now), key, at) == if at < now + ttl then Some(embedding) else None
    ensures ttl <= 0 ==> Get(Put(cache, key, embedding, ttl, now), key, now) == None
  {
  }

  /** Caching under one key leaves every other key's answer as it was. */
  lemma PutKeepsOtherKeys(cache: Cache, key: string, embedding: Embedding, ttl: int, now: int, other: string, at: int)
    requires other != key
    ensures Get(Put(cache, key, embedding, ttl, now), other, at) == Get(cache, other, at)
  {
    if CacheKey(other) == CacheKey(key) {
      CacheKeyInjective(other, key);
    }
  }

  /** Expired entries are never removed, only reported as misses, and stay misses later on. */
  lemma MissStaysMiss(cache: Cache, key: string, now: int, later: int)
    requires now <= later
    requires Get(cache, key, now).None?
    ensures Get(cache, key, later).None?
    ensures CacheKey(key) in cache ==> cache[CacheKey(key)].expires <= later
  {
  }

  // ---------------------------------------------------------------------
  // Conversation histories, as values

  /** A session's list, or `[]` for an unknown session. */
  function HistoryOf(histories: Histories, sessionId: string): seq<Turn> {
    if sessionId in histories then histories[sessionId] else []
  }

  /** `insert(0, turn)` and then keep the first ten. */
  function Pushed(turns: seq<Turn>, turn: Turn): (r: seq<Turn>)
    ensures |r| == if |turns| < MaxTurns then |turns| + 1 else MaxTurns
    ensures r[0] == turn
    ensures r[1..] == Take(turns, MaxTurns - 1)
  {
    Take([turn] + turns, MaxTurns)
  }

  function Stored(histories: Histories, sessionId: string, turn: Turn): (r: Histories)
    ensures r.Keys == histories.Keys + {sessionId}
    ensures r[sessionId] == Pushed(HistoryOf(histories, sessionId), turn)
    ensures forall s :: s in histories && s != sessionId ==> r[s] == histories[s]
  {
    histories[sessionId := Pushed(HistoryOf(histories, sessionId), turn)]
  }

  function Cleared(histories: Histories, sessionId: string): (r: Histories)
    ensures r.Keys == histories.Keys - {sessionId}
    ensures forall s :: s in r ==> r[s] == histories[s]
  {
    histories - {sessionId}
  }

  /** No session ever holds more than ten turns. */
  ghost predicate Bounded(histories: Histories) {
    forall s :: s in histories ==> |histories[s]| <= MaxTurns
  }

  /**
   * Storing into one session: that session reads the new turn first and its
   * older turns after it, the oldest dropped beyond ten; every other session
   * reads as before; the bound is kept.
   */
  lemma StoredSpec(histories: Histories, sessionId: string, turn: Turn, other: string)
    requires Bounded(histories)
    ensures Bounded(Stored(histories, sessionId, turn))
    ensures HistoryOf(Stored(histories, sessionId, turn), sessionId)[0] == turn
    ensures HistoryOf(Stored(histories, sessionId, turn), sessionId)[1..] == Take(HistoryOf(histories, sessionId), MaxTurns - 1)
    ensures other != sessionId ==> HistoryOf(Stored(histories, sessionId, turn), other) == HistoryOf(histories, other)
  {
  }

  /**
   * Clearing a session empties it, leaves the others, and clearing again
   * (or clearing an unknown session) changes nothing further.
   */
  lemma ClearedSpec(histories: Histories, sessionId: string, other: string)
    ensures HistoryOf(Cleared(histories, sessionId), sessionId) == []
    ensures other != sessionId ==> HistoryOf(Cleared(histories, sessionId), other) == HistoryOf(histories, other)
    ensures Cleared(Cleared(histories, sessionId), sessionId) == Cleared(histories, sessionId)
    ensures sessionId !in histories ==> Cleared(histories, sessionId) == histories
  {
  }

  function Reversed<T>(xs: seq<T>): (r: seq<T>)
    ensures |r| == |xs|
    ensures forall i :: 0 <= i < |xs| ==> r[i] == xs[|xs| - 1 - i]
  {
    if xs == [] then [] else Reversed(xs[1..]) + [xs[0]]
  }

  /** The session after storing `turns` one by one, the first stored first. */
  function StoredAll(turns: seq<Turn>, start: seq<Turn>): seq<Turn> {
    if turns == [] then start
    else Pushed(StoredAll(turns[..|turns| - 1], start), turns[|turns| - 1])
  }

  /**
   * Storing any number of turns into a fresh session leaves the last ten of
   * them, most recent first.
   */
  lemma {:induction false} StoredAllKeepsLastTen(turns: seq<Turn>)
    ensures StoredAll(turns, []) == Take(Reversed(turns), MaxTurns)
  {
    if turns != [] {
      var init, last := turns[..|turns| - 1], turns[|turns| - 1];
      var prev := StoredAll(init, []);
      assert prev == Take(Reversed(init), MaxTurns) by {
        StoredAllKeepsLastTen(init);
      }
      assert Reversed(turns) == [last] + Reversed(init) by {
        assert turns == init + [last];
        ReversedAppend(init, last);
      }
      calc {
        StoredAll(turns, []);
        Pushed(prev, last);
        Take([last] + Take(Reversed(init), MaxTurns), MaxTurns);
        { TakeAfterCons(last, Reversed(init), MaxTurns); }
        Take([last] + Reversed(init), MaxTurns);
      }
    }
  }

  /** Cutting a list before putting an element in front changes nothing once the result is cut again. */
  lemma TakeAfterCons<T>(x: T, xs: seq<T>, n: nat)
    requires n >= 1
    ensures Take([x] + Take(xs, n), n) == Take([x] + xs, n)
  {
    var a, b := Take([x] + Take(xs, n), n), Take([x] + xs, n);
    assert |a| == |b|;
    forall k | 0 <= k < |a| ensures a[k] == b[k] {
      if k > 0 {
        assert a[k] == Take(xs, n)[k - 1] == xs[k - 1];
      }
    }
  }

  lemma ReversedAppend<T>(xs: seq<T>, x: T)
    ensures Reversed(xs + [x]) == [x] + Reversed(xs)
  {
    assert |Reversed(xs + [x])| == |[x] + Reversed(xs)|;
    forall i | 0 <= i < |xs| + 1 ensures Reversed(xs + [x])[i] == ([x] + Reversed(xs))[i] {
    }
  }

  // ---------------------------------------------------------------------
  // The object

  class ConversationMemory {
    var memoryCache: Cache
    var conversationHistory: Histories

    ghost predicate Valid()
      reads this
    {
      Bounded(conversationHistory)
    }

    constructor()
      ensures Valid()
      ensures memoryCache == map[] && conversationHistory == map[]
    {
      memoryCache := map[];
      conversationHistory := map[];
    }

    /** `cache_embedding`; the conversation lists are not touched. */
    method CacheEmbedding(key: string, embedding: Embedding, ttl: int, now: int)
      modifies this
      ensures memoryCache == Put(old(memoryCache), key, embedding, ttl, now)
      ensures conversationHistory == old(conversationHistory)
    {
      memoryCache := memoryCache[EmbeddingPrefix + key := CacheEntry(embedding, now + ttl)];
    }

    /** `get_cached_embedding`; an expired entry is reported as a miss and left in place. */
    method GetCachedEmbedding(key: string, now: int) returns (r: Option<Embedding>)
      ensures r == Get(memoryCache, key, now)
    {
      var k := EmbeddingPrefix + key;
      if k in memoryCache && memoryCache[k].expires > now {
        r := Some(memoryCache[k].data);
      } else {
        r := None;
      }
    }

    /** `store_conversation`; the cache is not touched. */
    method StoreConversation(sessionId: string, question: string, answer: string, sources: seq<string>, now: int)
      requires Valid()
      modifies this
      ensures Valid()
      ensures conversationHistory == Stored(old(conversationHistory), sessionId, Turn(now, question, answer, sources))
      ensures memoryCache == old(memoryCache)
    {
      var conversation := Turn(now, question, answer, sources);
      if sessionId !in conversationHistory {
        conversationHistory := conversationHistory[sessionId := []];
      }
      var turns := [conversation] + conversationHistory[sessionId];
      conversationHistory := conversationHistory[sessionId := Take(turns, MaxTurns)];
      StoredSpec(old(conversationHistory), sessionId, conversation, sessionId);
    }

    /** `get_conversation_history`: the first `limit` turns, most recent first (Python slicing). */
    method GetConversationHistory(sessionId: string, limit: int) returns (r: seq<Turn>)
      ensures r == Take(HistoryOf(conversationHistory, sessionId), limit)
    {
      var turns := if sessionId in conversationHistory then conversationHistory[sessionId] else [];
      r := Take(turns, limit);
    }

    /** `clear_conversation`: `pop(session_id, None)`. */
    method ClearConversation(sessionId: string)
      modifies this
      ensures conversationHistory == Cleared(old(conversationHistory), sessionId)
      ensures memoryCache == old(memoryCache)
    {
      conversationHistory := conversationHistory - {sessionId};
    }
  }
}
