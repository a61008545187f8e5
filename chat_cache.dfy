/**
 * The chat provider (`ChatProvider`): the chat list of the signed-in user and
 * a per-chat message cache with a five-minute freshness window, mirrored in
 * storage under 'user_chats_<user>' and 'chat_messages_<chat>', with
 * optimistic sending.
 */
module ChatCache {
  import opened Wrappers
  import opened Text
  import opened Numbers
  import opened Documents
  import opened Storage
  import opened AuthSession

  const CacheExpiration: int := 5 * 60 * 1000
  const ChatsPrefix := "user_chats_"
  const MessagesPrefix := "chat_messages_"
  const UnknownUser := "Unknown User"

  function ChatsKey(userId: string): string { ChatsPrefix + userId }
  function MessagesKey(chatId: string): string { MessagesPrefix + chatId }

  /** One chat's cached messages and the time they were cached. */
  datatype CacheEntry = CacheEntry(messages: seq<Message>, timestamp: int)

  /** In-memory messages are served while strictly younger than five minutes. */
  function IsFresh(now: int, timestamp: int): (r: bool)
    ensures now <= timestamp ==> r
    ensures r <==> now < timestamp + CacheExpiration
  {
    now - timestamp < CacheExpiration
  }

  /** The stored chat list is refetched only once strictly older than five minutes. */
  function IsExpired(now: int, timestamp: int): (r: bool)
    ensures r ==> now > timestamp
    ensures r <==> now > timestamp + CacheExpiration
  {
    now - timestamp > CacheExpiration
  }

  /**
   * The two tests disagree at exactly five minutes: such messages are no
   * longer served from memory, while such a chat list is not yet refetched.
   */
  lemma FiveMinuteBoundary(now: int, timestamp: int)
    ensures now - timestamp == CacheExpiration ==> !IsFresh(now, timestamp) && !IsExpired(now, timestamp)
    ensures now - timestamp != CacheExpiration ==> IsFresh(now, timestamp) != IsExpired(now, timestamp)
  {
  }

  // ----- Storage keys -------------------------------------------------------

  /** The keys `clearCacheOnLogout` removes. */
  function IsChatCacheKey(key: string): (r: bool)
    ensures r ==> |key| >= |ChatsPrefix| || |key| >= |MessagesPrefix|
  {
    StartsWith(key, ChatsPrefix) || StartsWith(key, MessagesPrefix)
  }

  function ChatCacheKeys(keys: set<string>): (r: set<string>)
    ensures forall k :: k in r <==> k in keys && IsChatCacheKey(k)
  {
    set k | k in keys && IsChatCacheKey(k)
  }

  /** Every key the chat provider writes is a chat cache key, and no key of the session provider is. */
  lemma CacheKeysClassified(userId: string, chatId: string)
    ensures IsChatCacheKey(ChatsKey(userId)) && IsChatCacheKey(MessagesKey(chatId))
    ensures !IsChatCacheKey(CurrentUserKey) && !IsChatCacheKey(PendingKey)
  {
    ConcatEnds(ChatsPrefix, userId);
    ConcatEnds(MessagesPrefix, chatId);
    assert CurrentUserKey[0] == 'c' && PendingKey[0] == 'p';
    assert ChatsPrefix[0] == 'u' && MessagesPrefix[0] == 'c' && MessagesPrefix[1] == 'h' && CurrentUserKey[1] == 'u';
  }

  // ----- Message lists ------------------------------------------------------

  function IdsOfMessages(ms: seq<Message>): set<string> {
    set m | m in ms :: m.id
  }

  /** `ms.map(m => m.$id === id ? replacement : m)`. */
  function ReplaceById(ms: seq<Message>, id: string, replacement: Message): (r: seq<Message>)
    ensures |r| == |ms|
    ensures forall i :: 0 <= i < |ms| ==> r[i] == (if ms[i].id == id then replacement else ms[i])
  {
    if ms == [] then [] else ReplaceById(ms[..|ms| - 1], id, replacement) + [if ms[|ms| - 1].id == id then replacement else ms[|ms| - 1]]
  }

  /** `ms.map(m => m.$id === id ? { ...m, isSending: false, sendFailed: true } : m)`. */
  function MarkFailed(ms: seq<Message>, id: string): (r: seq<Message>)
    ensures |r| == |ms|
    ensures forall i :: 0 <= i < |ms| ==> r[i] == (if ms[i].id == id then ms[i].(isSending := false, sendFailed := true) else ms[i])
  {
    if ms == [] then [] else MarkFailed(ms[..|ms| - 1], id) + [if ms[|ms| - 1].id == id then ms[|ms| - 1].(isSending := false, sendFailed := true) else ms[|ms| - 1]]
  }

  /** A list holding no message with the id is left as it is. */
  lemma {:induction false} ReplaceAbsentId(ms: seq<Message>, id: string, replacement: Message)
    requires id !in IdsOfMessages(ms)
    ensures ReplaceById(ms, id, replacement) == ms
  {
    forall i | 0 <= i < |ms| ensures ReplaceById(ms, id, replacement)[i] == ms[i] {
      assert ms[i] in ms;
    }
  }

  /**
   * Swapping the optimistic message for the server's: when its temporary id
   * is new to the list, the result is the old list followed by the server
   * message, so the length and every earlier message are kept.
   */
  lemma {:induction false} SwapInPlace(ms: seq<Message>, temp: Message, server: Message)
    requires temp.id !in IdsOfMessages(ms)
    ensures ReplaceById(ms + [temp], temp.id, server) == ms + [server]
  {
    ReplaceAbsentId(ms, temp.id, server);
    assert (ms + [temp])[..|ms|] == ms;
  }

  /** A failed send keeps the optimistic message at the end, no longer sending and marked failed. */
  lemma {:induction false} FailedStays(ms: seq<Message>, temp: Message)
    requires temp.id !in IdsOfMessages(ms)
    ensures MarkFailed(ms + [temp], temp.id) == ms + [temp.(isSending := false, sendFailed := true)]
  {
    var r := MarkFailed(ms + [temp], temp.id);
    forall i | 0 <= i < |ms| ensures r[i] == ms[i] {
      assert ms[i] in ms;
    }
  }

  // ----- Chat list ----------------------------------------------------------

  /** The value a JavaScript `Map` keeps for `id` after setting every chat in turn: the last one with that id. */
  function LastWithId(cs: seq<Chat>, id: string): Option<Chat> {
    if cs == [] then None
    else if cs[|cs| - 1].id == id then Some(cs[|cs| - 1])
    else LastWithId(cs[..|cs| - 1], id)
  }

  /** The value found is a chat of the list with that id, and nothing is found only when no chat has it. */
  lemma {:induction false} LastWithIdFound(cs: seq<Chat>, id: string)
    ensures LastWithId(cs, id).Some? ==> LastWithId(cs, id).value in cs && LastWithId(cs, id).value.id == id
    ensures LastWithId(cs, id).None? <==> forall c :: c in cs ==> c.id != id
  {
    if cs != [] {
      var init := cs[..|cs| - 1];
      assert cs == init + [cs[|cs| - 1]];
      LastWithIdFound(init, id);
    }
  }

  /** The keys of that `Map`, in the order they were first inserted. */
  function FirstSeenIds(cs: seq<Chat>): seq<string> {
    if cs == [] then []
    else
      var prev := FirstSeenIds(cs[..|cs| - 1]);
      if cs[|cs| - 1].id in prev then prev else prev + [cs[|cs| - 1].id]
  }

  /** Every id of the list appears among the keys exactly once, and every key is an id of the list. */
  lemma {:induction false} FirstSeenIdsProperties(cs: seq<Chat>)
    ensures forall x :: x in FirstSeenIds(cs) <==> exists c :: c in cs && c.id == x
    ensures forall i, j :: 0 <= i < j < |FirstSeenIds(cs)| ==> FirstSeenIds(cs)[i] != FirstSeenIds(cs)[j]
  {
    if cs != [] {
      var init, last := cs[..|cs| - 1], cs[|cs| - 1];
      assert cs == init + [last];
      FirstSeenIdsProperties(init);
      forall x | x in FirstSeenIds(cs) ensures exists c :: c in cs && c.id == x {
        if x != last.id {
          var c :| c in init && c.id == x;
          assert c in cs;
        }
      }
    }
  }

  /** `Array.from(chatMap.values())`: one chat per key, in first-seen order, each the last copy of its id. */
  function Deduplicated(cs: seq<Chat>): (r: seq<Chat>)
    ensures |r| == |FirstSeenIds(cs)|
  {
    var ids := FirstSeenIds(cs);
    FirstSeenIdsProperties(cs);
    assert forall i :: 0 <= i < |ids| ==> LastWithId(cs, ids[i]).Some? by {
      forall i | 0 <= i < |ids| ensures LastWithId(cs, ids[i]).Some? {
        assert ids[i] in ids;
        var c :| c in cs && c.id == ids[i];
        LastWithIdFound(cs, ids[i]);
      }
    }
    seq(|ids|, i requires 0 <= i < |ids| => LastWithId(cs, ids[i]).value)
  }

  /** What the merge promises: every chat of either list is represented exactly once, by its last copy. */
  lemma DeduplicatedProperties(cs: seq<Chat>)
    ensures forall i, j :: 0 <= i < j < |Deduplicated(cs)| ==> Deduplicated(cs)[i].id != Deduplicated(cs)[j].id
    ensures forall c :: c in cs ==> exists i :: 0 <= i < |Deduplicated(cs)| && Deduplicated(cs)[i].id == c.id
    ensures forall d :: d in Deduplicated(cs) ==> d in cs && LastWithId(cs, d.id) == Some(d)
  {
    var r, ids := Deduplicated(cs), FirstSeenIds(cs);
    FirstSeenIdsProperties(cs);
    forall i | 0 <= i < |r| ensures r[i] in cs && r[i].id == ids[i] && LastWithId(cs, r[i].id) == Some(r[i]) {
      assert ids[i] in ids;
      var c :| c in cs && c.id == ids[i];
      LastWithIdFound(cs, ids[i]);
    }
    forall c | c in cs ensures exists i :: 0 <= i < |r| && r[i].id == c.id {
      assert c.id in ids;
      var i :| 0 <= i < |ids| && ids[i] == c.id;
      assert r[i].id == c.id;
    }
  }

  /** Setting one more chat in the `Map`: a new id is appended, and that chat becomes its id's value. */
  lemma MapSetStep(cs: seq<Chat>, c: Chat)
    ensures FirstSeenIds(cs + [c]) == if c.id in FirstSeenIds(cs) then FirstSeenIds(cs) else FirstSeenIds(cs) + [c.id]
    ensures forall id :: LastWithId(cs + [c], id) == if id == c.id then Some(c) else LastWithId(cs, id)
  {
    assert (cs + [c])[..|cs|] == cs;
  }

  /**
   * The `forEach` over buyer chats then seller chats that fills the `Map`:
   * `order` holds the keys in insertion order, `byId` the current values.
   */
  method MergeChats(buyerChats: seq<Chat>, sellerChats: seq<Chat>) returns (r: seq<Chat>)
    ensures r == Deduplicated(buyerChats + sellerChats)
  {
    var all := buyerChats + sellerChats;
    var order: seq<string> := [];
    var byId: map<string, Chat> := map[];
    for k := 0 to |all|
      invariant order == FirstSeenIds(all[..k])
      invariant forall id :: id in byId <==> id in order
      invariant forall id :: id in byId ==> LastWithId(all[..k], id) == Some(byId[id])
    {
      var c := all[k];
      assert all[..k + 1] == all[..k] + [c];
      MapSetStep(all[..k], c);
      if c.id !in byId {
        order := order + [c.id];
      }
      byId := byId[c.id := c];
    }
    assert all[..|all|] == all;
    r := seq(|order|, i requires 0 <= i < |order| => byId[order[i]]);
    assert forall i :: 0 <= i < |r| ==> r[i] == Deduplicated(all)[i];
  }

  predicate NewestFirst(cs: seq<Chat>) {
    forall i, j :: 0 <= i < j < |cs| ==> cs[i].updatedAt >= cs[j].updatedAt
  }

  predicate DistinctIds(cs: seq<Chat>) {
    forall i, j :: 0 <= i < j < |cs| ==> cs[i].id != cs[j].id
  }

  /** Places `c` after every chat at least as recent: the step of a stable sort, newest first. */
  function InsertByRecency(c: Chat, sorted: seq<Chat>): (r: seq<Chat>)
    ensures |r| == |sorted| + 1
  {
    if sorted == [] then [c]
    else if sorted[0].updatedAt >= c.updatedAt then [sorted[0]] + InsertByRecency(c, sorted[1..])
    else [c] + sorted
  }

  /** Inserting adds exactly `c`. */
  lemma {:induction false} InsertByRecencyAddsOne(c: Chat, sorted: seq<Chat>)
    ensures multiset(InsertByRecency(c, sorted)) == multiset(sorted) + multiset{c}
    ensures forall x :: x in InsertByRecency(c, sorted) <==> x in sorted || x == c
  {
    if sorted != [] && sorted[0].updatedAt >= c.updatedAt {
      InsertByRecencyAddsOne(c, sorted[1..]);
      assert sorted == [sorted[0]] + sorted[1..];
    }
    var r := InsertByRecency(c, sorted);
    assert forall x :: x in r <==> x in multiset(r);
  }

  /** Inserting keeps a newest-first list newest first. */
  lemma {:induction false} InsertByRecencyKeepsOrder(c: Chat, sorted: seq<Chat>)
    requires NewestFirst(sorted)
    ensures NewestFirst(InsertByRecency(c, sorted))
  {
    var r := InsertByRecency(c, sorted);
    if sorted == [] {
    } else if sorted[0].updatedAt >= c.updatedAt {
      var tail := sorted[1..];
      var rest := InsertByRecency(c, tail);
      assert r == [sorted[0]] + rest;
      InsertByRecencyKeepsOrder(c, tail);
      InsertByRecencyAddsOne(c, tail);
      forall x | x in tail ensures sorted[0].updatedAt >= x.updatedAt {
        var k :| 0 <= k < |tail| && tail[k] == x;
        assert sorted[k + 1] == x;
      }
      ConsKeepsOrder(sorted[0], rest);
    } else {
      forall i, j | 0 <= i < j < |r| ensures r[i].updatedAt >= r[j].updatedAt {
        if i == 0 {
          assert r[j] == sorted[j - 1];
        } else {
          assert r[i] == sorted[i - 1] && r[j] == sorted[j - 1];
        }
      }
    }
  }

  /** A chat at least as recent as everything in a newest-first list can lead it. */
  lemma ConsKeepsOrder(h: Chat, rest: seq<Chat>)
    requires NewestFirst(rest)
    requires forall x :: x in rest ==> h.updatedAt >= x.updatedAt
    ensures NewestFirst([h] + rest)
  {
    var r := [h] + rest;
    forall i, j | 0 <= i < j < |r| ensures r[i].updatedAt >= r[j].updatedAt {
      assert r[j] == rest[j - 1];
      if i > 0 {
        assert r[i] == rest[i - 1];
      }
    }
  }

  /** Inserting a chat whose id is new keeps ids distinct. */
  lemma {:induction false} InsertByRecencyKeepsDistinct(c: Chat, sorted: seq<Chat>)
    requires DistinctIds(sorted) && forall x :: x in sorted ==> x.id != c.id
    ensures DistinctIds(InsertByRecency(c, sorted))
  {
    var r := InsertByRecency(c, sorted);
    if sorted == [] {
    } else if sorted[0].updatedAt >= c.updatedAt {
      var tail := sorted[1..];
      var rest := InsertByRecency(c, tail);
      assert forall x :: x in tail ==> x in sorted;
      InsertByRecencyKeepsDistinct(c, tail);
      InsertByRecencyAddsOne(c, tail);
      assert forall x :: x in rest ==> sorted[0].id != x.id by {
        forall x | x in rest ensures sorted[0].id != x.id {
          if x != c {
            var k :| 0 <= k < |tail| && tail[k] == x;
            assert sorted[k + 1] == x;
          }
        }
      }
      forall i, j | 0 <= i < j < |r| ensures r[i].id != r[j].id {
        assert r[j] == rest[j - 1] && r[j] in rest;
        if i > 0 {
          assert r[i] == rest[i - 1];
        }
      }
    } else {
      forall i, j | 0 <= i < j < |r| ensures r[i].id != r[j].id {
        assert r[j] == sorted[j - 1] && r[j] in sorted;
        if i > 0 {
          assert r[i] == sorted[i - 1];
        }
      }
    }
  }

  /** `sort((a, b) => new Date(b.updatedAt) - new Date(a.updatedAt))`, stable as ECMAScript requires. */
  function SortByRecency(cs: seq<Chat>): (r: seq<Chat>)
    ensures |r| == |cs|
  {
    if cs == [] then [] else InsertByRecency(cs[|cs| - 1], SortByRecency(cs[..|cs| - 1]))
  }

  /** The sorted list is a permutation of the input, newest first, and keeps ids distinct. */
  lemma {:induction false} SortByRecencyProperties(cs: seq<Chat>)
    ensures multiset(SortByRecency(cs)) == multiset(cs)
    ensures forall x :: x in SortByRecency(cs) <==> x in cs
    ensures NewestFirst(SortByRecency(cs))
    ensures DistinctIds(cs) ==> DistinctIds(SortByRecency(cs))
  {
    if cs != [] {
      var init, last := cs[..|cs| - 1], cs[|cs| - 1];
      assert cs == init + [last];
      SortByRecencyProperties(init);
      InsertByRecencyAddsOne(last, SortByRecency(init));
      InsertByRecencyKeepsOrder(last, SortByRecency(init));
      if DistinctIds(cs) {
        assert DistinctIds(init);
        forall x | x in SortByRecency(init) ensures x.id != last.id {
          var k :| 0 <= k < |init| && init[k] == x;
          assert cs[k] == x;
        }
        InsertByRecencyKeepsDistinct(last, SortByRecency(init));
      }
    }
  }

  /** The participant who is not the user: the seller when the user is the buyer, else the buyer. */
  function OtherUserId(c: Chat, userId: string): (r: string)
    ensures (userId == c.buyerId || userId == c.sellerId) && c.buyerId != c.sellerId ==>
      r != userId && (r == c.buyerId || r == c.sellerId)
  {
    if c.buyerId == userId then c.sellerId else c.buyerId
  }

  /**
   * The other participant's display name; `profiles` maps the user ids whose
   * profile lookup succeeds to their `displayName` ("" when it has none).
   */
  function DisplayName(profiles: map<string, string>, userId: string): (r: string)
    ensures r != ""
    ensures userId in profiles && profiles[userId] != "" ==> r == profiles[userId]
  {
    if userId in profiles && profiles[userId] != "" then profiles[userId] else UnknownUser
  }

  /** Each chat in order, paired with the other participant's id and display name. */
  function Annotate(cs: seq<Chat>, userId: string, profiles: map<string, string>): (r: seq<ChatView>)
    ensures |r| == |cs|
    ensures forall i :: 0 <= i < |cs| ==>
      && r[i].chat == cs[i]
      && r[i].otherUser == OtherUser(OtherUserId(cs[i], userId), DisplayName(profiles, OtherUserId(cs[i], userId)))
  {
    seq(|cs|, i requires 0 <= i < |cs| =>
      var other := OtherUserId(cs[i], userId);
      ChatView(cs[i], OtherUser(other, DisplayName(profiles, other))))
  }

  /** Each annotated chat names the other participant by the profile's non-empty name, else 'Unknown User'. */
  lemma AnnotatedNames(cs: seq<Chat>, userId: string, profiles: map<string, string>)
    ensures var r := Annotate(cs, userId, profiles);
      forall i :: 0 <= i < |r| ==>
        var other := r[i].otherUser.userId;
        r[i].otherUser.displayName ==
          if other in profiles && profiles[other] != "" then profiles[other] else UnknownUser
  {
  }

  /** The chat list `refreshChats` builds from the two query results. */
  function ChatList(buyerChats: seq<Chat>, sellerChats: seq<Chat>, userId: string, profiles: map<string, string>): (r: seq<ChatView>)
    ensures |r| == |FirstSeenIds(buyerChats + sellerChats)|
  {
    Annotate(SortByRecency(Deduplicated(buyerChats + sellerChats)), userId, profiles)
  }

  /**
   * The chat list holds each chat id of either list exactly once, newest
   * first, each the last copy received, each with the other participant and
   * that participant's display name, or 'Unknown User' when the profile
   * lookup fails or the name is empty.
   */
  lemma ChatListProperties(buyerChats: seq<Chat>, sellerChats: seq<Chat>, userId: string, profiles: map<string, string>)
    ensures var all := buyerChats + sellerChats;
      var r := ChatList(buyerChats, sellerChats, userId, profiles);
      && (forall i, j :: 0 <= i < j < |r| ==> r[i].chat.id != r[j].chat.id)
      && (forall i, j :: 0 <= i < j < |r| ==> r[i].chat.updatedAt >= r[j].chat.updatedAt)
      && (forall c :: c in all ==> exists i :: 0 <= i < |r| && r[i].chat.id == c.id)
      && (forall i :: 0 <= i < |r| ==> LastWithId(all, r[i].chat.id) == Some(r[i].chat))
      && (forall i :: 0 <= i < |r| ==> r[i].otherUser.userId == OtherUserId(r[i].chat, userId))
      && (forall i :: 0 <= i < |r| ==>
            var other := r[i].otherUser.userId;
            r[i].otherUser.displayName ==
              if other in profiles && profiles[other] != "" then profiles[other] else UnknownUser)
  {
    var all := buyerChats + sellerChats;
    var d := Deduplicated(all);
    var s := SortByRecency(d);
    var r := ChatList(buyerChats, sellerChats, userId, profiles);
    AnnotatedNames(s, userId, profiles);
    DeduplicatedProperties(all);
    SortByRecencyProperties(d);
    assert forall i :: 0 <= i < |r| ==> r[i].chat == s[i];
    forall i | 0 <= i < |r| ensures LastWithId(all, r[i].chat.id) == Some(r[i].chat) {
      assert s[i] in s;
    }
    forall c | c in all ensures exists i :: 0 <= i < |r| && r[i].chat.id == c.id {
      var p :| 0 <= p < |d| && d[p].id == c.id;
      assert d[p] in s;
      var i :| 0 <= i < |s| && s[i] == d[p];
      assert r[i].chat.id == c.id;
    }
  }

  // ----- The provider -------------------------------------------------------

  class ChatProvider {
    var chats: seq<ChatView>
    var isLoadingChats: bool
    var messageCache: map<string, CacheEntry>
    const auth: AuthProvider
    const store: Store

    constructor (auth: AuthProvider, store: Store)
      ensures this.auth == auth && this.store == store
      ensures chats == [] && isLoadingChats && messageCache == map[]
    {
      this.auth := auth;
      this.store := store;
      chats := [];
      isLoadingChats := true;
      messageCache := map[];
    }

    /** The stored copy of a chat's messages, when the key holds one. */
    function StoredMessages(chatId: string): Option<CacheEntry>
      reads this, store
    {
      match store.Get(MessagesKey(chatId))
      case Some(MessagesJson(ms, t)) => Some(CacheEntry(ms, t))
      case _ => None
    }

    /**
     * `getCachedMessages(chatId)`: the in-memory list while fresh; otherwise the
     * stored copy, whatever its age, which refills the in-memory entry with
     * the stored time stamp; otherwise nothing.
     */
    method GetCachedMessages(chatId: string, now: int) returns (ms: seq<Message>)
      modifies this
      ensures chats == old(chats) && isLoadingChats == old(isLoadingChats)
      ensures auth.user.None? ==> ms == [] && messageCache == old(messageCache)
      ensures auth.user.Some? && chatId in old(messageCache) && IsFresh(now, old(messageCache)[chatId].timestamp) ==>
        ms == old(messageCache)[chatId].messages && messageCache == old(messageCache)
      ensures auth.user.Some? && !(chatId in old(messageCache) && IsFresh(now, old(messageCache)[chatId].timestamp)) ==>
        match StoredMessages(chatId)
        case Some(e) => ms == e.messages && messageCache == old(messageCache)[chatId := e]
        case None => ms == [] && messageCache == old(messageCache)
    {
      if auth.user.None? {
        return [];
      }
      if chatId in messageCache {
        var cached := messageCache[chatId];
        if IsFresh(now, cached.timestamp) {
          return cached.messages;
        }
      }
      var stored := StoredMessages(chatId);
      if stored.Some? {
        messageCache := messageCache[chatId := stored.value];
        return stored.value.messages;
      }
      ms := [];
    }

    /**
     * `refreshMessages(chatId)`: the fetched list replaces this chat's entry,
     * stamped `now`, in memory and in storage; a failed fetch changes nothing.
     */
    method RefreshMessages(chatId: string, now: int, fetched: Result<seq<Message>>) returns (ms: seq<Message>)
      modifies this, store
      ensures chats == old(chats) && isLoadingChats == old(isLoadingChats)
      ensures auth.user.None? || fetched.Err? ==>
        ms == [] && messageCache == old(messageCache) && store.items == old(store.items)
      ensures auth.user.Some? && fetched.Ok? ==>
        && ms == fetched.value
        && messageCache == old(messageCache)[chatId := CacheEntry(fetched.value, now)]
        && store.items == old(store.items)[MessagesKey(chatId) := MessagesJson(fetched.value, now)]
    {
      if auth.user.None? || fetched.Err? {
        return [];
      }
      ms := fetched.value;
      messageCache := messageCache[chatId := CacheEntry(ms, now)];
      store.SetItem(MessagesKey(chatId), MessagesJson(ms, now));
    }

    /**
     * `sendMessage(chatId, content)`: `now` is the time of the call, `done`
     * the time the backend answered; `created` is the server's message and
     * `touched` the update of the chat's time stamp. Returns the server message
     * (None on any failure) and the optimistic message shown meanwhile.
     */
    method SendMessage(chatId: string, content: string, now: int, done: int, created: Result<Message>, touched: Outcome)
      returns (sent: Option<Message>, optimistic: Option<Message>)
      modifies this, store
      ensures chats == old(chats) && isLoadingChats == old(isLoadingChats)
      ensures auth.user.None? || Trim(content) == "" ==>
        sent.None? && optimistic.None? && messageCache == old(messageCache) && store.items == old(store.items)
      ensures auth.user.Some? && Trim(content) != "" ==>
        optimistic == Some(Message("temp_" + IntToString(now), chatId, auth.user.value.id, Trim(content), now, false, true, false))
      ensures optimistic.Some? ==> Delivered(old(messageCache), old(store.items), optimistic.value, done, created, touched, sent)
    {
      var text := Trim(content);
      if auth.user.None? || text == "" {
        return None, None;
      }
      var message := Message("temp_" + IntToString(now), chatId, auth.user.value.id, text, now, false, true, false);
      optimistic := Some(message);
      sent := Deliver(message, done, created, touched);
    }

    /**
     * What a send does once the optimistic `message` exists: with no cached
     * list for its chat, nothing local changes; otherwise the message is
     * appended, then marked failed, or swapped for the server's message while
     * the stored copy is written from the list as it was before the send.
     */
    ghost predicate Delivered(cache: map<string, CacheEntry>, items: map<string, Stored>, message: Message, done: int,
                              created: Result<Message>, touched: Outcome, sent: Option<Message>)
      reads this, store
    {
      var failed := created.Err? || touched.Failed?;
      && sent == (if failed then None else Some(created.value))
      && if message.chatId !in cache then messageCache == cache && store.items == items
         else
           var before := cache[message.chatId].messages;
           if failed then
             && messageCache == cache[message.chatId := CacheEntry(MarkFailed(before + [message], message.id), done)]
             && store.items == items
           else
             && messageCache == cache[message.chatId := CacheEntry(ReplaceById(before + [message], message.id, created.value), done)]
             && store.items == items[MessagesKey(message.chatId) := MessagesJson(ReplaceById(before, message.id, created.value), done)]
    }

    method Deliver(message: Message, done: int, created: Result<Message>, touched: Outcome) returns (sent: Option<Message>)
      modifies this, store
      ensures chats == old(chats) && isLoadingChats == old(isLoadingChats)
      ensures Delivered(old(messageCache), old(store.items), message, done, created, touched, sent)
    {
      var chatId := message.chatId;
      var failed := created.Err? || touched.Failed?;
      if chatId !in messageCache {
        // No cached list to update; only the backend calls happen.
        return if failed then None else Some(created.value);
      }
      // The cached list when the send started: the stored copy is built from it.
      var before := messageCache[chatId].messages;
      messageCache := messageCache[chatId := CacheEntry(before + [message], message.createdAt)];
      if failed {
        messageCache := messageCache[chatId := CacheEntry(MarkFailed(before + [message], message.id), done)];
        return None;
      }
      var server := created.value;
      messageCache := messageCache[chatId := CacheEntry(ReplaceById(before + [message], message.id, server), done)];
      store.SetItem(MessagesKey(chatId), MessagesJson(ReplaceById(before, message.id, server), done));
      sent := Some(server);
    }

    /**
     * `refreshChats`: on both query results, the merged, sorted and annotated
     * list becomes the chat list and is stored with time `now`; a failure of
     * either query changes nothing. Loading is over either way.
     */
    method RefreshChats(now: int, buyerChats: Result<seq<Chat>>, sellerChats: Result<seq<Chat>>, profiles: map<string, string>)
      modifies this, store
      ensures !isLoadingChats && messageCache == old(messageCache)
      ensures auth.user.None? || buyerChats.Err? || sellerChats.Err? ==>
        chats == old(chats) && store.items == old(store.items)
      ensures auth.user.Some? && buyerChats.Ok? && sellerChats.Ok? ==>
        && chats == ChatList(buyerChats.value, sellerChats.value, auth.user.value.id, profiles)
        && store.items == old(store.items)[ChatsKey(auth.user.value.id) := ChatsJson(chats, now)]
    {
      if auth.user.None? || buyerChats.Err? || sellerChats.Err? {
        isLoadingChats := false;
        return;
      }
      var userId := auth.user.value.id;
      var merged := MergeChats(buyerChats.value, sellerChats.value);
      var enhanced := Annotate(SortByRecency(merged), userId, profiles);
      chats := enhanced;
      store.SetItem(ChatsKey(userId), ChatsJson(enhanced, now));
      isLoadingChats := false;
    }

    /** The stored chat list of a user, when the key holds one. */
    function StoredChats(userId: string): Option<(seq<ChatView>, int)>
      reads this, store
    {
      match store.Get(ChatsKey(userId))
      case Some(ChatsJson(cs, t)) => Some((cs, t))
      case _ => None
    }

    /**
     * `loadCachedChats`: shows the stored list at once and refetches only when
     * it is expired; with no usable stored list it refetches.
     */
    method LoadCachedChats(now: int, buyerChats: Result<seq<Chat>>, sellerChats: Result<seq<Chat>>, profiles: map<string, string>)
      returns (refreshed: bool)
      modifies this, store
      ensures messageCache == old(messageCache)
      ensures refreshed <==>
        && auth.user.Some?
        && (old(StoredChats(auth.user.value.id)).None? || IsExpired(now, old(StoredChats(auth.user.value.id)).value.1))
      ensures auth.user.Some? && !refreshed ==>
        chats == old(StoredChats(auth.user.value.id)).value.0 && !isLoadingChats && store.items == old(store.items)
      ensures auth.user.None? ==> chats == old(chats) && isLoadingChats == old(isLoadingChats) && store.items == old(store.items)
      ensures refreshed && buyerChats.Ok? && sellerChats.Ok? ==>
        && chats == ChatList(buyerChats.value, sellerChats.value, auth.user.value.id, profiles)
        && !isLoadingChats
        && store.items == old(store.items)[ChatsKey(auth.user.value.id) := ChatsJson(chats, now)]
      ensures refreshed && (buyerChats.Err? || sellerChats.Err?) ==>
        && chats == (if old(StoredChats(auth.user.value.id)).Some? then old(StoredChats(auth.user.value.id)).value.0 else old(chats))
        && !isLoadingChats
        && store.items == old(store.items)
    {
      if auth.user.None? {
        return false;
      }
      var stored := StoredChats(auth.user.value.id);
      if stored.Some? {
        chats := stored.value.0;
        isLoadingChats := false;
        if IsExpired(now, stored.value.1) {
          RefreshChats(now, buyerChats, sellerChats, profiles);
          return true;
        }
        return false;
      }
      RefreshChats(now, buyerChats, sellerChats, profiles);
      refreshed := true;
    }

    /** `clearCacheOnLogout`: removes exactly the chat and message keys, whoever they belong to. */
    method ClearCacheOnLogout()
      modifies store
      ensures store.items == old(store.items) - ChatCacheKeys(old(store.items).Keys)
    {
      var chatKeys := ChatCacheKeys(store.items.Keys);
      if |chatKeys| > 0 {
        store.MultiRemove(chatKeys);
      }
    }

    /** `clearCache`: the user's chat list key and every message key, then the in-memory state. */
    method ClearCache()
      modifies this, store
      ensures isLoadingChats == old(isLoadingChats)
      ensures auth.user.None? ==> chats == old(chats) && messageCache == old(messageCache) && store.items == old(store.items)
      ensures auth.user.Some? ==>
        && chats == [] && messageCache == map[]
        && store.items == (old(store.items) - {ChatsKey(auth.user.value.id)})
                          - (set k | k in old(store.items) && StartsWith(k, MessagesPrefix))
    {
      if auth.user.None? {
        return;
      }
      store.RemoveItem(ChatsKey(auth.user.value.id));
      var messageKeys := set k | k in store.items && StartsWith(k, MessagesPrefix);
      store.MultiRemove(messageKeys);
      messageCache := map[];
      chats := [];
    }

    /**
     * The effect run when the user changes: with a user, the cached chat list
     * is loaded; without one, the chat state is emptied and every chat cache
     * key is removed from storage.
     */
    method OnUserChanged(now: int, buyerChats: Result<seq<Chat>>, sellerChats: Result<seq<Chat>>, profiles: map<string, string>)
      returns (refreshed: bool)
      modifies this, store
      ensures auth.user.None? ==>
        && !refreshed
        && chats == [] && messageCache == map[] && !isLoadingChats
        && store.items == old(store.items) - ChatCacheKeys(old(store.items).Keys)
      ensures auth.user.Some? ==> messageCache == old(messageCache)
      ensures auth.user.Some? ==>
        (refreshed <==> old(StoredChats(auth.user.value.id)).None? || IsExpired(now, old(StoredChats(auth.user.value.id)).value.1))
      ensures auth.user.Some? && !refreshed ==>
        chats == old(StoredChats(auth.user.value.id)).value.0 && !isLoadingChats && store.items == old(store.items)
      ensures refreshed && buyerChats.Ok? && sellerChats.Ok? ==>
        && chats == ChatList(buyerChats.value, sellerChats.value, auth.user.value.id, profiles)
        && !isLoadingChats
        && store.items == old(store.items)[ChatsKey(auth.user.value.id) := ChatsJson(chats, now)]
      ensures refreshed && (buyerChats.Err? || sellerChats.Err?) ==>
        && chats == (if old(StoredChats(auth.user.value.id)).Some? then old(StoredChats(auth.user.value.id)).value.0 else old(chats))
        && !isLoadingChats
        && store.items == old(store.items)
    {
      refreshed := false;
      if auth.user.Some? {
        refreshed := LoadCachedChats(now, buyerChats, sellerChats, profiles);
      } else {
        chats := [];
        messageCache := map[];
        isLoadingChats := false;
        ClearCacheOnLogout();
      }
    }
  }

  /**
   * After a successful send into a cached chat, the stored copy is the list as
   * it was before the send: it lacks the server message that the in-memory
   * list now ends with.
   */
  lemma PersistedCopyLacksSentMessage(before: seq<Message>, temp: Message, server: Message)
    requires temp.id !in IdsOfMessages(before)
    ensures ReplaceById(before, temp.id, server) == before
    ensures ReplaceById(before + [temp], temp.id, server) == before + [server]
  {
    ReplaceAbsentId(before, temp.id, server);
    SwapInPlace(before, temp, server);
  }
}
