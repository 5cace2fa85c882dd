/** The chat page: how a conversation is keyed, which messages a conversation
    shows, the sidebar of existing conversations and new contacts, sending
    (with the `@aura` assistant command), the two deletes, and the shared
    video ("nobar") session with its YouTube embed address. */
module ChatPage {
  import opened Types
  import opened Strings
  import opened Seqs
  import opened App
  import opened Search

  /** `CHAT_ID_SEPARATOR` */
  const Separator := "::"

  // ---------------------------------------------------------------------------
  // Conversation identity

  /** `[a, b].sort().join('::')`: the two identifiers in ascending string order
      joined by the separator. */
  function ChatKey(a: string, b: string): (r: string)
    ensures r == a + Separator + b || r == b + Separator + a
    ensures |r| == |a| + |b| + |Separator|
  {
    if LexLess(b, a) then b + Separator + a else a + Separator + b
  }

  /** The key does not depend on which participant builds it. */
  lemma ChatKeySymmetric(a: string, b: string)
    ensures ChatKey(a, b) == ChatKey(b, a)
  {
    LexTrichotomy(a, b);
  }

  predicate NoColon(s: string) {
    forall i :: 0 <= i < |s| ==> s[i] != ':'
  }

  /** `chatId.split('::')`: the pieces between the leftmost non-overlapping
      occurrences of the separator. */
  function SplitKey(s: string): (r: seq<string>)
    ensures |r| >= 1
    decreases |s|
  {
    if |s| < 2 then [s]
    else if s[0] == ':' && s[1] == ':' then [""] + SplitKey(s[2..])
    else
      var rest := SplitKey(s[1..]);
      [[s[0]] + rest[0]] + rest[1..]
  }

  lemma {:induction false} SplitKeyNoColon(s: string)
    requires NoColon(s)
    ensures SplitKey(s) == [s]
    decreases |s|
  {
    if |s| >= 2 {
      SplitKeyNoColon(s[1..]);
      assert s == [s[0]] + s[1..];
    }
  }

  /** Splitting `a + "::" + t` with a colon-free `a` gives `a` and then the
      pieces of `t`. */
  lemma {:induction false} SplitKeyJoin(a: string, t: string)
    requires NoColon(a)
    ensures SplitKey(a + Separator + t) == [a] + SplitKey(t)
    decreases |a|
  {
    var s := a + Separator + t;
    if |a| == 0 {
      assert s[2..] == t;
    } else {
      assert s[1..] == a[1..] + Separator + t;
      SplitKeyJoin(a[1..], t);
      assert s[0] == a[0] && [a[0]] + a[1..] == a;
    }
  }

  /** Splitting a key built from two colon-free identifiers gives them back
      in key order. */
  lemma SplitChatKey(a: string, b: string)
    requires NoColon(a) && NoColon(b)
    ensures SplitKey(ChatKey(a, b)) == if LexLess(b, a) then [b, a] else [a, b]
  {
    SplitKeyNoColon(a);
    SplitKeyNoColon(b);
    if LexLess(b, a) { SplitKeyJoin(b, a); } else { SplitKeyJoin(a, b); }
  }

  /** A window as long as either part that starts strictly inside a key
      covers a separator colon. */
  lemma SeparatorInsideWindow(x: string, y: string, u: string, i: int)
    requires |x| == |y| == |u| > 0 && 0 < i < |x| + 2
    requires OccursAt(x + Separator + y, u, i)
    ensures !NoColon(u)
  {
    var k, n := x + Separator + y, |x|;
    var idx := if i <= n then n else n + 1;
    assert k[idx] == ':';
    assert u[idx - i] == k[i..i + n][idx - i];
  }

  /** With identifiers of one fixed length and no colon (as the backend's
      UUIDs are), a key mentions a user exactly when that user is one of its
      two participants, so the substring test of the sidebar and of the
      realtime handler selects exactly the user's own conversations. */
  lemma ChatKeyMentions(a: string, b: string, u: string)
    requires NoColon(a) && NoColon(b) && NoColon(u)
    requires |a| == |b| == |u|
    ensures Contains(ChatKey(a, b), u) <==> u == a || u == b
  {
    var n := |u|;
    var x, y := if LexLess(b, a) then b else a, if LexLess(b, a) then a else b;
    var k := x + Separator + y;
    assert k == ChatKey(a, b);
    if Contains(k, u) {
      var i :| 0 <= i <= |k| - |u| && OccursAt(k, u, i);
      if i == 0 || n == 0 {
        assert u == k[..n] == x;
      } else if i == n + 2 {
        assert u == k[n + 2..] == y;
      } else {
        SeparatorInsideWindow(x, y, u, i);
      }
    }
    if u == x {
      assert OccursAt(k, u, 0);
    }
    if u == y {
      assert |k| == n + 2 + n && k[n + 2..n + 2 + n] == y;
      assert OccursAt(k, u, n + 2);
    }
  }

  function HasUid(uid: string): User -> bool {
    (u: User) => u.uid == uid
  }

  function HasUsername(name: string): User -> bool {
    (u: User) => u.username == name
  }

  /** `activeChatId`: the key of the conversation with the first user whose
      user name is the routed `partnerId`; none without a route parameter or
      without such a user. */
  function ActiveChatIdOf(me: User, users: seq<User>, partnerId: Option<string>): (r: Option<string>)
    ensures r.None? <==> partnerId.None? || forall i :: 0 <= i < |users| ==> users[i].username != partnerId.value
    ensures r.Some? ==> exists i | 0 <= i < |users| :: users[i].username == partnerId.value
                                                   && r.value == ChatKey(me.uid, users[i].uid)
  {
    if partnerId.None? then None
    else match Find(users, HasUsername(partnerId.value))
      case None => None
      case Some(p) => Some(ChatKey(me.uid, p.uid))
  }

  // ---------------------------------------------------------------------------
  // The message list of one conversation

  function InChat(chatId: string): Message -> bool {
    (m: Message) => m.chatId == chatId
  }

  function NotInChat(chatId: string): Message -> bool {
    (m: Message) => m.chatId != chatId
  }

  function IdIsNot(id: string): Message -> bool {
    (m: Message) => m.messageId != id
  }

  /** `chatMessages`: the messages of the active conversation, in list order;
      nothing without an active conversation. */
  function ChatView(ms: seq<Message>, key: Option<string>): (r: seq<Message>)
    ensures key.None? ==> r == []
    ensures key.Some? ==> forall i :: 0 <= i < |r| ==> r[i].chatId == key.value && r[i] in ms
    ensures key.Some? ==> forall i :: 0 <= i < |ms| && ms[i].chatId == key.value ==> ms[i] in r
  {
    if key.None? then [] else Filter(ms, InChat(key.value))
  }

  /** The view keeps the list's order: a message appended to the list is
      appended to its own conversation's view and to no other. */
  lemma ChatViewAppend(ms: seq<Message>, m: Message, key: string)
    ensures ChatView(ms + [m], Some(key)) == ChatView(ms, Some(key)) + (if m.chatId == key then [m] else [])
  {
    FilterAppend(ms, m, InChat(key));
  }

  /** The view of a concatenation is the concatenation of the views. */
  lemma ChatViewConcat(a: seq<Message>, b: seq<Message>, key: string)
    ensures ChatView(a + b, Some(key)) == ChatView(a, Some(key)) + ChatView(b, Some(key))
  {
    FilterConcat(a, b, InChat(key));
  }

  // ---------------------------------------------------------------------------
  // Deletes

  /** `prev.filter(m => m.messageId !== id)` */
  function WithoutMessage(ms: seq<Message>, id: string): (r: seq<Message>)
    ensures forall i :: 0 <= i < |r| ==> r[i] in ms && r[i].messageId != id
    ensures forall i :: 0 <= i < |ms| && ms[i].messageId != id ==> ms[i] in r
  {
    Filter(ms, IdIsNot(id))
  }

  /** `prev.filter(m => m.chatId !== chatId)` */
  function WithoutChat(ms: seq<Message>, chatId: string): (r: seq<Message>)
    ensures forall i :: 0 <= i < |r| ==> r[i] in ms && r[i].chatId != chatId
    ensures forall i :: 0 <= i < |ms| && ms[i].chatId != chatId ==> ms[i] in r
  {
    Filter(ms, NotInChat(chatId))
  }

  /** Deleting a message removes every copy of its identifier and keeps the
      messages of every other identifier, in order. */
  lemma WithoutMessageExact(ms: seq<Message>, id: string, other: string)
    requires other != id
    ensures CountId(WithoutMessage(ms, id), id) == 0
    ensures Filter(WithoutMessage(ms, id), MessageIdIs(other)) == Filter(ms, MessageIdIs(other))
  {
    FilterKeepsNone(WithoutMessage(ms, id), MessageIdIs(id));
    FilterImplied(ms, IdIsNot(id), MessageIdIs(other));
  }

  /** Deleting a message takes it out of its conversation's view and leaves
      the rest of that view in order. */
  lemma {:induction false} WithoutMessageView(ms: seq<Message>, id: string, key: string)
    ensures ChatView(WithoutMessage(ms, id), Some(key)) == Filter(ChatView(ms, Some(key)), IdIsNot(id))
    decreases |ms|
  {
    if |ms| > 0 {
      var t := ms[1..];
      WithoutMessageView(t, id, key);
      assert ms == [ms[0]] + t;
      FilterPrepend(ms[0], t, IdIsNot(id));
      FilterPrepend(ms[0], t, InChat(key));
      var h := if IdIsNot(id)(ms[0]) then [ms[0]] else [];
      FilterConcat(h, WithoutMessage(t, id), InChat(key));
      var g := if InChat(key)(ms[0]) then [ms[0]] else [];
      FilterConcat(g, ChatView(t, Some(key)), IdIsNot(id));
      FilterSingleton(ms[0], InChat(key));
      FilterSingleton(ms[0], IdIsNot(id));
    }
  }

  /** Deleting a conversation empties its view and leaves every other
      conversation's view as it was. */
  lemma WithoutChatView(ms: seq<Message>, chatId: string, key: string)
    ensures ChatView(WithoutChat(ms, chatId), Some(key)) == if key == chatId then [] else ChatView(ms, Some(key))
  {
    if key == chatId {
      FilterKeepsNone(WithoutChat(ms, chatId), InChat(key));
    } else {
      FilterImplied(ms, NotInChat(chatId), InChat(key));
    }
  }

  // ---------------------------------------------------------------------------
  // Sending

  /** `inputText.toLowerCase().startsWith('@aura')` */
  predicate IsAuraCommand(text: string)
    ensures IsAuraCommand(text) <==> |text| >= 5 && Lower(text)[..5] == "@aura"
  {
    StartsWith(Lower(text), "@aura")
  }

  /** The command is recognised in any letter case. */
  lemma AuraCommandCaseInsensitive(text: string)
    ensures IsAuraCommand(text) <==> IsAuraCommand(Lower(text))
    ensures IsAuraCommand(text) ==> |text| >= 5
  {
    LowerIdempotent(text);
  }

  /** `inputText.slice(5).trim()`: what the assistant is asked. */
  function AuraPrompt(text: string): (r: string)
    ensures |r| > 0 ==> !IsSpace(r[0]) && !IsSpace(r[|r| - 1])
    ensures |text| <= 5 ==> r == ""
  {
    if |text| >= 5 then Trim(text[5..]) else ""
  }

  /** The message the user typed, as appended locally. */
  function UserMessage(key: string, uid: string, text: string, now: int): (m: Message)
    ensures m.messageId == IntToString(now) && m.chatId == key && m.senderId == uid
    ensures m.text == text && m.timestamp == now && m.isAi.None? && !IsNobarInvite(m)
  {
    Message(IntToString(now), key, uid, text, now, None, None)
  }

  /** The assistant's answer, as appended locally. */
  function AssistantMessage(key: string, reply: string, replyNow: int): (m: Message)
    ensures m.messageId == IntToString(replyNow + 1) && m.chatId == key && m.senderId == AssistantSender
    ensures m.text == reply && m.timestamp == replyNow && m.isAi == Some(true) && !IsNobarInvite(m)
  {
    Message(IntToString(replyNow + 1), key, AssistantSender, reply, replyNow, Some(true), None)
  }

  /** What one send appends: the user's message and, for an `@aura` command,
      the assistant's answer after it. */
  function Outgoing(key: string, uid: string, text: string, now: int,
                    assistant: string -> string, replyNow: int): (r: seq<Message>)
    ensures forall i :: 0 <= i < |r| ==> r[i].chatId == key
  {
    var user := UserMessage(key, uid, text, now);
    if IsAuraCommand(text) then [user, AssistantMessage(key, assistant(AuraPrompt(text)), replyNow)]
    else [user]
  }

  /** `handleSendMessage` on the message list. `now` is the clock when the
      message is sent, `replyNow` the clock when the assistant has answered,
      and `assistant` stands for `getAiResponse`, which always yields some
      text. */
  function Sent(ms: seq<Message>, key: Option<string>, uid: string, text: string, now: int,
                assistant: string -> string, replyNow: int): (r: seq<Message>)
    ensures Trim(text) == "" || key.None? ==> r == ms
    ensures Trim(text) != "" && key.Some? ==>
              |r| == |ms| + (if IsAuraCommand(text) then 2 else 1) && r[..|ms|] == ms
              && r[|ms|].senderId == uid && r[|ms|].chatId == key.value
              && r[|ms|].text == text && r[|ms|].timestamp == now
    ensures Trim(text) != "" && key.Some? && IsAuraCommand(text) ==>
              |r| == |ms| + 2 && r[|ms| + 1].senderId == AssistantSender && r[|ms| + 1].isAi == Some(true)
              && r[|ms| + 1].chatId == key.value
              && r[|ms| + 1].messageId == IntToString(replyNow + 1)
              && r[|ms| + 1].text == assistant(AuraPrompt(text))
  {
    if Trim(text) == "" || key.None? then ms
    else ms + Outgoing(key.value, uid, text, now, assistant, replyNow)
  }

  /** A send that goes through appends what `Outgoing` builds. */
  lemma SentAppends(ms: seq<Message>, key: string, uid: string, text: string, now: int,
                    assistant: string -> string, replyNow: int)
    requires Trim(text) != ""
    ensures Sent(ms, Some(key), uid, text, now, assistant, replyNow)
         == ms + Outgoing(key, uid, text, now, assistant, replyNow)
  {
  }

  /** Appending messages of one chat extends that chat's view by exactly
      them and leaves every other view alone. */
  lemma ViewAfterAppend(ms: seq<Message>, added: seq<Message>, key: string, other: string)
    requires forall i :: 0 <= i < |added| ==> added[i].chatId == key
    ensures ChatView(ms + added, Some(key)) == ChatView(ms, Some(key)) + added
    ensures other != key ==> ChatView(ms + added, Some(other)) == ChatView(ms, Some(other))
  {
    ChatViewConcat(ms, added, key);
    FilterKeepsAll(added, InChat(key));
    if other != key {
      ChatViewConcat(ms, added, other);
      FilterKeepsNone(added, InChat(other));
    }
  }

  /** Sending adds to the active view exactly the new messages, after the
      ones it already showed, and leaves every other view alone. */
  lemma SentView(ms: seq<Message>, key: string, other: string, uid: string, text: string, now: int,
                 assistant: string -> string, replyNow: int)
    requires Trim(text) != ""
    ensures var r := Sent(ms, Some(key), uid, text, now, assistant, replyNow);
            ChatView(r, Some(key)) == ChatView(ms, Some(key)) + r[|ms|..]
            && (other != key ==> ChatView(r, Some(other)) == ChatView(ms, Some(other)))
  {
    var added := Outgoing(key, uid, text, now, assistant, replyNow);
    ViewAfterAppend(ms, added, key, other);
    assert (ms + added)[|ms|..] == added;
  }

  // ---------------------------------------------------------------------------
  // Sidebar

  /** The distinct chat identifiers that mention `uid`, in order of first
      appearance: the `existingChatIds` set as `Array.from` lists it. */
  function ChatIdsOf(ms: seq<Message>, uid: string): (r: seq<string>)
    ensures forall i, j :: 0 <= i < j < |r| ==> r[i] != r[j]
    ensures forall i :: 0 <= i < |r| ==> Contains(r[i], uid) && Any(ms, InChat(r[i]))
    ensures forall j :: 0 <= j < |ms| && Contains(ms[j].chatId, uid) ==> ms[j].chatId in r
  {
    if |ms| == 0 then []
    else
      var init := ms[..|ms| - 1];
      var rest := ChatIdsOf(init, uid);
      var c := ms[|ms| - 1].chatId;
      assert forall i :: 0 <= i < |rest| && Any(init, InChat(rest[i])) ==> Any(ms, InChat(rest[i])) by {
        forall i | 0 <= i < |rest| && Any(init, InChat(rest[i])) ensures Any(ms, InChat(rest[i])) {
          var j :| 0 <= j < |init| && InChat(rest[i])(init[j]);
          assert InChat(rest[i])(ms[j]);
        }
      }
      assert InChat(c)(ms[|ms| - 1]);
      assert forall j :: 0 <= j < |ms| - 1 ==> ms[j] == init[j];
      if Contains(c, uid) && c !in rest then rest + [c] else rest
  }

  /** The `messages.forEach` loop that collects `existingChatIds`. */
  method CollectChatIds(ms: seq<Message>, uid: string) returns (ids: seq<string>)
    ensures ids == ChatIdsOf(ms, uid)
  {
    ids := [];
    var seen: set<string> := {};
    var i := 0;
    while i < |ms|
      invariant 0 <= i <= |ms|
      invariant ids == ChatIdsOf(ms[..i], uid)
      invariant forall c :: c in seen <==> c in ids
    {
      assert ms[..i + 1][..i] == ms[..i];
      var c := ms[i].chatId;
      if Contains(c, uid) && c !in seen {
        ids := ids + [c];
        seen := seen + {c};
      }
      i := i + 1;
    }
    assert ms[..i] == ms;
  }

  function IsNot(uid: string): string -> bool {
    (s: string) => s != uid
  }

  /** The partner of a conversation: the first piece of its key that is not
      `uid`, looked up among the users. */
  function ResolvePartner(chatId: string, users: seq<User>, uid: string): (r: Option<User>)
    ensures r.Some? ==> r.value in users && r.value.uid != uid && r.value.uid in SplitKey(chatId)
  {
    match Find(SplitKey(chatId), IsNot(uid))
    case None => None
    case Some(other) => Find(users, HasUid(other))
  }

  /** A conversation with oneself has no partner and never shows. */
  lemma SelfChatHasNoPartner(uid: string, users: seq<User>)
    requires NoColon(uid)
    ensures ResolvePartner(ChatKey(uid, uid), users, uid) == None
  {
    LexTrichotomy(uid, uid);
    SplitChatKey(uid, uid);
  }

  /** The sidebar resolves the partner of a key built for two different
      users to the first user carrying the other identifier. */
  lemma ResolvePartnerOfChatKey(me: string, other: string, users: seq<User>)
    requires NoColon(me) && NoColon(other) && me != other
    ensures ResolvePartner(ChatKey(me, other), users, me) == Find(users, HasUid(other))
  {
    SplitChatKey(me, other);
    var parts := SplitKey(ChatKey(me, other));
    if LexLess(other, me) {
      assert parts == [other, me] && IsNot(me)(parts[0]);
    } else {
      assert parts == [me, other] && !IsNot(me)(parts[0]) && IsNot(me)(parts[1]);
    }
  }

  function NegTimestamp(m: Message): int { -m.timestamp }

  /** `filter(...).sort((a, b) => b.timestamp - a.timestamp)[0]`: the newest
      message; among equally new ones the earliest in the list, as the sort is
      stable. */
  function Latest(s: seq<Message>): (r: Message)
    requires |s| > 0
    ensures r in s
    ensures forall i :: 0 <= i < |s| ==> s[i].timestamp <= r.timestamp
  {
    var sorted := SortByKey(s, NegTimestamp);
    assert sorted[0] in multiset(s);
    assert forall i :: 0 <= i < |s| ==> s[i] in multiset(sorted);
    sorted[0]
  }

  /** Among the messages as new as the latest, it is the first in list order. */
  lemma LatestIsFirstNewest(s: seq<Message>)
    requires |s| > 0
    ensures Latest(s) == Filter(s, KeyIs(NegTimestamp, NegTimestamp(Latest(s))))[0]
  {
    var sorted := SortByKey(s, NegTimestamp);
    var p := KeyIs(NegTimestamp, NegTimestamp(sorted[0]));
    SortByKeyStable(s, NegTimestamp, NegTimestamp(sorted[0]));
    FilterHead(sorted, p);
  }

  /** The newest message of the chat `chatId`, which must have one. */
  function ChatLatest(ms: seq<Message>, chatId: string): (r: Message)
    requires Any(ms, InChat(chatId))
    ensures r in ms && r.chatId == chatId
    ensures forall j :: 0 <= j < |ms| && ms[j].chatId == chatId ==> ms[j].timestamp <= r.timestamp
  {
    var inChat := Filter(ms, InChat(chatId));
    assert |inChat| > 0 by {
      var j :| 0 <= j < |ms| && InChat(chatId)(ms[j]);
      assert ms[j] in inChat;
    }
    var r := Latest(inChat);
    assert forall j :: 0 <= j < |ms| && ms[j].chatId == chatId ==> ms[j] in inChat;
    r
  }

  datatype Conversation = Conversation(partner: User, lastMsg: Message, chatId: string)

  /** One entry of `conversations`: the chat's partner, if found, with the
      chat's newest message. (Every chat identifier collected from the list
      has a message, so the first test always passes.) */
  function ToConversation(ms: seq<Message>, users: seq<User>, uid: string): string -> Option<Conversation> {
    (chatId: string) =>
      if !Any(ms, InChat(chatId)) then None
      else match ResolvePartner(chatId, users, uid)
        case None => None
        case Some(p) => Some(Conversation(p, ChatLatest(ms, chatId), chatId))
  }

  /** `conversations`: the collected chats mapped to their partner and latest
      message, keeping only those whose partner was found. */
  function Conversations(ids: seq<string>, ms: seq<Message>, users: seq<User>, uid: string): (r: seq<Conversation>)
    ensures |r| <= |ids|
    ensures forall j :: 0 <= j < |r| ==>
              r[j].chatId in ids && ResolvePartner(r[j].chatId, users, uid) == Some(r[j].partner)
              && Any(ms, InChat(r[j].chatId)) && r[j].lastMsg == ChatLatest(ms, r[j].chatId)
  {
    FilterMap(ids, ToConversation(ms, users, uid))
  }

  function ConversationMatches(query: string): Conversation -> bool {
    (c: Conversation) => NameMatches(c.partner, query)
  }

  function NegLastTimestamp(c: Conversation): int { -c.lastMsg.timestamp }

  /** Whether some conversation has the user `uid` as its partner:
      `existingPartnerUids.has(uid)`. */
  predicate IsPartner(convs: seq<Conversation>, uid: string) {
    exists i | 0 <= i < |convs| :: convs[i].partner.uid == uid
  }

  lemma PartnerAt(convs: seq<Conversation>, j: int)
    requires 0 <= j < |convs|
    ensures IsPartner(convs, convs[j].partner.uid)
  {
  }

  lemma PartnerIn(convs: seq<Conversation>, c: Conversation)
    requires c in convs
    ensures IsPartner(convs, c.partner.uid)
  {
    var j :| 0 <= j < |convs| && convs[j] == c;
    PartnerAt(convs, j);
  }

  function GlobalCandidate(me: string, convs: seq<Conversation>, query: string): User -> bool {
    (u: User) => u.uid != me && !IsPartner(convs, u.uid) && NameMatches(u, query)
  }

  datatype Sidebar = Sidebar(existing: seq<Conversation>, global: seq<User>)

  /** `sidebarData`. The "new chat" group is empty for an empty query and
      offers only other users that match it. */
  function SidebarOf(ms: seq<Message>, users: seq<User>, me: string, query: string): (r: Sidebar)
    ensures |query| == 0 ==> r.global == []
    ensures forall i :: 0 <= i < |r.global| ==> r.global[i] in users && r.global[i].uid != me && NameMatches(r.global[i], query)
  {
    var convs := Conversations(ChatIdsOf(ms, me), ms, users, me);
    var existing := SortByKey(Filter(convs, ConversationMatches(query)), NegLastTimestamp);
    var global := if |query| > 0 then Filter(users, GlobalCandidate(me, convs, query)) else [];
    Sidebar(existing, global)
  }

  /** A conversation built for the user is one of their chats, with its
      resolved partner and that chat's newest message. */
  lemma ListedConversation(ms: seq<Message>, users: seq<User>, me: string, c: Conversation)
    requires c in Conversations(ChatIdsOf(ms, me), ms, users, me)
    ensures Contains(c.chatId, me) && ResolvePartner(c.chatId, users, me) == Some(c.partner)
    ensures Any(ms, InChat(c.chatId)) && c.lastMsg == ChatLatest(ms, c.chatId)
  {
    var ids := ChatIdsOf(ms, me);
    var j :| 0 <= j < |Conversations(ids, ms, users, me)| && Conversations(ids, ms, users, me)[j] == c;
    var k :| 0 <= k < |ids| && ToConversation(ms, users, me)(ids[k]) == Some(c);
  }

  /** Every listed conversation is one of the user's, has a resolved partner
      that matches the query, and carries the newest message of its chat. */
  lemma SidebarEntry(ms: seq<Message>, users: seq<User>, me: string, query: string, i: int)
    requires 0 <= i < |SidebarOf(ms, users, me, query).existing|
    ensures var c := SidebarOf(ms, users, me, query).existing[i];
            Contains(c.chatId, me)
            && ResolvePartner(c.chatId, users, me) == Some(c.partner)
            && NameMatches(c.partner, query)
            && c.lastMsg in ms && c.lastMsg.chatId == c.chatId
            && forall j :: 0 <= j < |ms| && ms[j].chatId == c.chatId ==> ms[j].timestamp <= c.lastMsg.timestamp
  {
    var ids := ChatIdsOf(ms, me);
    var convs := Conversations(ids, ms, users, me);
    var matching := Filter(convs, ConversationMatches(query));
    var e := SortByKey(matching, NegLastTimestamp);
    assert e[i] in multiset(matching);
    assert e[i] in matching;
    assert ConversationMatches(query)(e[i]);
    ListedConversation(ms, users, me, e[i]);
  }

  /** The listed conversations run from the newest to the oldest. */
  lemma SidebarNewestFirst(ms: seq<Message>, users: seq<User>, me: string, query: string)
    ensures var e := SidebarOf(ms, users, me, query).existing;
            forall i, j :: 0 <= i < j < |e| ==> e[i].lastMsg.timestamp >= e[j].lastMsg.timestamp
  {
    var e := SidebarOf(ms, users, me, query).existing;
    assert SortedBy(e, NegLastTimestamp);
    forall i, j | 0 <= i < j < |e| ensures e[i].lastMsg.timestamp >= e[j].lastMsg.timestamp {
      assert NegLastTimestamp(e[i]) <= NegLastTimestamp(e[j]);
    }
  }

  /** The "new chat" group never offers anyone the user already has a
      conversation with, whether or not that conversation matches the query:
      for every message of a chat of the user's whose partner resolves, that
      partner is not offered. */
  lemma SidebarGlobalExcludesPartners(ms: seq<Message>, users: seq<User>, me: string, query: string, i: int, c: int)
    requires 0 <= i < |SidebarOf(ms, users, me, query).global|
    requires 0 <= c < |ms| && Contains(ms[c].chatId, me) && ResolvePartner(ms[c].chatId, users, me).Some?
    ensures ResolvePartner(ms[c].chatId, users, me).value.uid != SidebarOf(ms, users, me, query).global[i].uid
  {
    var convs := Conversations(ChatIdsOf(ms, me), ms, users, me);
    var g := SidebarOf(ms, users, me, query).global;
    ChatIsListed(ms, users, me, c);
    assert GlobalCandidate(me, convs, query)(g[i]);
  }

  /** The listed conversations are exactly the user's conversations whose
      partner matches the query, each once: only their order changes. */
  lemma SidebarExistingExact(ms: seq<Message>, users: seq<User>, me: string, query: string)
    ensures multiset(SidebarOf(ms, users, me, query).existing)
         == multiset(Filter(Conversations(ChatIdsOf(ms, me), ms, users, me), ConversationMatches(query)))
  {
  }

  /** A conversation's chat determines the conversation. */
  lemma ToConversationChat(ms: seq<Message>, users: seq<User>, uid: string, chatId: string)
    requires ToConversation(ms, users, uid)(chatId).Some?
    ensures ToConversation(ms, users, uid)(chatId).value.chatId == chatId
  {
  }

  /** Distinct chats give distinct conversations. */
  lemma ConversationsNoDuplicates(ids: seq<string>, ms: seq<Message>, users: seq<User>, uid: string)
    requires NoDuplicates(ids)
    ensures NoDuplicates(Conversations(ids, ms, users, uid))
  {
    var f := ToConversation(ms, users, uid);
    forall i, j | 0 <= i < j < |ids| && f(ids[i]).Some? ensures f(ids[i]) != f(ids[j]) {
      ToConversationChat(ms, users, uid, ids[i]);
      if f(ids[j]).Some? {
        ToConversationChat(ms, users, uid, ids[j]);
      }
    }
    FilterMapNoDuplicates(ids, f);
  }

  /** Two conversations of the list with the same chat are the same. */
  lemma ConversationsSameChat(ids: seq<string>, ms: seq<Message>, users: seq<User>, uid: string, a: Conversation, b: Conversation)
    requires a in Conversations(ids, ms, users, uid) && b in Conversations(ids, ms, users, uid)
    requires a.chatId == b.chatId
    ensures a == b
  {
    var convs := Conversations(ids, ms, users, uid);
    var ka :| 0 <= ka < |convs| && convs[ka] == a;
    var kb :| 0 <= kb < |convs| && convs[kb] == b;
  }

  /** The existing group lists each chat at most once. */
  lemma SidebarExistingOnce(ms: seq<Message>, users: seq<User>, me: string, query: string)
    ensures var e := SidebarOf(ms, users, me, query).existing;
            forall i, j :: 0 <= i < j < |e| ==> e[i].chatId != e[j].chatId
  {
    var ids := ChatIdsOf(ms, me);
    ConversationsNoDuplicates(ids, ms, users, me);
    var convs := Conversations(ids, ms, users, me);
    var matching := Filter(convs, ConversationMatches(query));
    FilterNoDuplicates(convs, ConversationMatches(query));
    var e := SortByKey(matching, NegLastTimestamp);
    PermutationNoDuplicates(e, matching);
    forall i, j | 0 <= i < j < |e| ensures e[i].chatId != e[j].chatId {
      assert e[i] in multiset(matching) && e[j] in multiset(matching);
      if e[i].chatId == e[j].chatId {
        ConversationsSameChat(ids, ms, users, me, e[i], e[j]);
      }
    }
  }

  /** Every chat of the user's whose partner resolves and matches the query
      is listed, with that partner and the chat's newest message. */
  lemma SidebarListsChat(ms: seq<Message>, users: seq<User>, me: string, query: string, c: int)
    requires 0 <= c < |ms| && Contains(ms[c].chatId, me) && ResolvePartner(ms[c].chatId, users, me).Some?
    requires NameMatches(ResolvePartner(ms[c].chatId, users, me).value, query)
    ensures Conversation(ResolvePartner(ms[c].chatId, users, me).value, ChatLatest(ms, ms[c].chatId), ms[c].chatId)
            in SidebarOf(ms, users, me, query).existing
  {
    var ids := ChatIdsOf(ms, me);
    var convs := Conversations(ids, ms, users, me);
    var conv := Conversation(ResolvePartner(ms[c].chatId, users, me).value, ChatLatest(ms, ms[c].chatId), ms[c].chatId);
    assert ms[c].chatId in ids;
    ToConversationOf(ms, users, me, c);
    FilterMapMember(ids, ToConversation(ms, users, me), ms[c].chatId);
    assert conv in convs;
    var j :| 0 <= j < |convs| && convs[j] == conv;
    assert ConversationMatches(query)(convs[j]);
    var matching := Filter(convs, ConversationMatches(query));
    assert conv in multiset(matching);
    SidebarExistingExact(ms, users, me, query);
  }

  /** For a non-empty query the "new chat" group holds exactly the users who
      are not the user, have no conversation with them, and match. */
  lemma SidebarGlobalExact(ms: seq<Message>, users: seq<User>, me: string, query: string, u: User)
    ensures var convs := Conversations(ChatIdsOf(ms, me), ms, users, me);
            u in SidebarOf(ms, users, me, query).global
            <==> |query| > 0 && u in users && u.uid != me && !IsPartner(convs, u.uid) && NameMatches(u, query)
  {
    var convs := Conversations(ChatIdsOf(ms, me), ms, users, me);
    var g := SidebarOf(ms, users, me, query).global;
    if u in g {
      var i :| 0 <= i < |g| && g[i] == u;
      assert GlobalCandidate(me, convs, query)(g[i]);
    }
    if |query| > 0 && u in users && u.uid != me && !IsPartner(convs, u.uid) && NameMatches(u, query) {
      var i :| 0 <= i < |users| && users[i] == u;
      assert GlobalCandidate(me, convs, query)(users[i]);
    }
  }

  /** A chat with a message and a resolvable partner maps to a conversation
      with that partner. */
  lemma ToConversationOf(ms: seq<Message>, users: seq<User>, me: string, c: int)
    requires 0 <= c < |ms| && ResolvePartner(ms[c].chatId, users, me).Some?
    ensures ToConversation(ms, users, me)(ms[c].chatId)
         == Some(Conversation(ResolvePartner(ms[c].chatId, users, me).value, ChatLatest(ms, ms[c].chatId), ms[c].chatId))
  {
    assert InChat(ms[c].chatId)(ms[c]);
  }

  /** A chat of the user's whose partner resolves makes that partner one of
      the existing partners. */
  lemma ChatIsListed(ms: seq<Message>, users: seq<User>, me: string, c: int)
    requires 0 <= c < |ms| && Contains(ms[c].chatId, me) && ResolvePartner(ms[c].chatId, users, me).Some?
    ensures IsPartner(Conversations(ChatIdsOf(ms, me), ms, users, me), ResolvePartner(ms[c].chatId, users, me).value.uid)
  {
    var ids := ChatIdsOf(ms, me);
    assert ms[c].chatId in ids;
    ToConversationOf(ms, users, me, c);
    FilterMapMember(ids, ToConversation(ms, users, me), ms[c].chatId);
    PartnerIn(Conversations(ids, ms, users, me), ToConversation(ms, users, me)(ms[c].chatId).value);
  }

  // ---------------------------------------------------------------------------
  // Shared video session

  /** `activeNobar` */
  datatype Nobar = Nobar(url: string, videoType: VideoType, startTime: int)

  const InviteText := "Let's watch a video together! \U{1F37F}"

  /** The invitation `startNobarSession` posts. */
  function NobarInvitation(key: string, uid: string, url: string, kind: VideoType, now: int): (m: Message)
    ensures IsNobarInvite(m) && m.chatId == key && m.senderId == uid && m.timestamp == now
    ensures m.metadata.value.videoUrl == Some(url) && m.metadata.value.videoType == Some(kind)
    ensures m.metadata.value.status == Some(Active) && m.metadata.value.startTime == Some(now)
  {
    Message("nobar-" + IntToString(now), key, uid, InviteText, now, None,
            Some(Metadata(Some(NobarInvite), Some(url), Some(kind), Some(Active), Some(now))))
  }

  /** Whether the "Join Nobar" button can read the video from a message. */
  predicate Joinable(m: Message) {
    IsNobarInvite(m) && m.metadata.value.videoUrl.Some? && m.metadata.value.videoType.Some?
  }

  /** The session the "Join Nobar" button opens: the invitation's video, timed
      from its start, or from the moment of joining when the start is missing
      or zero (`startTime || Date.now()`). */
  function JoinSession(m: Message, now: int): (r: Nobar)
    requires Joinable(m)
    ensures r.url == m.metadata.value.videoUrl.value && r.videoType == m.metadata.value.videoType.value
    ensures m.metadata.value.startTime.Some? && m.metadata.value.startTime.value != 0 ==>
              r.startTime == m.metadata.value.startTime.value
    ensures m.metadata.value.startTime.None? || m.metadata.value.startTime == Some(0) ==> r.startTime == now
  {
    var md := m.metadata.value;
    var start := if md.startTime.None? || md.startTime.value == 0 then now else md.startTime.value;
    Nobar(md.videoUrl.value, md.videoType.value, start)
  }

  /** Whoever joins an invitation joins the very session its sender started,
      whenever they join (a start at clock zero aside). */
  lemma JoinInvitation(key: string, uid: string, url: string, kind: VideoType, now: int, later: int)
    requires now != 0
    ensures Joinable(NobarInvitation(key, uid, url, kind, now))
    ensures JoinSession(NobarInvitation(key, uid, url, kind, now), later) == Nobar(url, kind, now)
  {
  }

  /** `Math.floor((Date.now() - startTime) / 1000)`: whole seconds since the
      session started. Not clamped: a start in the future gives a negative
      offset. */
  function ElapsedSeconds(now: int, startTime: int): (r: int)
    ensures 1000 * r <= now - startTime < 1000 * (r + 1)
  {
    (now - startTime) / 1000
  }

  /** The offset never decreases as the clock advances, and it is the floor
      of the elapsed milliseconds over a thousand. */
  lemma ElapsedSecondsMonotone(now: int, later: int, startTime: int)
    requires now <= later
    ensures ElapsedSeconds(now, startTime) <= ElapsedSeconds(later, startTime)
    ensures 1000 * ElapsedSeconds(now, startTime) <= now - startTime < 1000 * (ElapsedSeconds(now, startTime) + 1)
  {
    var a, b := ElapsedSeconds(now, startTime), ElapsedSeconds(later, startTime);
    assert now - startTime == 1000 * a + (now - startTime) % 1000;
    assert later - startTime == 1000 * b + (later - startTime) % 1000;
  }

  /** A session started one millisecond in the future has offset -1. */
  lemma ElapsedSecondsNotClamped()
    ensures ElapsedSeconds(0, 1) == -1
  {
  }

  const EmbedPrefix := "https://www.youtube-nocookie.com/embed/"
  const EmbedQuery := "?autoplay=1&mute=1&playsinline=1&rel=0&modestbranding=1&start="

  /** `getYoutubeEmbedUrl`. `extracted` is what the address pattern captures as
      the video identifier (nothing when the pattern does not match); an
      identifier of any length other than 11 makes the raw address the
      result. */
  function EmbedUrl(url: string, extracted: Option<string>, startTime: int, now: int): (r: string)
    ensures extracted.None? || |extracted.value| != 11 ==> r == url
    ensures extracted.Some? && |extracted.value| == 11 ==>
              |r| == |EmbedPrefix| + 11 + |EmbedQuery| + |IntToString(ElapsedSeconds(now, startTime))|
              && StartsWith(r, EmbedPrefix) && r[|EmbedPrefix|..|EmbedPrefix| + 11] == extracted.value
              && r[|EmbedPrefix| + 11 + |EmbedQuery|..] == IntToString(ElapsedSeconds(now, startTime))
  {
    if extracted.Some? && |extracted.value| == 11 then
      EmbedPrefix + extracted.value + EmbedQuery + IntToString(ElapsedSeconds(now, startTime))
    else url
  }

  /** Two embeds of one video at different second offsets differ, so a late
      joiner's player starts at a different point. */
  lemma EmbedUrlDistinguishesOffsets(url: string, id: string, s1: int, n1: int, s2: int, n2: int)
    requires |id| == 11
    requires EmbedUrl(url, Some(id), s1, n1) == EmbedUrl(url, Some(id), s2, n2)
    ensures ElapsedSeconds(n1, s1) == ElapsedSeconds(n2, s2)
  {
    var r := EmbedUrl(url, Some(id), s1, n1);
    IntToStringInjective(ElapsedSeconds(n1, s1), ElapsedSeconds(n2, s2));
  }

  // ---------------------------------------------------------------------------
  // The page

  class ChatPageState {
    const app: AppState
    /** The signed-in user the page is shown to. */
    const me: User
    /** The `:partnerId` route parameter. */
    var partnerId: Option<string>
    var inputText: string
    var isTyping: bool
    var searchQuery: string
    var showNobarModal: bool
    var activeNobar: Option<Nobar>

    constructor (app: AppState, me: User, partnerId: Option<string>)
      ensures this.app == app && this.me == me && this.partnerId == partnerId
      ensures inputText == "" && !isTyping && searchQuery == "" && !showNobarModal && activeNobar == None
    {
      this.app := app;
      this.me := me;
      this.partnerId := partnerId;
      inputText := "";
      isTyping := false;
      searchQuery := "";
      showNobarModal := false;
      activeNobar := None;
    }

    function ActiveChatId(): Option<string>
      reads this`partnerId, app`users
    {
      ActiveChatIdOf(me, app.users, partnerId)
    }

    function ChatMessages(): seq<Message>
      reads this, app
    {
      ChatView(app.messages, ActiveChatId())
    }

    function SidebarData(): Sidebar
      reads this, app
    {
      SidebarOf(app.messages, app.users, me.uid, searchQuery)
    }

    /** `handleSendMessage` as one step: the user's message, then (for an
        `@aura` command) the assistant's answer, are appended. */
    method SendMessage(now: int, assistant: string -> string, replyNow: int)
      modifies app`messages, this`inputText, this`isTyping
      ensures app.messages == Sent(old(app.messages), ActiveChatId(), me.uid, old(inputText), now, assistant, replyNow)
      ensures Trim(old(inputText)) == "" || ActiveChatId().None? ==>
                inputText == old(inputText) && isTyping == old(isTyping)
      ensures Trim(old(inputText)) != "" && ActiveChatId().Some? ==>
                inputText == "" && isTyping == (old(isTyping) && !IsAuraCommand(old(inputText)))
    {
      var key := ActiveChatId();
      if Trim(inputText) == "" || key.None? {
        return;
      }
      var text := inputText;
      ghost var before := app.messages;
      ghost var added := Outgoing(key.value, me.uid, text, now, assistant, replyNow);
      var user := UserMessage(key.value, me.uid, text, now);
      app.messages := app.messages + [user];
      inputText := "";
      if IsAuraCommand(text) {
        isTyping := true;
        var reply := assistant(AuraPrompt(text));
        var answer := AssistantMessage(key.value, reply, replyNow);
        app.messages := app.messages + [answer];
        isTyping := false;
        assert added == [user, answer];
        AppendTwice(before, user, answer);
      } else {
        assert added == [user];
      }
      assert app.messages == before + added;
      SentAppends(before, key.value, me.uid, text, now, assistant, replyNow);
      assert ActiveChatId() == key;
    }

    /** `handleDeleteMessage`; `confirmed` is the answer to the confirmation
        dialog. */
    method DeleteMessage(id: string, confirmed: bool)
      modifies app`messages
      ensures app.messages == if confirmed then WithoutMessage(old(app.messages), id) else old(app.messages)
    {
      if confirmed {
        app.messages := WithoutMessage(app.messages, id);
      }
    }

    /** `handleDeleteConversation`: deleting the open conversation also leaves
        it, by navigating to the bare chat route. */
    method DeleteConversation(chatId: string, confirmed: bool)
      modifies app`messages, this`partnerId
      ensures app.messages == if confirmed then WithoutChat(old(app.messages), chatId) else old(app.messages)
      ensures partnerId == if confirmed && old(ActiveChatId()) == Some(chatId) then None else old(partnerId)
    {
      if confirmed {
        var active := ActiveChatId();
        app.messages := WithoutChat(app.messages, chatId);
        if active == Some(chatId) {
          partnerId := None;
        }
      }
    }

    /** `startNobarSession` */
    method StartNobar(url: string, kind: VideoType, now: int)
      modifies app`messages, this`activeNobar, this`showNobarModal
      ensures ActiveChatId().None? ==>
                app.messages == old(app.messages) && activeNobar == old(activeNobar)
                && showNobarModal == old(showNobarModal)
      ensures ActiveChatId().Some? ==>
                app.messages == old(app.messages) + [NobarInvitation(ActiveChatId().value, me.uid, url, kind, now)]
                && activeNobar == Some(Nobar(url, kind, now)) && !showNobarModal
    {
      var key := ActiveChatId();
      if key.None? {
        return;
      }
      app.messages := app.messages + [NobarInvitation(key.value, me.uid, url, kind, now)];
      activeNobar := Some(Nobar(url, kind, now));
      showNobarModal := false;
    }

    /** The "Join Nobar" button of an invitation. */
    method JoinNobar(m: Message, now: int)
      requires Joinable(m)
      modifies this`activeNobar
      ensures activeNobar == Some(JoinSession(m, now))
    {
      activeNobar := Some(JoinSession(m, now));
    }

    /** The close button of the player. */
    method CloseNobar()
      modifies this`activeNobar
      ensures activeNobar == None
    {
      activeNobar := None;
    }
  }
}
