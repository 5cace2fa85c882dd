/** The application shell: the state every page shares (the signed-in user and
    the lists of users, savings, photos and messages), the bulk load that fills
    it, the realtime insert handler that merges pushed messages into it, and
    the sign-out that empties it. */
module App {
  import opened Types
  import opened Strings
  import opened Seqs
  import opened Database

  function MessageIdIs(id: string): Message -> bool {
    (m: Message) => m.messageId == id
  }

  /** How many messages of `ms` carry the identifier `id`. */
  function CountId(ms: seq<Message>, id: string): nat {
    |Filter(ms, MessageIdIs(id))|
  }

  /** No identifier occurs twice. */
  ghost predicate UniqueIds(ms: seq<Message>) {
    forall i, j :: 0 <= i < j < |ms| ==> ms[i].messageId != ms[j].messageId
  }

  /** The realtime INSERT handler as a function of the list before it: a row
      for a chat whose identifier does not mention `uid` is ignored, a row
      whose identifier is already in the list is absorbed, anything else is
      appended at the end. */
  function Deliver(ms: seq<Message>, uid: string, row: MessageRow): (r: seq<Message>)
    ensures |ms| <= |r| <= |ms| + 1 && r[..|ms|] == ms
    ensures |r| == |ms| + 1 <==> Contains(row.chatId, uid) && !Any(ms, MessageIdIs(row.id))
    ensures |r| == |ms| + 1 ==> r[|ms|] == RowToMessage(row)
  {
    if !Contains(row.chatId, uid) then ms
    else if Any(ms, MessageIdIs(row.id)) then ms
    else ms + [RowToMessage(row)]
  }

  lemma CountIdAppend(ms: seq<Message>, m: Message, id: string)
    ensures CountId(ms + [m], id) == CountId(ms, id) + (if m.messageId == id then 1 else 0)
  {
    FilterAppend(ms, m, MessageIdIs(id));
  }

  /** Delivery is at-most-once per identifier: afterwards the list holds a
      message with the row's identifier once if it held none and the row was
      for this user, and otherwise as many as before. */
  lemma DeliverAtMostOnce(ms: seq<Message>, uid: string, row: MessageRow)
    ensures CountId(Deliver(ms, uid, row), row.id)
         == if CountId(ms, row.id) == 0 && Contains(row.chatId, uid) then 1 else CountId(ms, row.id)
  {
    if Contains(row.chatId, uid) && !Any(ms, MessageIdIs(row.id)) {
      CountIdAppend(ms, RowToMessage(row), row.id);
      FilterKeepsNone(ms, MessageIdIs(row.id));
    }
    if Any(ms, MessageIdIs(row.id)) {
      var i :| 0 <= i < |ms| && ms[i].messageId == row.id;
      assert ms[i] in Filter(ms, MessageIdIs(row.id));
    }
  }

  /** A second delivery of the same row changes nothing. */
  lemma DeliverIdempotent(ms: seq<Message>, uid: string, row: MessageRow)
    ensures Deliver(Deliver(ms, uid, row), uid, row) == Deliver(ms, uid, row)
  {
    var once := Deliver(ms, uid, row);
    if once != ms {
      assert once[|ms|].messageId == row.id;
    }
  }

  /** Delivery never brings in a duplicate identifier. */
  lemma DeliverKeepsIdsUnique(ms: seq<Message>, uid: string, row: MessageRow)
    requires UniqueIds(ms)
    ensures UniqueIds(Deliver(ms, uid, row))
  {
  }

  /** The optimistic copy of a message and its echo from the push channel
      leave exactly one message with that identifier. */
  lemma EchoAfterLocalAppend(ms: seq<Message>, m: Message, uid: string, row: MessageRow)
    requires CountId(ms, m.messageId) == 0 && row.id == m.messageId
    ensures Deliver(ms + [m], uid, row) == ms + [m]
    ensures CountId(Deliver(ms + [m], uid, row), m.messageId) == 1
  {
    assert (ms + [m])[|ms|] == m;
    CountIdAppend(ms, m, m.messageId);
  }

  class AppState {
    /** Whether the backend's URL and key are set. */
    const configured: bool
    var currentUser: Option<User>
    var users: seq<User>
    var savings: seq<Saving>
    var photos: seq<GalleryPhoto>
    var messages: seq<Message>
    var loading: bool

    constructor (configured: bool)
      ensures this.configured == configured && currentUser == None
      ensures users == [] && savings == [] && photos == [] && messages == []
      ensures loading
    {
      this.configured := configured;
      currentUser := None;
      users, savings, photos, messages := [], [], [], [];
      loading := true;
    }

    /** The realtime channel is subscribed only when the backend is configured
        and someone is signed in. */
    predicate SubscriptionActive()
      reads this
    {
      configured && currentUser.Some?
    }

    /** `loadBackgroundData`: each list is replaced by what its query returns;
        a query that fails contributes the empty list. */
    method LoadBackgroundData(usersQ: Query<ProfileRow>, savingsQ: Query<SavingRow>,
                              messagesQ: Query<MessageRow>, photosQ: Query<PhotoRow>)
      modifies this`users, this`savings, this`messages, this`photos
      ensures users == GetUsers(configured, usersQ)
      ensures savings == GetSavings(configured, savingsQ)
      ensures messages == GetMessages(configured, messagesQ)
      ensures photos == GetPhotos(configured, photosQ)
    {
      users := GetUsers(configured, usersQ);
      savings := GetSavings(configured, savingsQ);
      messages := GetMessages(configured, messagesQ);
      photos := GetPhotos(configured, photosQ);
    }

    /** `login`: the user becomes current and the lists are loaded. */
    method LogIn(user: User, usersQ: Query<ProfileRow>, savingsQ: Query<SavingRow>,
                 messagesQ: Query<MessageRow>, photosQ: Query<PhotoRow>)
      modifies this`currentUser, this`users, this`savings, this`messages, this`photos
      ensures currentUser == Some(user)
      ensures users == GetUsers(configured, usersQ)
      ensures savings == GetSavings(configured, savingsQ)
      ensures messages == GetMessages(configured, messagesQ)
      ensures photos == GetPhotos(configured, photosQ)
    {
      currentUser := Some(user);
      LoadBackgroundData(usersQ, savingsQ, messagesQ, photosQ);
    }

    /** `onRegister`: the new profile is appended to the user list. */
    method Register(user: User)
      modifies this`users
      ensures users == old(users) + [user]
    {
      users := users + [user];
    }

    /** The SIGNED_OUT branch of the auth listener. */
    method SignOut()
      modifies this`currentUser, this`users, this`messages, this`savings, this`photos, this`loading
      ensures currentUser == None && !SubscriptionActive()
      ensures users == [] && messages == [] && savings == [] && photos == []
      ensures !loading
    {
      currentUser := None;
      users := [];
      messages := [];
      savings := [];
      photos := [];
      loading := false;
    }

    /** The realtime INSERT callback: check the chat, map the row, then
        append unless the identifier is already present. */
    method OnInsert(row: MessageRow)
      modifies this`messages
      ensures !SubscriptionActive() ==> messages == old(messages)
      ensures SubscriptionActive() ==> messages == Deliver(old(messages), currentUser.value.uid, row)
      ensures UniqueIds(old(messages)) ==> UniqueIds(messages)
    {
      if !configured || currentUser.None? {
        return;
      }
      var uid := currentUser.value.uid;
      if !Contains(row.chatId, uid) {
        return;
      }
      var msg := RowToMessage(row);
      if Any(messages, MessageIdIs(msg.messageId)) {
        return;
      }
      messages := messages + [msg];
    }
  }
}
