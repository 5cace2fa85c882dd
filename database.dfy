/** The data-access layer: how rows of the `profiles`, `messages`, `savings`
    and `gallery_photos` tables become in-memory records and back, and the
    decisions `createProfile` takes on the answers of its queries. Every query
    is replaced by its answer, passed in as a parameter. */
module Database {
  import opened Types
  import opened Strings
  import opened Seqs

  /** The answer of a `select`: its rows, or an error (the callers map both an
      error return and a thrown exception to the empty list). */
  datatype Query<T> = Rows(rows: seq<T>) | QueryFailed

  datatype ProfileRow = ProfileRow(
    id: string, username: string, displayName: string,
    photoUrl: Option<string>, role: Role, createdAt: int)

  /** `sender_id` is null for the assistant. */
  datatype MessageRow = MessageRow(
    id: string, chatId: string, senderId: Option<string>, text: string,
    createdAt: int, isAi: Option<bool>, metadata: Option<Metadata>)

  /** `profileName` is the joined `profiles(display_name)`, absent when the
      join finds no profile. */
  datatype SavingRow = SavingRow(
    id: string, userId: string, profileName: Option<string>, amount: int,
    paymentMethod: PaymentMethod, proofImageUrl: string, status: SavingStatus,
    createdAt: int)

  datatype PhotoRow = PhotoRow(
    id: string, imageUrl: string, title: string, caption: string,
    uploadedBy: string, profileName: Option<string>, isPublic: bool,
    createdAt: int)

  /** JavaScript's `x || fallback` on a nullable string: null and "" fall back. */
  function OrElse(x: Option<string>, fallback: string): (r: string)
    ensures x.Some? && x.value != "" ==> r == x.value
    ensures x.None? || x.value == "" ==> r == fallback
  {
    if x.Some? && x.value != "" then x.value else fallback
  }

  function DefaultPhotoUrl(id: string): string {
    "https://picsum.photos/seed/" + id + "/200"
  }

  /** The handle shown in the app is the user name with an '@' in front. */
  predicate HasHandle(u: User) {
    u.userId == "@" + u.username
  }

  /** The profile mapper of `getUsers` and `getProfile`. */
  function ProfileToUser(p: ProfileRow): (u: User)
    ensures HasHandle(u) && u.uid == p.id && u.username == p.username
    ensures u.email == "" && u.password == ""
    ensures u.photoUrl != ""
    ensures p.photoUrl.Some? && p.photoUrl.value != "" ==> u.photoUrl == p.photoUrl.value
    ensures p.photoUrl.None? || p.photoUrl.value == "" ==> u.photoUrl == DefaultPhotoUrl(p.id)
    ensures u.displayName == p.displayName && u.role == p.role && u.createdAt == p.createdAt
  {
    User(p.id, p.username, "@" + p.username, p.displayName, "", "",
         OrElse(p.photoUrl, DefaultPhotoUrl(p.id)), p.role, p.createdAt)
  }

  function Rows<T>(q: Query<T>): seq<T> {
    if q.Rows? then q.rows else []
  }

  /** `getUsers`: one user per row, in row order; nothing when the backend is
      not configured or the query fails. */
  function GetUsers(configured: bool, q: Query<ProfileRow>): (r: seq<User>)
    ensures !configured || q.QueryFailed? ==> r == []
    ensures configured && q.Rows? ==> |r| == |q.rows|
    ensures forall i :: 0 <= i < |r| ==> HasHandle(r[i]) && r[i] == ProfileToUser(Rows(q)[i])
  {
    if !configured || q.QueryFailed? then []
    else seq(|q.rows|, i requires 0 <= i < |q.rows| => ProfileToUser(q.rows[i]))
  }

  function ProfileIdIs(uid: string): ProfileRow -> bool {
    (p: ProfileRow) => p.id == uid
  }

  /** `maybeSingle()`: the row when exactly one matches; none for zero rows,
      and none for several (an error that the callers treat like no row). */
  function MaybeSingle<T>(rows: seq<T>): (r: Option<T>)
    ensures r.Some? <==> |rows| == 1
    ensures r.Some? ==> r.value == rows[0]
  {
    if |rows| == 1 then Some(rows[0]) else None
  }

  /** `getProfile(uid)` over the rows of the `profiles` table. */
  function GetProfile(configured: bool, uid: string, q: Query<ProfileRow>): (r: Option<User>)
    ensures r.Some? ==> configured && r.value.uid == uid && HasHandle(r.value)
    ensures r.Some? <==> configured && q.Rows? && |Filter(q.rows, ProfileIdIs(uid))| == 1
    ensures r.Some? ==> q.Rows? && r.value == ProfileToUser(Filter(q.rows, ProfileIdIs(uid))[0])
  {
    if !configured || q.QueryFailed? then None
    else
      match MaybeSingle(Filter(q.rows, ProfileIdIs(uid)))
      case None => None
      case Some(p) => Some(ProfileToUser(p))
  }

  /** `m.sender_id || 'aura-ai'` */
  function SenderFromRow(s: Option<string>): (r: string)
    ensures r == AssistantSender <==> s.None? || s.value in {"", AssistantSender}
    ensures r != AssistantSender ==> s == Some(r)
  {
    OrElse(s, AssistantSender)
  }

  /** `msg.senderId === 'aura-ai' ? null : msg.senderId` */
  function SenderToRow(s: string): (r: Option<string>)
    ensures r.None? <==> s == AssistantSender
    ensures r.Some? ==> r.value == s
  {
    if s == AssistantSender then None else Some(s)
  }

  /** The sender survives a save and a reload exactly when it is not the empty
      string, which reloads as the assistant. */
  lemma SenderRoundTrip(s: string)
    ensures SenderFromRow(SenderToRow(s)) == s <==> s != ""
    ensures SenderToRow(SenderFromRow(None)) == None
  {
  }

  /** The row mapper of `getMessages`, and of the realtime insert handler. */
  function RowToMessage(r: MessageRow): (m: Message)
    ensures m.messageId == r.id && m.chatId == r.chatId && m.text == r.text
    ensures m.isAi == r.isAi && m.metadata == r.metadata
    ensures m.senderId == AssistantSender <==> r.senderId.None? || r.senderId.value in {"", AssistantSender}
    ensures m.senderId != AssistantSender ==> r.senderId == Some(m.senderId)
    ensures m.timestamp == r.createdAt
  {
    Message(r.id, r.chatId, SenderFromRow(r.senderId), r.text, r.createdAt, r.isAi, r.metadata)
  }

  /** The row `saveMessage` inserts. */
  function MessageToRow(m: Message): (r: MessageRow)
    ensures r.senderId.None? <==> m.senderId == AssistantSender
    ensures r.isAi == Some(m.isAi == Some(true))
    ensures r.metadata == Some(if m.metadata.Some? then m.metadata.value else EmptyMetadata)
  {
    assert m.isAi.GetOr(false) == (m.isAi == Some(true));
    MessageRow(m.messageId, m.chatId, SenderToRow(m.senderId), m.text, m.timestamp,
               Some(m.isAi.GetOr(false)), Some(m.metadata.GetOr(EmptyMetadata)))
  }

  /** A saved message reloads as itself, except that a missing `isAi` reads
      back as false and missing metadata as the empty object; whether it is a
      co-watching invitation and whether it is the assistant's are kept. */
  lemma MessageRoundTrip(m: Message)
    requires m.senderId != ""
    ensures RowToMessage(MessageToRow(m))
         == m.(isAi := Some(m.isAi == Some(true)),
               metadata := Some(m.metadata.GetOr(EmptyMetadata)))
    ensures IsNobarInvite(RowToMessage(MessageToRow(m))) == IsNobarInvite(m)
  {
  }

  /** `getMessages`: one message per row, in the row order of the query. */
  function GetMessages(configured: bool, q: Query<MessageRow>): (r: seq<Message>)
    ensures !configured || q.QueryFailed? ==> r == []
    ensures configured && q.Rows? ==> |r| == |q.rows|
    ensures forall i :: 0 <= i < |r| ==> r[i] == RowToMessage(Rows(q)[i])
  {
    if !configured || q.QueryFailed? then []
    else seq(|q.rows|, i requires 0 <= i < |q.rows| => RowToMessage(q.rows[i]))
  }

  /** The row mapper of `getSavings`. */
  function RowToSaving(r: SavingRow): (s: Saving)
    ensures s.savingId == r.id && s.userId == r.userId && s.amount == r.amount
    ensures s.status == r.status && s.createdAt == r.createdAt
    ensures r.profileName.None? ==> s.userName == "Unknown"
    ensures s.userName != ""
    ensures s.userName == OrElse(r.profileName, "Unknown")
    ensures s.paymentMethod == r.paymentMethod && s.proofImage == r.proofImageUrl
  {
    Saving(r.id, r.userId, OrElse(r.profileName, "Unknown"), r.amount, r.paymentMethod,
           r.proofImageUrl, r.status, r.createdAt)
  }

  function GetSavings(configured: bool, q: Query<SavingRow>): (r: seq<Saving>)
    ensures !configured || q.QueryFailed? ==> r == []
    ensures configured && q.Rows? ==> |r| == |q.rows|
    ensures forall i :: 0 <= i < |r| ==> r[i] == RowToSaving(Rows(q)[i])
  {
    if !configured || q.QueryFailed? then []
    else seq(|q.rows|, i requires 0 <= i < |q.rows| => RowToSaving(q.rows[i]))
  }

  /** The row mapper of `getPhotos`. */
  function RowToPhoto(r: PhotoRow): (p: GalleryPhoto)
    ensures p.photoId == r.id && p.uploadedBy == r.uploadedBy && p.isPublic == r.isPublic
    ensures r.profileName.None? ==> p.uploaderName == "Unknown"
    ensures p.uploaderName != ""
    ensures p.uploaderName == OrElse(r.profileName, "Unknown")
    ensures p.imageUrl == r.imageUrl && p.title == r.title && p.caption == r.caption && p.createdAt == r.createdAt
  {
    GalleryPhoto(r.id, r.imageUrl, r.title, r.caption, r.uploadedBy,
                 OrElse(r.profileName, "Unknown"), r.isPublic, r.createdAt)
  }

  function GetPhotos(configured: bool, q: Query<PhotoRow>): (r: seq<GalleryPhoto>)
    ensures !configured || q.QueryFailed? ==> r == []
    ensures configured && q.Rows? ==> |r| == |q.rows|
    ensures forall i :: 0 <= i < |r| ==> r[i] == RowToPhoto(Rows(q)[i])
  {
    if !configured || q.QueryFailed? then []
    else seq(|q.rows|, i requires 0 <= i < |q.rows| => RowToPhoto(q.rows[i]))
  }

  // ---------------------------------------------------------------------------
  // createProfile

  datatype UpsertResult = UpsertOk | UpsertError(code: string, message: string)

  /** What `createProfile` finds when it runs: whether the backend is
      configured, the `profiles` table, whether the user-name lookup and the
      count query answered, and how the upsert ends. */
  datatype Backend = Backend(
    configured: bool,
    table: seq<ProfileRow>,
    lookupOk: bool,
    countOk: bool,
    upsert: UpsertResult)

  /** `createProfile` resolves to null, resolves to a user, or throws. */
  datatype CreateOutcome = NotConfigured | Created(user: User) | Failed(error: ProfileError)

  function UsernameIs(name: string): ProfileRow -> bool {
    (p: ProfileRow) => p.username == name
  }

  /** `select('id, username').eq('username', name).maybeSingle()`; a failed
      query leaves `existing` null. */
  function LookupUsername(b: Backend, name: string): Option<ProfileRow> {
    if b.lookupOk then MaybeSingle(Filter(b.table, UsernameIs(name))) else None
  }

  /** The exact row count; null when the count query fails. */
  function ProfileCount(b: Backend): Option<int> {
    if b.countOk then Some(|b.table|) else None
  }

  /** `(count || 0) === 0 ? 'admin' : 'user'` */
  function RoleFor(count: Option<int>): (r: Role)
    ensures r == AdminRole <==> count.None? || count.value == 0
  {
    if count.GetOr(0) == 0 then AdminRole else UserRole
  }

  /** The stored handle: lower case, every space removed. */
  function NormalizeUsername(name: string): (r: string)
    ensures forall i :: 0 <= i < |r| ==> !IsSpace(r[i]) && !IsAsciiUpper(r[i])
  {
    RemoveSpaces(Lower(name))
  }

  /** Normalising an already normalised handle changes nothing. */
  lemma NormalizeUsernameIdempotent(name: string)
    ensures NormalizeUsername(NormalizeUsername(name)) == NormalizeUsername(name)
  {
    var n := NormalizeUsername(name);
    assert Lower(n) == n;
    RemoveSpacesNoSpaces(n);
  }

  /** The errors `createProfile` throws, each with the text of its message. */
  datatype ProfileError = UsernameTaken(username: string) | ConfirmEmail | DatabaseError(detail: string) {
    function Text(): string {
      match this
      case UsernameTaken(u) => "Username @" + u + " sudah digunakan oleh orang lain."
      case ConfirmEmail => "Gagal menyambungkan profil. Pastikan fitur 'Confirm Email' di Dashboard Supabase sudah dimatikan."
      case DatabaseError(d) => "Database error: " + d
    }
  }

  /** A failed upsert: the foreign-key violation code 23503 gets the advice
      about e-mail confirmation, anything else the database's own message. */
  function UpsertError(code: string, message: string): (e: ProfileError)
    ensures e == ConfirmEmail <==> code == "23503"
    ensures e.Text() == if code == "23503" then ConfirmEmail.Text() else "Database error: " + message
  {
    if code == "23503" then ConfirmEmail else DatabaseError(message)
  }

  /** The profile `createProfile` upserts, read back as a user. */
  function NewProfile(uid: string, username: string, displayName: string, role: Role, now: int): User {
    var stored := NormalizeUsername(username);
    User(uid, stored, "@" + stored, displayName, "", "", DefaultPhotoUrl(uid), role, now)
  }

  /** The steps of `createProfile` after the conflict check. */
  function FinishCreate(b: Backend, uid: string, username: string, displayName: string, now: int): CreateOutcome {
    match b.upsert
    case UpsertError(code, message) => Failed(UpsertError(code, message))
    case UpsertOk => Created(NewProfile(uid, username, displayName, RoleFor(ProfileCount(b)), now))
  }

  /** `createProfile` as written: the conflict lookup uses the lower-cased
      name, while the stored name is also stripped of spaces. */
  function CreateProfile(b: Backend, uid: string, username: string, displayName: string, now: int): (r: CreateOutcome)
    ensures r.NotConfigured? <==> !b.configured
    ensures r.Created? ==> r.user.uid == uid && HasHandle(r.user)
    ensures r.Created? ==> r.user.username == NormalizeUsername(username)
    ensures r.Created? ==> r.user.displayName == displayName && r.user.email == "" && r.user.password == ""
                           && r.user.photoUrl == DefaultPhotoUrl(uid) && r.user.createdAt == now
    ensures r.Created? ==> (r.user.role == AdminRole <==> !b.countOk || |b.table| == 0)
    ensures b.configured && r != Failed(UsernameTaken(username)) && b.upsert.UpsertError? ==>
              r == Failed(UpsertError(b.upsert.code, b.upsert.message))
    ensures b.configured && r != Failed(UsernameTaken(username)) ==> (b.upsert.UpsertOk? <==> r.Created?)
  {
    if !b.configured then NotConfigured
    else
      var existing := LookupUsername(b, Lower(username));
      if existing.Some? && existing.value.id != uid then Failed(UsernameTaken(username))
      else FinishCreate(b, uid, username, displayName, now)
  }

  /** `createProfile` with the conflict lookup on the name it stores, so the
      check and the write agree. */
  function CreateProfileChecked(b: Backend, uid: string, username: string, displayName: string, now: int): (r: CreateOutcome)
    ensures r.NotConfigured? <==> !b.configured
    ensures r.Created? ==> r.user.uid == uid && HasHandle(r.user)
    ensures r.Created? ==> r.user.username == NormalizeUsername(username)
    ensures r.Created? ==> r.user.displayName == displayName && r.user.email == "" && r.user.password == ""
                           && r.user.photoUrl == DefaultPhotoUrl(uid) && r.user.createdAt == now
    ensures r.Created? ==> (r.user.role == AdminRole <==> !b.countOk || |b.table| == 0)
    ensures b.configured && r != Failed(UsernameTaken(username)) && b.upsert.UpsertError? ==>
              r == Failed(UpsertError(b.upsert.code, b.upsert.message))
    ensures b.configured && r != Failed(UsernameTaken(username)) ==> (b.upsert.UpsertOk? <==> r.Created?)
  {
    if !b.configured then NotConfigured
    else
      var existing := LookupUsername(b, NormalizeUsername(username));
      if existing.Some? && existing.value.id != uid then Failed(UsernameTaken(username))
      else FinishCreate(b, uid, username, displayName, now)
  }

  /** No two profiles share a user name (the table this model assumes). */
  ghost predicate UniqueUsernames(table: seq<ProfileRow>) {
    forall i, j :: 0 <= i < j < |table| ==> table[i].username != table[j].username
  }

  lemma {:induction false} UniqueFilterAtMostOne(table: seq<ProfileRow>, name: string)
    requires UniqueUsernames(table)
    ensures |Filter(table, UsernameIs(name))| <= 1
  {
    if |table| > 0 {
      UniqueFilterAtMostOne(table[1..], name);
      if table[0].username == name {
        FilterKeepsNone(table[1..], UsernameIs(name));
      }
    }
  }

  /** Another account holds the name `name`. */
  ghost predicate TakenByOther(table: seq<ProfileRow>, name: string, uid: string) {
    exists i | 0 <= i < |table| :: table[i].username == name && table[i].id != uid
  }

  /** With unique user names and a lookup that answers, the lookup finds an
      account other than `uid` exactly when another account holds `name`. */
  lemma LookupFindsOther(b: Backend, name: string, uid: string)
    requires b.lookupOk && UniqueUsernames(b.table)
    ensures (LookupUsername(b, name).Some? && LookupUsername(b, name).value.id != uid)
        <==> TakenByOther(b.table, name, uid)
  {
    var hits := Filter(b.table, UsernameIs(name));
    UniqueFilterAtMostOne(b.table, name);
    var ex := LookupUsername(b, name);
    if ex.Some? && ex.value.id != uid {
      assert hits[0] in b.table && hits[0].username == name;
      var i :| 0 <= i < |b.table| && b.table[i] == hits[0];
      assert b.table[i].username == name && b.table[i].id != uid;
    }
    if TakenByOther(b.table, name, uid) {
      var i :| 0 <= i < |b.table| && b.table[i].username == name && b.table[i].id != uid;
      assert b.table[i] in hits;
      assert |hits| == 1;
    }
  }

  /** As written: with unique user names and a lookup that answers,
      `createProfile` refuses exactly when another account holds the
      lower-cased name, which is not always the name it stores. */
  lemma CreateProfileConflict(b: Backend, uid: string, username: string, displayName: string, now: int)
    requires b.configured && b.lookupOk && UniqueUsernames(b.table)
    ensures CreateProfile(b, uid, username, displayName, now) == Failed(UsernameTaken(username))
        <==> TakenByOther(b.table, Lower(username), uid)
  {
    LookupFindsOther(b, Lower(username), uid);
    assert FinishCreate(b, uid, username, displayName, now) != Failed(UsernameTaken(username));
  }

  /** With unique user names and a lookup that answers, the checked version
      refuses exactly when another account holds the normalised name. */
  lemma CreateProfileCheckedConflict(b: Backend, uid: string, username: string, displayName: string, now: int)
    requires b.configured && b.lookupOk && UniqueUsernames(b.table)
    ensures CreateProfileChecked(b, uid, username, displayName, now) == Failed(UsernameTaken(username))
        <==> TakenByOther(b.table, NormalizeUsername(username), uid)
  {
    LookupFindsOther(b, NormalizeUsername(username), uid);
    assert FinishCreate(b, uid, username, displayName, now) != Failed(UsernameTaken(username));
  }

  /** A profile the checked version creates holds a name no other account in
      the table holds. */
  lemma CreateProfileCheckedFresh(b: Backend, uid: string, username: string, displayName: string, now: int)
    requires b.lookupOk && UniqueUsernames(b.table)
    requires CreateProfileChecked(b, uid, username, displayName, now).Created?
    ensures forall i | 0 <= i < |b.table| ::
              b.table[i].username == CreateProfileChecked(b, uid, username, displayName, now).user.username
              ==> b.table[i].id == uid
  {
    var name := NormalizeUsername(username);
    UniqueFilterAtMostOne(b.table, name);
    forall i | 0 <= i < |b.table| && b.table[i].username == name ensures b.table[i].id == uid {
      assert b.table[i] in Filter(b.table, UsernameIs(name));
    }
  }

  /** The name-with-a-space case: the table holds "ab" for account "u1" and
      account "u2" registers as "a b". The lookup for "a b" finds nothing, so
      a second profile named "ab" is created; the checked version refuses. */
  lemma CreateProfileMissesSpacedName()
    ensures var b := Backend(true, [ProfileRow("u1", "ab", "A", None, UserRole, 0)], true, true, UpsertOk);
            && CreateProfile(b, "u2", "a b", "B", 1).Created?
            && CreateProfile(b, "u2", "a b", "B", 1).user.username == b.table[0].username
            && CreateProfileChecked(b, "u2", "a b", "B", 1) == Failed(UsernameTaken("a b"))
  {
    var row := ProfileRow("u1", "ab", "A", None, UserRole, 0);
    var b := Backend(true, [row], true, true, UpsertOk);
    NormalizeSpacedName();
    FilterSingleton(row, UsernameIs("a b"));
    assert LookupUsername(b, Lower("a b")) == None;
    FilterSingleton(row, UsernameIs("ab"));
    assert LookupUsername(b, NormalizeUsername("a b")) == Some(row);
  }

  lemma NormalizeSpacedName()
    ensures Lower("a b") == "a b"
    ensures NormalizeUsername("a b") == "ab"
  {
    assert Lower("a b") == "a b";
    assert "a b"[1..] == " b" && " b"[1..] == "b";
    assert RemoveSpaces("b") == "b";
    assert RemoveSpaces(" b") == "b";
  }

  /** For a name that is already normalised, as the registration form
      produces, the two versions agree. */
  lemma CreateProfileAgreesOnNormalNames(b: Backend, uid: string, username: string, displayName: string, now: int)
    requires username == NormalizeUsername(username)
    ensures CreateProfile(b, uid, username, displayName, now) == CreateProfileChecked(b, uid, username, displayName, now)
  {
    assert Lower(username) == username;
  }
}
