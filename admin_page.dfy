/** The admin page: the overview statistics, the account search, the review
    of pending savings, and the edits an administrator makes to the user,
    savings and photo lists. */
module AdminPage {
  import opened Types
  import opened Strings
  import opened Seqs
  import opened App
  import opened Search
  import opened SavingsPage

  // ---------------------------------------------------------------------------
  // Statistics

  datatype Stats = Stats(
    totalUsers: nat,
    totalMessages: nat,
    totalPhotos: nat,
    totalCapital: int,
    pendingAmount: int,
    pendingSavingsCount: nat)

  /** How many savings have status `st`. */
  function CountWithStatus(savings: seq<Saving>, st: SavingStatus): nat {
    |Filter(savings, HasStatus(st))|
  }

  /** The `stats` memo of the overview tab. */
  function StatsOf(users: seq<User>, messages: seq<Message>, photos: seq<GalleryPhoto>, savings: seq<Saving>): (s: Stats)
    ensures s.totalUsers == |users| && s.totalMessages == |messages| && s.totalPhotos == |photos|
    ensures s.totalCapital + s.pendingAmount + TotalWithStatus(savings, Rejected) == Sum(savings)
    ensures s.pendingSavingsCount <= |savings|
    ensures s.pendingSavingsCount == 0 ==> s.pendingAmount == 0
  {
    StatusTotalsPartition(savings);
    Stats(|users|, |messages|, |photos|, TotalBalance(savings), PendingAmount(savings), CountWithStatus(savings, Pending))
  }

  // ---------------------------------------------------------------------------
  // Account search

  function AccountMatchesQuery(query: string): User -> bool {
    (u: User) => AccountMatches(u, query)
  }

  /** `filteredUsers`: the users whose display name, handle or e-mail holds
      the query, ignoring case, in list order. */
  function FilteredUsers(users: seq<User>, query: string): (r: seq<User>)
    ensures forall i :: 0 <= i < |r| ==> r[i] in users && AccountMatches(r[i], query)
    ensures forall i :: 0 <= i < |users| && AccountMatches(users[i], query) ==> users[i] in r
  {
    Filter(users, AccountMatchesQuery(query))
  }

  /** An empty search box lists everyone. */
  lemma FilteredUsersEmptyQuery(users: seq<User>)
    ensures FilteredUsers(users, "") == users
  {
    forall i | 0 <= i < |users| ensures AccountMatchesQuery("")(users[i]) {
      EmptyQueryMatches(users[i]);
    }
    FilterKeepsAll(users, AccountMatchesQuery(""));
  }

  // ---------------------------------------------------------------------------
  // Reviewing savings

  /** No two savings share an identifier. */
  ghost predicate UniqueSavingIds(savings: seq<Saving>) {
    forall i, j :: 0 <= i < j < |savings| ==> savings[i].savingId != savings[j].savingId
  }

  /** `handleUpdateSavingStatus`: the savings with identifier `id` take status
      `st`; nothing else changes, and the list keeps its length and order. */
  function SetStatus(savings: seq<Saving>, id: string, st: SavingStatus): (r: seq<Saving>)
    ensures |r| == |savings|
    ensures forall i :: 0 <= i < |r| ==> r[i].(status := savings[i].status) == savings[i]
    ensures forall i :: 0 <= i < |r| ==> r[i].status == if savings[i].savingId == id then st else savings[i].status
  {
    seq(|savings|, i requires 0 <= i < |savings| =>
      if savings[i].savingId == id then savings[i].(status := st) else savings[i])
  }

  /** With unique identifiers, a status update touches one entry. */
  lemma SetStatusSplit(savings: seq<Saving>, k: int, st: SavingStatus)
    requires UniqueSavingIds(savings) && 0 <= k < |savings|
    ensures SetStatus(savings, savings[k].savingId, st)
         == savings[..k] + [savings[k].(status := st)] + savings[k + 1..]
  {
    var r := SetStatus(savings, savings[k].savingId, st);
    var rhs := savings[..k] + [savings[k].(status := st)] + savings[k + 1..];
    forall i | 0 <= i < |savings| ensures r[i] == rhs[i] {
      if i != k {
        assert savings[i].savingId != savings[k].savingId;
      }
    }
  }

  lemma CountSingleton(x: Saving, t: SavingStatus)
    ensures CountWithStatus([x], t) == if x.status == t then 1 else 0
  {
    FilterSingleton(x, HasStatus(t));
  }

  lemma TotalsAround(pre: seq<Saving>, x: Saving, post: seq<Saving>, t: SavingStatus)
    ensures TotalWithStatus(pre + [x] + post, t) == TotalWithStatus(pre, t) + TotalWithStatus([x], t) + TotalWithStatus(post, t)
    ensures CountWithStatus(pre + [x] + post, t) == CountWithStatus(pre, t) + CountWithStatus([x], t) + CountWithStatus(post, t)
  {
    TotalConcat(pre + [x], post, t);
    TotalConcat(pre, [x], t);
    FilterConcat(pre + [x], post, HasStatus(t));
    FilterConcat(pre, [x], HasStatus(t));
  }

  /** Changing the status of the saving at `k` moves its amount, and its
      count, from its old status's total to the new one. */
  lemma SetStatusMovesAmount(savings: seq<Saving>, k: int, st: SavingStatus, t: SavingStatus)
    requires UniqueSavingIds(savings) && 0 <= k < |savings|
    ensures var r := SetStatus(savings, savings[k].savingId, st);
            var x := savings[k];
            TotalWithStatus(r, t) == TotalWithStatus(savings, t)
              - (if x.status == t then x.amount else 0) + (if st == t then x.amount else 0)
            && CountWithStatus(r, t) == CountWithStatus(savings, t)
              - (if x.status == t then 1 else 0) + (if st == t then 1 else 0)
  {
    var x := savings[k];
    var pre, post := savings[..k], savings[k + 1..];
    SetStatusSplit(savings, k, st);
    assert savings == pre + [x] + post;
    TotalsAround(pre, x, post, t);
    TotalsAround(pre, x.(status := st), post, t);
    TotalSingleton(x, t);
    TotalSingleton(x.(status := st), t);
    CountSingleton(x, t);
    CountSingleton(x.(status := st), t);
  }

  /** Accepting a pending saving moves its amount from the pending amount to
      the capital and lowers the pending count by one; rejecting it drops the
      amount from the pending amount and leaves the capital. The other
      figures are unchanged. */
  lemma ReviewUpdatesStats(users: seq<User>, messages: seq<Message>, photos: seq<GalleryPhoto>,
                           savings: seq<Saving>, k: int, st: SavingStatus)
    requires UniqueSavingIds(savings) && 0 <= k < |savings|
    requires savings[k].status == Pending && st != Pending
    ensures var before := StatsOf(users, messages, photos, savings);
            var after := StatsOf(users, messages, photos, SetStatus(savings, savings[k].savingId, st));
            var amount := savings[k].amount;
            after.totalCapital == before.totalCapital + (if st == Accepted then amount else 0)
            && after.pendingAmount == before.pendingAmount - amount
            && after.pendingSavingsCount + 1 == before.pendingSavingsCount
            && after.(totalCapital := before.totalCapital, pendingAmount := before.pendingAmount,
                      pendingSavingsCount := before.pendingSavingsCount) == before
  {
    SetStatusMovesAmount(savings, k, st, Accepted);
    SetStatusMovesAmount(savings, k, st, Pending);
  }

  // ---------------------------------------------------------------------------
  // Deleting and replacing entries

  function SavingIdIsNot(id: string): Saving -> bool {
    (s: Saving) => s.savingId != id
  }

  function PhotoIdIsNot(id: string): GalleryPhoto -> bool {
    (p: GalleryPhoto) => p.photoId != id
  }

  function UidIsNot(uid: string): User -> bool {
    (u: User) => u.uid != uid
  }

  /** The trash button of a reviewed saving: exactly the entries with that
      identifier go, the others stay in order. */
  function WithoutSaving(savings: seq<Saving>, id: string): (r: seq<Saving>)
    ensures forall i :: 0 <= i < |r| ==> r[i].savingId != id && r[i] in savings
    ensures forall i :: 0 <= i < |savings| && savings[i].savingId != id ==> savings[i] in r
  {
    Filter(savings, SavingIdIsNot(id))
  }

  /** The delete button of the gallery tab. */
  function WithoutPhoto(photos: seq<GalleryPhoto>, id: string): (r: seq<GalleryPhoto>)
    ensures forall i :: 0 <= i < |r| ==> r[i].photoId != id && r[i] in photos
    ensures forall i :: 0 <= i < |photos| && photos[i].photoId != id ==> photos[i] in r
  {
    Filter(photos, PhotoIdIsNot(id))
  }

  /** The confirmed branch of `handleDeleteUser`. */
  function WithoutUser(users: seq<User>, uid: string): (r: seq<User>)
    ensures forall i :: 0 <= i < |r| ==> r[i].uid != uid && r[i] in users
    ensures forall i :: 0 <= i < |users| && users[i].uid != uid ==> users[i] in r
  {
    Filter(users, UidIsNot(uid))
  }

  /** The trash button is only offered for reviewed savings, so deleting one
      never changes the pending amount. */
  lemma DeleteReviewedKeepsPending(savings: seq<Saving>, id: string)
    requires forall i :: 0 <= i < |savings| && savings[i].savingId == id ==> savings[i].status != Pending
    ensures PendingAmount(WithoutSaving(savings, id)) == PendingAmount(savings)
    ensures CountWithStatus(WithoutSaving(savings, id), Pending) == CountWithStatus(savings, Pending)
  {
    FilterImplied(savings, SavingIdIsNot(id), HasStatus(Pending));
  }

  /** Deleting an identifier nobody has changes nothing. */
  lemma WithoutAbsentUser(users: seq<User>, uid: string)
    requires forall i :: 0 <= i < |users| ==> users[i].uid != uid
    ensures WithoutUser(users, uid) == users
  {
    FilterKeepsAll(users, UidIsNot(uid));
  }

  /** `handleUpdateUser`: every entry with the edited user's uid becomes the
      edited user; the others stay, in order. */
  function ReplaceUser(users: seq<User>, edited: User): (r: seq<User>)
    ensures |r| == |users|
    ensures forall i :: 0 <= i < |r| ==> r[i].uid == users[i].uid
    ensures forall i :: 0 <= i < |r| ==> r[i] == edited || r[i] == users[i]
    ensures forall i :: 0 <= i < |r| && users[i].uid == edited.uid ==> r[i] == edited
  {
    seq(|users|, i requires 0 <= i < |users| => if users[i].uid == edited.uid then edited else users[i])
  }

  /** Applying the same override twice is applying it once. */
  lemma ReplaceUserIdempotent(users: seq<User>, edited: User)
    ensures ReplaceUser(ReplaceUser(users, edited), edited) == ReplaceUser(users, edited)
  {
  }

  /** The edited values are in the list afterwards exactly when their uid
      was already listed: an override never adds a user. */
  lemma ReplaceUserListed(users: seq<User>, edited: User)
    ensures edited in ReplaceUser(users, edited) <==> exists i | 0 <= i < |users| :: users[i].uid == edited.uid
  {
    var r := ReplaceUser(users, edited);
    if edited in r {
      var i :| 0 <= i < |r| && r[i] == edited;
      assert users[i].uid == r[i].uid;
    }
    if exists i | 0 <= i < |users| :: users[i].uid == edited.uid {
      var i :| 0 <= i < |users| && users[i].uid == edited.uid;
      assert r[i] == edited;
    }
  }

  /** The handle field keeps `userId` as `@` followed by `username`. */
  predicate HandleConsistent(u: User) {
    u.userId == "@" + u.username
  }

  /** The handle input's change handler. */
  function WithHandle(u: User, name: string): (r: User)
    ensures HandleConsistent(r) && r.username == name
    ensures r.(username := u.username, userId := u.userId) == u
  {
    u.(username := name, userId := "@" + name)
  }

  const SelfDeleteAlert := "You cannot delete yourself."

  class AdminPageState {
    const app: AppState
    /** The signed-in administrator. */
    const me: User
    /** The user open in the override form, if any. */
    var editingUser: Option<User>
    var userSearch: string

    constructor (app: AppState, me: User)
      ensures this.app == app && this.me == me
      ensures editingUser == None && userSearch == ""
    {
      this.app := app;
      this.me := me;
      editingUser := None;
      userSearch := "";
    }

    function Overview(): Stats
      reads app
    {
      StatsOf(app.users, app.messages, app.photos, app.savings)
    }

    function ListedUsers(): seq<User>
      reads this, app
    {
      FilteredUsers(app.users, userSearch)
    }

    /** The accept and reject buttons. */
    method UpdateSavingStatus(id: string, st: SavingStatus)
      requires st != Pending
      modifies app`savings
      ensures app.savings == SetStatus(old(app.savings), id, st)
    {
      app.savings := SetStatus(app.savings, id, st);
    }

    /** `handleDeleteUser`; `confirmed` is the answer to the confirmation
        dialog, which is only asked for someone else's account. */
    method DeleteUser(uid: string, confirmed: bool) returns (alert: Option<string>)
      modifies app`users
      ensures uid == me.uid ==> alert == Some(SelfDeleteAlert) && app.users == old(app.users)
      ensures uid != me.uid ==>
                alert == None && app.users == if confirmed then WithoutUser(old(app.users), uid) else old(app.users)
    {
      if uid == me.uid {
        return Some(SelfDeleteAlert);
      }
      alert := None;
      if confirmed {
        app.users := WithoutUser(app.users, uid);
      }
    }

    /** The edit button of a user row. */
    method OpenEditor(u: User)
      modifies this`editingUser
      ensures editingUser == Some(u)
    {
      editingUser := Some(u);
    }

    /** The close and discard buttons. */
    method DiscardEdit()
      modifies this`editingUser
      ensures editingUser == None
    {
      editingUser := None;
    }

    /** Typing in the handle field, only present while a user is open. */
    method EditHandle(name: string)
      requires editingUser.Some?
      modifies this`editingUser
      ensures editingUser == Some(WithHandle(old(editingUser).value, name))
      ensures HandleConsistent(editingUser.value)
    {
      editingUser := Some(WithHandle(editingUser.value, name));
    }

    /** The two role buttons of the override form. */
    method SetRole(role: Role)
      requires editingUser.Some?
      modifies this`editingUser
      ensures editingUser == Some(old(editingUser).value.(role := role))
    {
      editingUser := Some(editingUser.value.(role := role));
    }

    /** `handleUpdateUser`: without an open user nothing happens; otherwise
        the override is applied and the form closes. */
    method UpdateUser()
      modifies app`users, this`editingUser
      ensures old(editingUser).None? ==> app.users == old(app.users) && editingUser == None
      ensures old(editingUser).Some? ==>
                app.users == ReplaceUser(old(app.users), old(editingUser).value) && editingUser == None
    {
      if editingUser.None? {
        return;
      }
      app.users := ReplaceUser(app.users, editingUser.value);
      editingUser := None;
    }

    method DeleteSaving(id: string)
      modifies app`savings
      ensures app.savings == WithoutSaving(old(app.savings), id)
    {
      app.savings := WithoutSaving(app.savings, id);
    }

    method DeletePhoto(id: string)
      modifies app`photos
      ensures app.photos == WithoutPhoto(old(app.photos), id)
    {
      app.photos := WithoutPhoto(app.photos, id);
    }
  }
}
