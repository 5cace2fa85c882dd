/** The dashboard: the "search @username to chat" box and the savings
    figure on its summary card. */
module Dashboard {
  import opened Types
  import opened Strings
  import opened Seqs
  import opened Search
  import opened SavingsPage
  import opened AdminPage

  /** The test of the dashboard's `filteredUsers`: someone other than the
      signed-in user whose handle or display name holds the term. */
  function OtherMatching(me: User, term: string): User -> bool {
    (u: User) => u.uid != me.uid && NameMatches(u, term)
  }

  function IsOther(me: User): User -> bool {
    (u: User) => u.uid != me.uid
  }

  /** `filteredUsers`: never the signed-in user, and every other user whose
      handle or display name holds the term, ignoring case, in list order. */
  function SearchUsers(users: seq<User>, me: User, term: string): (r: seq<User>)
    ensures forall i :: 0 <= i < |r| ==> r[i] in users && r[i].uid != me.uid && NameMatches(r[i], term)
    ensures forall i :: 0 <= i < |users| && users[i].uid != me.uid && NameMatches(users[i], term) ==> users[i] in r
  {
    Filter(users, OtherMatching(me, term))
  }

  /** With an empty term every other user is a result. */
  lemma SearchEmptyTerm(users: seq<User>, me: User)
    ensures SearchUsers(users, me, "") == Filter(users, IsOther(me))
  {
    forall i | 0 <= i < |users| ensures OtherMatching(me, "")(users[i]) == IsOther(me)(users[i]) {
      EmptyQueryMatches(users[i]);
    }
    FilterCongruent(users, OtherMatching(me, ""), IsOther(me));
  }

  /** The term's letter case does not change the results. */
  lemma SearchIgnoresCase(users: seq<User>, me: User, term: string)
    ensures SearchUsers(users, me, term) == SearchUsers(users, me, Lower(term))
  {
    forall i | 0 <= i < |users| ensures OtherMatching(me, term)(users[i]) == OtherMatching(me, Lower(term))(users[i]) {
      MatchIgnoresQueryCase(users[i], term);
    }
    FilterCongruent(users, OtherMatching(me, term), OtherMatching(me, Lower(term)));
  }

  /** The dropdown under the box: absent for an empty term, otherwise the
      search results (possibly none, which shows "No users found"). */
  function Dropdown(users: seq<User>, me: User, term: string): (r: Option<seq<User>>)
    ensures r.None? <==> term == ""
    ensures r.Some? ==> forall i :: 0 <= i < |r.value| ==> r.value[i] in users && r.value[i].uid != me.uid
  {
    if term == "" then None else Some(SearchUsers(users, me, term))
  }

  /** `totalSavings`: the accepted amounts. */
  function TotalSavings(savings: seq<Saving>): (r: int)
    ensures r == TotalBalance(savings)
  {
    Sum(Filter(savings, HasStatus(Accepted)))
  }

  /** The dashboard, the savings page and the admin overview show the same
      capital, and it excludes pending and rejected amounts. */
  lemma TotalSavingsAgrees(users: seq<User>, messages: seq<Message>, photos: seq<GalleryPhoto>, savings: seq<Saving>)
    ensures TotalSavings(savings) == TotalBalance(savings)
    ensures TotalSavings(savings) == StatsOf(users, messages, photos, savings).totalCapital
    ensures TotalSavings(savings) == Sum(savings) - PendingAmount(savings) - TotalWithStatus(savings, Rejected)
  {
    TotalsPartition(savings);
  }
}
