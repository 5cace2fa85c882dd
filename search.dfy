/** The case-insensitive user searches of the chat sidebar, the dashboard and
    the admin user list. */
module Search {
  import opened Types
  import opened Strings

  /** The lower-cased query occurs in the lower-cased display name or handle
      (chat sidebar, dashboard). */
  predicate NameMatches(u: User, query: string) {
    Contains(Lower(u.displayName), Lower(query)) || Contains(Lower(u.userId), Lower(query))
  }

  /** As `NameMatches`, and the e-mail address is searched too (admin list). */
  predicate AccountMatches(u: User, query: string) {
    NameMatches(u, query) || Contains(Lower(u.email), Lower(query))
  }

  /** The empty query matches every user. */
  lemma EmptyQueryMatches(u: User)
    ensures NameMatches(u, "") && AccountMatches(u, "")
  {
    assert Lower("") == "";
    ContainsEmpty(Lower(u.displayName));
  }

  /** Matching ignores the letter case of the query. */
  lemma MatchIgnoresQueryCase(u: User, query: string)
    ensures NameMatches(u, query) <==> NameMatches(u, Lower(query))
    ensures AccountMatches(u, query) <==> AccountMatches(u, Lower(query))
  {
    LowerIdempotent(query);
  }

  /** A user is found by their own handle, in any letter case. */
  lemma FoundByOwnHandle(u: User, query: string)
    requires Lower(query) == Lower(u.userId)
    ensures NameMatches(u, query)
  {
    ContainsSelf(Lower(u.userId));
  }
}
