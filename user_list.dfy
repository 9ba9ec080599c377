/** The search filter of the user list (src/components/UserList.tsx): the
    users whose name, e-mail or username contains the search term, ignoring
    letter case, in their original order. The debounced term arrives here as
    a plain string; the user list is absent until it has been loaded. */
module UserList {
  import opened Wrappers
  import opened Text
  import opened Types

  /** The test inside `users.filter`, for a term already lowercased. */
  predicate Matches(user: User, searchLower: string) {
    || Contains(ToLower(user.name), searchLower)
    || Contains(ToLower(user.email), searchLower)
    || Contains(ToLower(user.username), searchLower)
  }

  /** `a` is `b` with some elements left out and the rest in order. */
  predicate IsSubsequence<T(==)>(a: seq<T>, b: seq<T>)
    decreases |b|
  {
    a == [] || (b != [] && ((a[0] == b[0] && IsSubsequence(a[1..], b[1..])) || IsSubsequence(a, b[1..])))
  }

  lemma {:induction false} SubsequenceOfItself<T>(s: seq<T>)
    ensures IsSubsequence(s, s)
  {
    if s != [] {
      SubsequenceOfItself(s[1..]);
    }
  }

  /** `users.filter(user => ...)` for the lowercased term. */
  function KeepMatching(users: seq<User>, searchLower: string): (r: seq<User>)
    ensures |r| <= |users|
    ensures IsSubsequence(r, users)
    ensures forall u :: u in r <==> u in users && Matches(u, searchLower)
    ensures forall u :: multiset(r)[u] == if Matches(u, searchLower) then multiset(users)[u] else 0
  {
    if users == [] then []
    else
      var rest := KeepMatching(users[1..], searchLower);
      assert users == [users[0]] + users[1..];
      if Matches(users[0], searchLower) then [users[0]] + rest else rest
  }

  /** `filteredUsers`: the users unchanged while none are loaded or the term
      is empty; otherwise the users that match the lowercased term, as a
      subsequence, so never more than the "Showing X of Y" total. */
  function FilterUsers(users: Option<seq<User>>, term: string): (r: Option<seq<User>>)
    ensures users.None? || term == "" ==> r == users
    ensures r.Some? <==> users.Some?
    ensures r.Some? ==> |r.value| <= |users.value| && IsSubsequence(r.value, users.value)
    ensures r.Some? && term != "" ==>
              forall u :: u in r.value <==> u in users.value && Matches(u, ToLower(term))
    ensures r.Some? && term != "" ==>
              forall u :: multiset(r.value)[u] ==
                if Matches(u, ToLower(term)) then multiset(users.value)[u] else 0
  {
    if users.None? then users
    else if term == "" then SubsequenceOfItself(users.value); users
    else Some(KeepMatching(users.value, ToLower(term)))
  }

  /** Users that all match are kept, all of them. */
  lemma {:induction false} KeepMatchingKeepsAllMatching(users: seq<User>, searchLower: string)
    requires forall u :: u in users ==> Matches(u, searchLower)
    ensures KeepMatching(users, searchLower) == users
  {
    if users != [] {
      KeepMatchingKeepsAllMatching(users[1..], searchLower);
      assert [users[0]] + users[1..] == users;
    }
  }

  /** Filtering the filtered list by the same term changes nothing. */
  lemma FilterUsersIdempotent(users: Option<seq<User>>, term: string)
    ensures FilterUsers(FilterUsers(users, term), term) == FilterUsers(users, term)
  {
    if users.Some? && term != "" {
      KeepMatchingKeepsAllMatching(KeepMatching(users.value, ToLower(term)), ToLower(term));
    }
  }

  /** Terms that differ only in letter case filter alike. */
  lemma FilterUsersIgnoresCase(users: Option<seq<User>>, term1: string, term2: string)
    requires ToLower(term1) == ToLower(term2)
    ensures FilterUsers(users, term1) == FilterUsers(users, term2)
  {
    assert |term1| == |ToLower(term1)| == |ToLower(term2)| == |term2|;
  }
}
