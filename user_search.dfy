/** The customer search view: pages of customers fetched with the search term,
    either replacing the list (a new search) or merged into it by id (the next
    page), then filtered on the client, without regard to letter case. */
module UserSearch {
  import opened Common
  import WooCommerce
  import Paging

  datatype User = User(id: int, email: string, username: string, firstName: string, lastName: string)

  function UserId(u: User): int {
    u.id
  }

  // ---------------------------------------------------------------------------
  // The client-side filter

  function LowerChar(c: char): char {
    if 'A' <= c <= 'Z' then (c as int + 32) as char else c
  }

  /** `toLowerCase` on the ASCII letters. */
  function Lower(s: string): (r: string)
    ensures |r| == |s|
    ensures forall i :: 0 <= i < |s| ==> r[i] == LowerChar(s[i]) && !('A' <= r[i] <= 'Z')
  {
    seq(|s|, i requires 0 <= i < |s| => LowerChar(s[i]))
  }

  /** Lower-casing twice is lower-casing once. */
  lemma LowerIdempotent(s: string)
    ensures Lower(Lower(s)) == Lower(s)
  {
  }

  /** `filteredUsers`: the lower-cased term occurs in the lower-cased email,
      username, first name, last name or "first last". */
  predicate UserMatches(u: User, term: string) {
    var t := Lower(term);
    Includes(Lower(u.email), t) || Includes(Lower(u.username), t) ||
    Includes(Lower(u.firstName), t) || Includes(Lower(u.lastName), t) ||
    Includes(Lower(u.firstName + " " + u.lastName), t)
  }

  function FilterUsers(users: seq<User>, term: string): (r: seq<User>)
    ensures forall i :: 0 <= i < |r| ==> r[i] in users && UserMatches(r[i], term)
    ensures forall i :: 0 <= i < |users| && UserMatches(users[i], term) ==> users[i] in r
  {
    Filter(users, u => UserMatches(u, term))
  }

  /** An empty term keeps every user, in order. */
  lemma FilterUsersEmptyTerm(users: seq<User>)
    ensures FilterUsers(users, "") == users
  {
    assert Lower("") == "";
    forall i | 0 <= i < |users| ensures UserMatches(users[i], "") {
      IncludesEmpty(Lower(users[i].email));
    }
    FilterKeepsAll(users, u => UserMatches(u, ""));
  }

  /** The letter case of the term does not matter. */
  lemma MatchIgnoresTermCase(u: User, term: string)
    ensures UserMatches(u, term) <==> UserMatches(u, Lower(term))
  {
    LowerIdempotent(term);
  }

  lemma LowerConcat(a: string, b: string)
    ensures Lower(a + b) == Lower(a) + Lower(b)
  {
    assert forall i :: 0 <= i < |a + b| ==> Lower(a + b)[i] == (Lower(a) + Lower(b))[i];
  }

  /** Typing more of the term only narrows the match: a user found by `a + b`
      is found by `a`. */
  lemma {:induction false} LongerTermNarrows(u: User, a: string, b: string)
    requires UserMatches(u, a + b)
    ensures UserMatches(u, a)
  {
    LowerConcat(a, b);
    var t, ta, tb := Lower(a + b), Lower(a), Lower(b);
    forall f | f in [u.email, u.username, u.firstName, u.lastName, u.firstName + " " + u.lastName] && Includes(Lower(f), t)
      ensures Includes(Lower(f), ta)
    {
      IncludesPrefix(Lower(f), ta, tb);
    }
  }

  /** Every user shown for a longer term is shown for any prefix of it. */
  lemma TypingNarrowsResults(users: seq<User>, a: string, b: string)
    ensures forall i :: 0 <= i < |FilterUsers(users, a + b)| ==> FilterUsers(users, a + b)[i] in FilterUsers(users, a)
  {
    var narrow := FilterUsers(users, a + b);
    forall i | 0 <= i < |narrow| ensures narrow[i] in FilterUsers(users, a) {
      LongerTermNarrows(narrow[i], a, b);
      var j :| 0 <= j < |users| && users[j] == narrow[i];
    }
  }

  /** The full-name test finds a first and last name typed together, which no
      single field holds. */
  lemma FullNameMatch(u: User)
    requires u.email == "" && u.username == "" && u.firstName == "Ann" && u.lastName == "Lee"
    ensures UserMatches(u, "ann lee")
  {
    var t := Lower("ann lee");
    assert t == "ann lee";
    var full := Lower(u.firstName + " " + u.lastName);
    assert full == "ann lee";
    assert OccursAt(full, t, 0);
  }

  // ---------------------------------------------------------------------------
  // The view's state

  class UsersView {
    var searchTerm: string
    var users: seq<User>
    var loading: bool
    var error: Option<string>
    var page: int
    var hasMore: bool

    constructor()
      ensures searchTerm == "" && users == [] && !loading && error == None && page == 1 && hasMore
    {
      searchTerm := "";
      users := [];
      loading := false;
      error := None;
      page := 1;
      hasMore := true;
    }

    /** What the list shows. */
    function Shown(): (r: seq<User>)
      reads this
      ensures forall i :: 0 <= i < |r| ==> r[i] in users && UserMatches(r[i], searchTerm)
      ensures forall i :: 0 <= i < |users| && UserMatches(users[i], searchTerm) ==> users[i] in r
    {
      FilterUsers(users, searchTerm)
    }

    /** `fetchUsers(resetPage)`: a reset clears the list and the page first and
        asks for page 1, and its result replaces the list; otherwise the current
        page is asked for and merged in by id. A failure leaves the list as it
        was after the clear. */
    method FetchUsers(resetPage: bool, reg: WooCommerce.Registry, net: Paging.PageQuery -> Outcome<seq<User>>)
      modifies this
      ensures var o := Paging.LoadPage(reg.GetActiveServer(), "customers", Some(old(searchTerm)),
                                       if resetPage then 1 else old(page), net);
        (resetPage && o.Ok? ==> users == o.value) &&
        (resetPage && o.Err? ==> users == []) &&
        (!resetPage ==> users == Paging.MergedAfter(old(users), o, UserId)) &&
        hasMore == Paging.HasMoreAfterLoad(old(hasMore), o) &&
        error == Paging.ErrorAfterLoad(o)
      ensures page == (if resetPage then 1 else old(page))
      ensures !loading && searchTerm == old(searchTerm)
    {
      if resetPage {
        page := 1;
        users := [];
      }
      loading := true;
      error := None;
      var active := reg.GetActiveServer();
      if active.None? {
        error := Some(ErrorText(PlainFailure(NoActiveServerMessage)));
        loading := false;
        return;
      }
      var response := net(Paging.QueryFor(active.value, "customers", Some(searchTerm), if resetPage then 1 else page));
      match response {
        case Ok(data) =>
          users := if resetPage then data else Paging.Merge(users, data, UserId);
          hasMore := Paging.HasMoreAfter(data);
        case Err(e) =>
          error := Some(ErrorText(e));
      }
      loading := false;
    }

    /** `handleSearch`, and the fetch on mount: a reset fetch. */
    method HandleSearch(reg: WooCommerce.Registry, net: Paging.PageQuery -> Outcome<seq<User>>)
      modifies this
      ensures var o := Paging.LoadPage(reg.GetActiveServer(), "customers", Some(old(searchTerm)), 1, net);
        users == (if o.Ok? then o.value else []) &&
        hasMore == Paging.HasMoreAfterLoad(old(hasMore), o) &&
        error == Paging.ErrorAfterLoad(o)
      ensures page == 1 && !loading && searchTerm == old(searchTerm)
    {
      FetchUsers(true, reg, net);
    }

    /** `loadMore`: the next page; the `[page]` effect then fetches it without
        a reset when the new page is past the first. */
    method LoadMore(reg: WooCommerce.Registry, net: Paging.PageQuery -> Outcome<seq<User>>)
      modifies this
      ensures page == old(page) + 1
      ensures page > 1 ==>
        var o := Paging.LoadPage(reg.GetActiveServer(), "customers", Some(old(searchTerm)), page, net);
        users == Paging.MergedAfter(old(users), o, UserId) &&
        hasMore == Paging.HasMoreAfterLoad(old(hasMore), o) &&
        error == Paging.ErrorAfterLoad(o) && !loading
      ensures page <= 1 ==>
        users == old(users) && hasMore == old(hasMore) && error == old(error) && loading == old(loading)
      ensures searchTerm == old(searchTerm)
    {
      page := page + 1;
      if page > 1 {
        FetchUsers(false, reg, net);
      }
    }

    method SetSearchTerm(term: string)
      modifies this
      ensures searchTerm == term
      ensures users == old(users) && page == old(page) && loading == old(loading)
      ensures error == old(error) && hasMore == old(hasMore)
    {
      searchTerm := term;
    }
  }

  /** A reset fetch's replacement is what merging the page into an empty list
      gives, so reset and merge agree on a fresh list. */
  lemma ResetIsMergeIntoEmpty(page: seq<User>)
    ensures Paging.Merge([], page, UserId) == page
  {
    Paging.MergeDisjoint([], page, UserId);
  }

  /** A reset followed by a next page with no id in common shows both pages. */
  lemma ResetThenNextPage(first: seq<User>, next: seq<User>)
    requires Paging.IdsOf(first, UserId) !! Paging.IdsOf(next, UserId)
    ensures Paging.MergedAfter(first, Ok(next), UserId) == first + next
  {
    Paging.MergeDisjoint(first, next, UserId);
  }
}
