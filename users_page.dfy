/** The administrators' user list: the page-window and range arithmetic of its pagination
    bar, the query each handler sends to the user listing, and the page state those handlers
    and the listing reply leave behind. The listing reply is an input. */
module UsersPage {
  import opened Wrappers
  import AuthService

  const PageSize := 10
  const WindowSize := 5
  const ListFailedMessage := "No se pudieron cargar los usuarios"
  const ListErrorMessage := "Error al cargar los usuarios"

  function Min(a: int, b: int): int { if a <= b then a else b }

  // ---------------------------------------------------------------------------------------
  // The pagination bar

  /** The `i`-th page button of the bar; for a current page in range, every button of the bar
      names an existing page. */
  function PageNumber(i: int, currentPage: int, totalPages: int): (n: int)
    ensures 1 <= currentPage <= totalPages && 0 <= i < Min(WindowSize, totalPages) ==> 1 <= n <= totalPages
  {
    if totalPages <= WindowSize then i + 1
    else if currentPage <= 3 then i + 1
    else if currentPage >= totalPages - 2 then totalPages - WindowSize + 1 + i
    else currentPage - 2 + i
  }

  /** The page buttons: `min(5, totalPages)` of them (none for a non-positive count). For a
      current page inside `1..totalPages` they are consecutive pages of that range that
      include the current one, and with at most five pages they are all of them. */
  function PageWindow(currentPage: int, totalPages: int): (w: seq<int>)
    ensures |w| == if totalPages <= 0 then 0 else Min(WindowSize, totalPages)
    ensures forall i :: 0 <= i < |w| - 1 ==> w[i + 1] == w[i] + 1
    ensures 1 <= currentPage <= totalPages ==>
      (forall i :: 0 <= i < |w| ==> 1 <= w[i] <= totalPages) && currentPage in w
    ensures 0 <= totalPages <= WindowSize ==> forall i :: 0 <= i < |w| ==> w[i] == i + 1
  {
    var n := if totalPages <= 0 then 0 else Min(WindowSize, totalPages);
    var w := seq(n, i => PageNumber(i, currentPage, totalPages));
    assert 1 <= currentPage <= totalPages ==> w[currentPage - PageNumber(0, currentPage, totalPages)] == currentPage;
    w
  }

  /** The number of the first user shown ("Mostrando x"): from page 1 on, at least the
      first user. */
  function StartItem(currentPage: int, limit: int): (x: int)
    ensures 1 <= currentPage && 0 <= limit ==> 1 <= x
  {
    assert 1 <= currentPage && 0 <= limit ==> 0 <= (currentPage - 1) * limit by {
      if 1 <= currentPage && 0 <= limit {
        MultiplyMonotone(0, currentPage - 1, limit);
      }
    }
    (currentPage - 1) * limit + 1
  }

  /** The number of the last user shown ("- y"): never past the last user, nor past the end
      of the current page, and one of the two. */
  function EndItem(currentPage: int, limit: int, totalUsers: int): (y: int)
    ensures y <= totalUsers && y <= currentPage * limit
    ensures y == totalUsers || y == currentPage * limit
  {
    Min(currentPage * limit, totalUsers)
  }

  /** The page count the listing reports for `totalUsers` users, `limit` a page. */
  function PageCount(totalUsers: nat, limit: nat): nat
    requires 0 < limit
  {
    (totalUsers + limit - 1) / limit
  }

  /** When the reported counts agree, the range shown on any existing page is a non-empty
      run of at most `limit` users inside `1..totalUsers`, and consecutive pages continue one
      another. */
  lemma {:induction false} RangeWithinUsers(currentPage: int, limit: nat, totalUsers: nat)
    requires 0 < limit && 1 <= currentPage <= PageCount(totalUsers, limit)
    ensures 1 <= StartItem(currentPage, limit) <= EndItem(currentPage, limit, totalUsers) <= totalUsers
    ensures EndItem(currentPage, limit, totalUsers) - StartItem(currentPage, limit) < limit
    ensures currentPage < PageCount(totalUsers, limit) ==>
      StartItem(currentPage + 1, limit) == EndItem(currentPage, limit, totalUsers) + 1
  {
    var total := PageCount(totalUsers, limit);
    var k := totalUsers + limit - 1;
    assert total * limit <= k < total * limit + limit by {
      assert k == (k / limit) * limit + k % limit;
    }
    MultiplyMonotone(1, currentPage, limit);
    MultiplyMonotone(currentPage, total, limit);
    MultiplySucc(currentPage - 1, limit);
    if currentPage < total {
      MultiplyMonotone(currentPage + 1, total, limit);
      MultiplySucc(currentPage, limit);
    }
  }

  lemma MultiplyMonotone(a: int, b: int, c: nat)
    requires a <= b
    ensures a * c <= b * c
  {
    assert b * c - a * c == (b - a) * c;
  }

  lemma MultiplySucc(a: int, c: int)
    ensures (a + 1) * c == a * c + c
  {
  }

  /** Prev is disabled on the first page, next on the last, and the bar is shown only when
      there is more than one page. */
  predicate PrevDisabled(currentPage: int) { currentPage == 1 }
  predicate NextDisabled(currentPage: int, totalPages: int) { currentPage == totalPages }
  predicate ShowPagination(totalPages: int) { totalPages > 1 }

  /** On a bar that is shown, prev and next are never both disabled, and when one of them is,
      the window reaches that end of the page range. */
  lemma {:induction false} NavigationButtons(currentPage: int, totalPages: int)
    requires ShowPagination(totalPages) && 1 <= currentPage <= totalPages
    ensures !(PrevDisabled(currentPage) && NextDisabled(currentPage, totalPages))
    ensures PrevDisabled(currentPage) ==> PageWindow(currentPage, totalPages)[0] == 1
    ensures var w := PageWindow(currentPage, totalPages);
      NextDisabled(currentPage, totalPages) ==> w[|w| - 1] == totalPages
  {
    var w := PageWindow(currentPage, totalPages);
    if NextDisabled(currentPage, totalPages) {
      assert w[|w| - 1] == PageNumber(|w| - 1, currentPage, totalPages);
    }
  }

  // ---------------------------------------------------------------------------------------
  // The listing query

  /** A key of the filters object passed to `loadUsers`: absent, or present with a value that
      may be `undefined` (which still overrides the default it spreads over). */
  datatype Field<T> = Unset | Given(value: Option<T>)

  datatype UsersFilters = UsersFilters(page: Field<int>, limit: Field<int>, search: Field<string>, role: Field<string>)

  const NoFilters := UsersFilters(Unset, Unset, Unset, Unset)

  /** The query `adminService.getUsers` receives; `None` is `undefined`. */
  datatype UsersQuery = UsersQuery(page: Option<int>, limit: Option<int>, search: Option<string>, role: Option<string>)

  /** The page state a handler closes over when it runs. */
  datatype View = View(currentPage: int, limit: int, searchTerm: string, roleFilter: string)

  /** `x || undefined` on a string. */
  function OrUndefined(s: string): (r: Option<string>)
    ensures r.None? <==> s == ""
    ensures r.Some? ==> r.value == s
  {
    if s == "" then None else Some(s)
  }

  /** `{...default, ...filters}` on one key. */
  function Override<T>(default: Option<T>, f: Field<T>): (r: Option<T>)
    ensures f.Unset? ==> r == default
    ensures f.Given? ==> r == f.value
  {
    match f
    case Unset => default
    case Given(v) => v
  }

  /** The query `loadUsers(filters)` sends from view `v`: the current page and page size, the
      search term and role filter with an empty one omitted, each overridden by a key the
      filters carry. */
  function BuildQuery(v: View, f: UsersFilters): (q: UsersQuery)
    ensures f.page.Unset? ==> q.page == Some(v.currentPage)
    ensures f.limit.Unset? ==> q.limit == Some(v.limit)
    ensures f.search.Unset? ==> (q.search.None? <==> v.searchTerm == "") && (q.search.Some? ==> q.search.value == v.searchTerm)
    ensures f.role.Unset? ==> (q.role.None? <==> v.roleFilter == "") && (q.role.Some? ==> q.role.value == v.roleFilter)
    ensures f.page.Given? ==> q.page == f.page.value
    ensures f.limit.Given? ==> q.limit == f.limit.value
    ensures f.search.Given? ==> q.search == f.search.value
    ensures f.role.Given? ==> q.role == f.role.value
    ensures q.search != Some("") || f.search == Given(Some(""))
    ensures q.role != Some("") || f.role == Given(Some(""))
  {
    UsersQuery(
      Override(Some(v.currentPage), f.page),
      Override(Some(v.limit), f.limit),
      Override(OrUndefined(v.searchTerm), f.search),
      Override(OrUndefined(v.roleFilter), f.role))
  }

  /** The filters `handleSearch` passes. */
  const SearchFilters := NoFilters.(page := Given(Some(1)))

  /** The filters `handleRoleFilter(role)` passes. */
  function RoleFilters(role: string): (f: UsersFilters)
    ensures f.page == Given(Some(1)) && f.role == Given(OrUndefined(role))
    ensures f.search.Unset? && f.limit.Unset?
  {
    NoFilters.(page := Given(Some(1)), role := Given(OrUndefined(role)))
  }

  /** The query `clearFilters` sends, as written: it passes only the page, so the search term
      and role filter come from the view the handler closed over, before they were cleared. */
  function ClearFiltersQueryAsWritten(v: View): (q: UsersQuery)
    ensures q.page == Some(1) && q.limit == Some(v.limit)
    ensures q.search == OrUndefined(v.searchTerm) && q.role == OrUndefined(v.roleFilter)
  {
    BuildQuery(v, SearchFilters)
  }

  /** On the first page with a search term typed in, clearing the filters asks again for the
      same search; since the page does not change, nothing reloads afterwards. */
  lemma ClearFiltersKeepsStaleSearch()
    ensures var q := ClearFiltersQueryAsWritten(View(1, PageSize, "ana", "host"));
      q.search == Some("ana") && q.role == Some("host") && q.page == Some(1)
  {
  }

  /** The filters `clearFilters` should pass: the page and both cleared filters. */
  const ClearedFilters := NoFilters.(page := Given(Some(1)), search := Given(None), role := Given(None))

  /** The query `clearFilters` sends once it passes the cleared filters: page 1 with no search
      and no role, whatever the view it closed over; apart from those, it is the query a
      search from the cleared view would send. */
  function ClearFiltersQuery(v: View): (q: UsersQuery)
    ensures q.page == Some(1) && q.limit == Some(v.limit) && q.search.None? && q.role.None?
    ensures q == BuildQuery(v.(searchTerm := "", roleFilter := ""), SearchFilters)
  {
    BuildQuery(v, ClearedFilters)
  }

  // ---------------------------------------------------------------------------------------
  // The page state

  /** One page of the listing as the server reports it. */
  datatype Listing = Listing(users: seq<AuthService.User>, currentPage: int, totalPages: int, totalUsers: int)

  /** How `adminService.getUsers` settles: a reply body, or a thrown error body. */
  datatype ListReply = Listed(success: bool, data: Option<Listing>) | Failed(message: string)

  /** The error a reply leaves: none after a successful listing, the fixed message after an
      unsuccessful one, the thrown message (or a default when it is empty) after a throw. */
  function ReplyError(reply: ListReply): (e: Option<string>)
    ensures e.None? <==> reply.Listed? && reply.success && reply.data.Some?
    ensures reply.Listed? && e.Some? ==> e.value == ListFailedMessage
    ensures reply.Failed? ==> e == Some(if reply.message == "" then ListErrorMessage else reply.message)
  {
    match reply
    case Listed(success, data) => if success && data.Some? then None else Some(ListFailedMessage)
    case Failed(message) => Some(if message == "" then ListErrorMessage else message)
  }

  class UsersPage {
    var users: seq<AuthService.User>
    var isLoading: bool
    var error: Option<string>
    var currentPage: int
    var totalPages: int
    var totalUsers: int
    const limit: int
    var searchTerm: string
    var roleFilter: string

    constructor()
      ensures users == [] && isLoading && error.None?
      ensures currentPage == 1 && totalPages == 1 && totalUsers == 0 && limit == PageSize
      ensures searchTerm == "" && roleFilter == ""
    {
      users := [];
      isLoading := true;
      error := None;
      currentPage := 1;
      totalPages := 1;
      totalUsers := 0;
      limit := PageSize;
      searchTerm := "";
      roleFilter := "";
    }

    function Snapshot(): (v: View)
      reads this
      ensures v.currentPage == currentPage && v.limit == limit
      ensures v.searchTerm == searchTerm && v.roleFilter == roleFilter
    {
      View(currentPage, limit, searchTerm, roleFilter)
    }

    /** The listing the page shows: its rows and its three counters. */
    function Shown(): (l: Listing)
      reads this
      ensures l.users == users && l.currentPage == currentPage
      ensures l.totalPages == totalPages && l.totalUsers == totalUsers
    {
      Listing(users, currentPage, totalPages, totalUsers)
    }

    /** What the end of `loadUsers` leaves: loading over, the reply's error, and the server's
        listing after a success or the listing shown `before` otherwise. */
    predicate ShowsReply(reply: ListReply, before: Listing)
      reads this
    {
      !isLoading && error == ReplyError(reply)
      && (error.None? ==> Shown() == reply.data.value)
      && (error.Some? ==> Shown() == before)
    }

    /** The part of `loadUsers` after the request: a successful listing replaces the rows and
        the three counters, anything else only records the error; loading ends either way. */
    method Receive(reply: ListReply)
      modifies this
      ensures ShowsReply(reply, old(Shown()))
      ensures searchTerm == old(searchTerm) && roleFilter == old(roleFilter)
    {
      isLoading := true;
      error := None;
      match reply {
        case Listed(success, data) =>
          if success && data.Some? {
            users := data.value.users;
            currentPage := data.value.currentPage;
            totalPages := data.value.totalPages;
            totalUsers := data.value.totalUsers;
          } else {
            error := Some(ListFailedMessage);
          }
        case Failed(message) =>
          error := Some(if message == "" then ListErrorMessage else message);
      }
      isLoading := false;
    }

    /** A click on a page button, and the effect on `[canAccess, currentPage]` that follows.
        Setting the page it already shows is no update at all, so nothing runs; otherwise the
        page moves, and when the viewer may access the page the new page is listed with the
        current filters. */
    method ChangePage(page: int, canAccess: bool, reply: ListReply) returns (query: Option<UsersQuery>)
      modifies this
      ensures page == old(currentPage) ==>
        query.None? && Shown() == old(Shown()) && isLoading == old(isLoading) && error == old(error)
      ensures page != old(currentPage) && !canAccess ==>
        query.None? && Shown() == old(Shown()).(currentPage := page)
        && isLoading == old(isLoading) && error == old(error)
      ensures page != old(currentPage) && canAccess ==>
        query == Some(BuildQuery(old(Snapshot()).(currentPage := page), NoFilters))
        && ShowsReply(reply, old(Shown()).(currentPage := page))
      ensures searchTerm == old(searchTerm) && roleFilter == old(roleFilter)
    {
      if page == currentPage {
        query := None;
        return;
      }
      currentPage := page;
      if !canAccess {
        query := None;
        return;
      }
      query := Some(BuildQuery(Snapshot(), NoFilters));
      Receive(reply);
    }

    /** `handleSearch`: back to page 1, listing with the current search term and role. */
    method HandleSearch(reply: ListReply) returns (query: UsersQuery)
      modifies this
      ensures query == BuildQuery(old(Snapshot()), SearchFilters) && query.page == Some(1)
      ensures ShowsReply(reply, old(Shown()).(currentPage := 1))
      ensures searchTerm == old(searchTerm) && roleFilter == old(roleFilter)
    {
      query := BuildQuery(Snapshot(), SearchFilters);
      currentPage := 1;
      Receive(reply);
    }

    /** `handleRoleFilter(role)`: the role filter becomes `role`, back to page 1, listing with
        that role (none when empty). */
    method HandleRoleFilter(role: string, reply: ListReply) returns (query: UsersQuery)
      modifies this
      ensures query == BuildQuery(old(Snapshot()), RoleFilters(role))
      ensures query.page == Some(1) && query.role == OrUndefined(role)
      ensures roleFilter == role && searchTerm == old(searchTerm)
      ensures ShowsReply(reply, old(Shown()).(currentPage := 1))
    {
      query := BuildQuery(Snapshot(), RoleFilters(role));
      roleFilter := role;
      currentPage := 1;
      Receive(reply);
    }

    /** `clearFilters`, with the cleared filters passed explicitly (the corrected query): both
        filters emptied, back to page 1, and the listing asked for carries neither filter. */
    method ClearFilters(reply: ListReply) returns (query: UsersQuery)
      modifies this
      ensures query == ClearFiltersQuery(old(Snapshot()))
      ensures query.page == Some(1) && query.search.None? && query.role.None?
      ensures searchTerm == "" && roleFilter == ""
      ensures ShowsReply(reply, old(Shown()).(currentPage := 1))
    {
      query := ClearFiltersQuery(Snapshot());
      searchTerm := "";
      roleFilter := "";
      currentPage := 1;
      Receive(reply);
    }
  }
}
