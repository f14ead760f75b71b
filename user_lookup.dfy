/**
 * The paging of the admin user list (`/user_lookup`): the page number read
 * from the query string and the links to the previous and next pages.
 * `usersCount` is the number of all users, before any id or name filter.
 */
module UserLookup {
  import opened PyBuiltins

  const ItemsPerPage: int := 15
  const LinkPrefix: string := "/user_lookup?page="

  datatype Links = Links(next: Option<string>, prev: Option<string>)

  /** `int(page)` on the query argument; a missing or unreadable one means page 1. */
  function ParsePage(arg: Option<string>): (page: int)
    ensures arg.None? ==> page == 1
    ensures arg.Some? && ParseInt(arg.value).None? ==> page == 1
    ensures arg.Some? && ParseInt(arg.value).Some? ==> page == ParseInt(arg.value).value
  {
    var converted := if arg.None? then PyInt(JNull) else PyInt(JString(arg.value));
    match converted
    case Converted(n) => n
    case TypeError => 1
    case ValueError => 1
  }

  function PageLink(page: int): string
  {
    LinkPrefix + FormatInt(page)
  }

  /**
   * The links as the route computes them. There is no previous link from
   * page 1 or below; there is a next link exactly when the users counted fill
   * at least the pages up to this one.
   */
  function PageLinks(page: int, usersCount: nat): (links: Links)
    ensures links.prev.None? <==> page <= 1
    ensures links.prev.Some? ==> links.prev.value == PageLink(page - 1)
    ensures links.next.None? <==> usersCount < page * ItemsPerPage
    ensures links.next.Some? ==> links.next.value == PageLink(page + 1)
  {
    Links(
      if (page + 1) * ItemsPerPage - usersCount > ItemsPerPage then None else Some(PageLink(page + 1)),
      if page - 1 <= 0 then None else Some(PageLink(page - 1)))
  }

  /** Following a link lands on the neighbouring page. */
  lemma FollowLinks(page: int, usersCount: nat)
    ensures PageLinks(page, usersCount).next.Some? ==>
      ParsePage(Some(PageLinks(page, usersCount).next.value[|LinkPrefix|..])) == page + 1
    ensures PageLinks(page, usersCount).prev.Some? ==>
      ParsePage(Some(PageLinks(page, usersCount).prev.value[|LinkPrefix|..])) == page - 1
  {
    assert PageLink(page + 1)[|LinkPrefix|..] == FormatInt(page + 1);
    assert PageLink(page - 1)[|LinkPrefix|..] == FormatInt(page - 1);
    ParseFormatInt(page + 1);
    ParseFormatInt(page - 1);
  }

  /**
   * As written, a full last page still gets a next link: with 15 users,
   * page 1 links to page 2, on which no user remains.
   */
  lemma NextLinkPastFullLastPage()
    ensures PageLinks(1, 15).next.Some?
    ensures IntendedNextLink(1, 15).None?
  {
  }

  /** The next link as evidently intended: only when some user lies past this page. */
  function IntendedNextLink(page: int, usersCount: nat): (next: Option<string>)
    ensures next.Some? <==> usersCount > page * ItemsPerPage
    ensures next.Some? ==> next.value == PageLink(page + 1)
  {
    if (page + 1) * ItemsPerPage - usersCount >= ItemsPerPage then None else Some(PageLink(page + 1))
  }

  /** The two next links differ exactly when the current page ends the list exactly. */
  lemma IntendedDiffersOnFullLastPage(page: int, usersCount: nat)
    ensures IntendedNextLink(page, usersCount) != PageLinks(page, usersCount).next
        <==> usersCount == page * ItemsPerPage
  {
  }
}
