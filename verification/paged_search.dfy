/**
 Looking for a resource through a paged HTTP listing, whatever the server makes
 of `limit` and `offset`.
 */
module PagedSearch {
  import opened Wrappers

  // Pages: honours both. All: ignores both. First: honours the limit only.
  datatype Server = Pages | All | First

  const LIMIT := 100

  function Min(a: int, b: int): int {
    if a < b then a else b
  }

  // The body of a response; `limit` is absent for servers without paging.
  function Body<T>(server: Server, items: seq<T>, paged: bool, offset: nat): seq<T> {
    if !paged || server == All then items
    else if server == First then items[..Min(LIMIT, |items|)]
    else if offset >= |items| then []
    else items[offset..Min(offset + LIMIT, |items|)]
  }

  predicate Distinct<T(==)>(items: seq<T>) {
    forall i, j | 0 <= i < j < |items| :: items[i] != items[j]
  }

  // The plain search: the first match of a list.
  function FirstMatch<T>(items: seq<T>, match': T -> bool): (r: Option<T>)
    ensures r.Some? ==> r.value in items && match'(r.value)
    ensures r == None ==> forall x | x in items :: !match'(x)
  {
    if items == [] then None else if match'(items[0]) then Some(items[0]) else FirstMatch(items[1..], match')
  }

  // What the listing can reach at all.
  function Reachable<T>(server: Server, items: seq<T>, paged: bool): seq<T> {
    if paged && server == First then items[..Min(LIMIT, |items|)] else items
  }

  lemma {:induction false} FirstMatchSplit<T>(a: seq<T>, b: seq<T>, match': T -> bool)
    ensures FirstMatch(a + b, match')
         == if FirstMatch(a, match').Some? then FirstMatch(a, match') else FirstMatch(b, match')
  {
    if a == [] {
      assert a + b == b;
    } else {
      assert (a + b)[1..] == a[1..] + b;
      FirstMatchSplit(a[1..], b, match');
    }
  }

  predicate AnyMatch<T(==)>(items: seq<T>, match': T -> bool) {
    exists x | x in items :: match'(x)
  }

  /**
   Where the search falls short of the whole list: exactly for a server that
   takes the limit but not the offset, when there is a match and none among the
   first items it gives.
   */
  lemma MissesExactly<T>(server: Server, items: seq<T>, paged: bool, match': T -> bool)
    ensures FirstMatch(Reachable(server, items, paged), match') != FirstMatch(items, match')
       <==> && paged && server == First && |items| > 100
            && !AnyMatch(items[..100], match') && AnyMatch(items[100..], match')
  {
    if paged && server == First && |items| > LIMIT {
      assert items == items[..LIMIT] + items[LIMIT..];
      FirstMatchSplit(items[..LIMIT], items[LIMIT..], match');
    } else {
      assert items[..|items|] == items;
    }
  }

  predicate IsLast(x: int) {
    x == LIMIT
  }

  // One item more than a page: the last one is there and is not found.
  lemma ItemAfterTheLimitIsMissed()
    ensures var items := seq(LIMIT + 1, i => i);
            && Distinct(items) && FirstMatch(items, IsLast) == Some(LIMIT)
            && FirstMatch(Reachable(First, items, true), IsLast) == None
  {
    var items := seq(LIMIT + 1, i => i);
    assert items[LIMIT..] == [LIMIT];
    assert IsLast(items[LIMIT..][0]);
    MissesExactly(First, items, true, IsLast);
  }

  method SearchPage<T>(body: seq<T>, match': T -> bool) returns (target: Option<T>)
    ensures target == FirstMatch(body, match')
  {
    for i := 0 to |body|
      invariant FirstMatch(body, match') == FirstMatch(body[i..], match')
    {
      assert body[i..][1..] == body[i + 1..];
      if match'(body[i]) {
        return Some(body[i]);
      }
    }
    target := None;
  }

  predicate Stepped(server: Server, paged: bool) {
    paged && server == Pages
  }

  // The items on the first pages.
  function Seen<T>(server: Server, items: seq<T>, paged: bool, pages: nat): seq<T> {
    if pages == 0 then []
    else if Stepped(server, paged) then items[..Min(LIMIT * pages, |items|)]
    else Reachable(server, items, paged)
  }

  lemma SeenGrows<T>(server: Server, items: seq<T>, paged: bool, page: nat)
    requires page == 0 || Stepped(server, paged)
    ensures Seen(server, items, paged, page + 1)
         == Seen(server, items, paged, page) + Body(server, items, paged, LIMIT * page)
  {
    if Stepped(server, paged) && LIMIT * page < |items| {
      var n := Min(LIMIT * (page + 1), |items|);
      assert items[..n] == items[..LIMIT * page] + items[LIMIT * page..n];
    }
  }

  // Two pages of a list of distinct items are the same only if both are empty.
  lemma PagesDiffer<T>(items: seq<T>, page: nat)
    requires Distinct(items) && page > 0 && Body(Pages, items, true, LIMIT * page) != []
    ensures Body(Pages, items, true, LIMIT * (page - 1)) != Body(Pages, items, true, LIMIT * page)
  {
    assert Body(Pages, items, true, LIMIT * page)[0] == items[LIMIT * page];
    assert Body(Pages, items, true, LIMIT * (page - 1))[0] == items[LIMIT * (page - 1)];
  }

  // An empty page, or the last one again: everything reachable was seen.
  function Page<T>(server: Server, items: seq<T>, paged: bool, page: nat): seq<T> {
    Body(server, items, paged, LIMIT * page)
  }

  lemma SameAgain<T>(server: Server, items: seq<T>, paged: bool, page: nat)
    requires page > 0 && !Stepped(server, paged)
    ensures Page(server, items, paged, page) == Page(server, items, paged, page - 1)
  {
  }

  lemma NothingMore<T>(server: Server, items: seq<T>, paged: bool, page: nat)
    requires Distinct(items)
    requires var body := Page(server, items, paged, page);
             body == [] || (page > 0 && body == Page(server, items, paged, page - 1))
    ensures Seen(server, items, paged, page) == Reachable(server, items, paged)
  {
    if Stepped(server, paged) && Page(server, items, paged, page) != [] {
      PagesDiffer(items, page);
      assert false;
    }
  }

  lemma OneMorePage<T>(server: Server, items: seq<T>, paged: bool, page: nat, match': T -> bool)
    requires FirstMatch(Seen(server, items, paged, page), match') == None
    requires Page(server, items, paged, page) != []
    requires page > 0 ==> Page(server, items, paged, page) != Page(server, items, paged, page - 1)
    ensures page == 0 || Stepped(server, paged)
    ensures FirstMatch(Seen(server, items, paged, page + 1), match')
         == FirstMatch(Page(server, items, paged, page), match')
    ensures page <= |items| / LIMIT
  {
    if page > 0 && !Stepped(server, paged) {
      SameAgain(server, items, paged, page);
      assert false;
    }
    SeenGrows(server, items, paged, page);
    FirstMatchSplit(Seen(server, items, paged, page), Page(server, items, paged, page), match');
  }

  lemma SeenIsPrefix<T>(server: Server, items: seq<T>, paged: bool, page: nat, match': T -> bool)
    ensures var first := FirstMatch(Seen(server, items, paged, page), match');
            first.Some? ==> first == FirstMatch(Reachable(server, items, paged), match')
  {
    var seen, all := Seen(server, items, paged, page), Reachable(server, items, paged);
    assert all == seen + all[|seen|..];
    FirstMatchSplit(seen, all[|seen|..], match');
  }

  /**
   Refines the plain search: the loop ends, and returns the first match of the
   whole list, or nothing when there is none; from a server that takes the limit
   but not the offset, of its first items only (see MissesExactly). The list
   stays as it is and names no item twice.
   */
  method FindResourceByProperties<T(==)>(server: Server, items: seq<T>, paged: bool, criteria: Option<T -> bool>)
    returns (target: Option<T>, requests: nat)
    requires Distinct(items)
    ensures criteria == None ==> target == None && requests == 0
    ensures criteria.Some? ==> target == FirstMatch(Reachable(server, items, paged), criteria.value)
    ensures requests <= |items| / LIMIT + 2
  {
    target := None;
    requests := 0;
    if criteria == None {
      return;
    }
    ghost var bound := |items| / LIMIT;
    var page := 0;
    var last: Option<seq<T>> := None;
    while target == None
      invariant requests == page <= bound + 1
      invariant page == 0 <==> last == None
      invariant page > 0 ==> last.value == Page(server, items, paged, page - 1)
      invariant Stepped(server, paged) || page <= 1
      invariant target == FirstMatch(Seen(server, items, paged, page), criteria.value)
      decreases bound + 2 - page
    {
      var body := Page(server, items, paged, page);
      requests := requests + 1;
      if last.Some? && last.value == body {
        NothingMore(server, items, paged, page);
        break;
      }
      last := Some(body);
      if |body| < 1 {
        NothingMore(server, items, paged, page);
        break;
      }
      OneMorePage(server, items, paged, page, criteria.value);
      target := SearchPage(body, criteria.value);
      page := page + 1;
    }
    SeenIsPrefix(server, items, paged, page, criteria.value);
  }
}
