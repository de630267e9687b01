/**
 The server as a source of pages, and what Result#next_page walks through. A page is
 the answer to one message; its paging state, put into the same message, asks for the
 page after it (section 8 of the Cassandra native protocol v4 specification).
 */
module Paging {
  import opened Prelude
  import opened BindValues
  import opened BindLog
  import opened Rows

  /** What a driver statement carries to the server. */
  datatype Message = Message(slots: Slots, pageSize: int, idempotent: Option<bool>, paging: Option<nat>)

  /** Rows, and the paging state of the page after them, if there is one. */
  datatype Page = Page(rows: seq<Row>, next: Option<nat>)

  /** What the server answers when it does not refuse. */
  datatype Server = Server(prepare: string -> Prepared, page: Message -> Page)

  /** The page after a page of m. */
  function Following(server: Server, m: Message, page: Page): Page {
    server.page(m.(paging := page.next))
  }

  /** The page k pages on; the last page stays the last. */
  function PageAfter(server: Server, m: Message, page: Page, k: nat): Page
    decreases k
  {
    if k == 0 || page.next.None? then page else PageAfter(server, m, Following(server, m, page), k - 1)
  }

  /** The rows of the page and of the k pages after it. */
  function RowsThrough(server: Server, m: Message, page: Page, k: nat): seq<Row>
    decreases k
  {
    if k == 0 || page.next.None? then page.rows else page.rows + RowsThrough(server, m, Following(server, m, page), k - 1)
  }

  /** Each page that the server sends from this one on leaves it less to send. */
  ghost predicate Shrinks(server: Server, m: Message, page: Page, rank: Page -> nat) {
    forall k: nat :: ShrinksAt(server, m, page, rank, k)
  }

  ghost predicate ShrinksAt(server: Server, m: Message, page: Page, rank: Page -> nat, k: nat) {
    var last := PageAfter(server, m, page, k);
    last.next.Some? ==> rank(Following(server, m, last)) < rank(last)
  }

  lemma ShrinksOn(server: Server, m: Message, page: Page, rank: Page -> nat)
    requires Shrinks(server, m, page, rank) && page.next.Some?
    ensures Shrinks(server, m, Following(server, m, page), rank) && rank(Following(server, m, page)) < rank(page)
  {
    var after := Following(server, m, page);
    assert ShrinksAt(server, m, page, rank, 0);
    forall k: nat ensures ShrinksAt(server, m, after, rank, k) {
      assert ShrinksAt(server, m, page, rank, k + 1);
      assert PageAfter(server, m, page, k + 1) == PageAfter(server, m, after, k);
    }
  }

  /** Everything from this page on, as the server has it: independent of how it is fetched. */
  ghost function AllRows(server: Server, m: Message, page: Page, rank: Page -> nat): seq<Row>
    requires Shrinks(server, m, page, rank)
    decreases rank(page)
  {
    if page.next.None? then page.rows
    else
      ShrinksOn(server, m, page, rank);
      page.rows + AllRows(server, m, Following(server, m, page), rank)
  }

  /** The paging state that a message happens to carry does not matter for the pages to come. */
  lemma {:induction false} PagingStateIsOverwritten(server: Server, m: Message, token: Option<nat>, page: Page, k: nat)
    ensures PageAfter(server, m.(paging := token), page, k) == PageAfter(server, m, page, k)
    ensures RowsThrough(server, m.(paging := token), page, k) == RowsThrough(server, m, page, k)
    decreases k
  {
    if k != 0 && page.next.Some? {
      PagingStateIsOverwritten(server, m, token, Following(server, m, page), k - 1);
    }
  }

  /** One page more, seen from the far end. */
  lemma {:induction false} OnePageMore(server: Server, m: Message, page: Page, k: nat)
    requires PageAfter(server, m, page, k).next.Some?
    ensures var last := PageAfter(server, m, page, k);
      && PageAfter(server, m, page, k + 1) == server.page(m.(paging := last.next))
      && RowsThrough(server, m, page, k + 1) == RowsThrough(server, m, page, k) + server.page(m.(paging := last.next)).rows
    decreases k
  {
    var after := Following(server, m, page);
    if k == 0 {
      assert PageAfter(server, m, after, 0) == after && RowsThrough(server, m, after, 0) == after.rows;
    } else {
      OnePageMore(server, m, after, k - 1);
      assert page.next.Some?;
      assert RowsThrough(server, m, page, k + 1) == page.rows + RowsThrough(server, m, after, k);
    }
  }

  /** Pages walked to the end hold every row of the result, once and in order. */
  lemma {:induction false} WalkedToTheEnd(server: Server, m: Message, page: Page, k: nat, rank: Page -> nat)
    requires Shrinks(server, m, page, rank) && PageAfter(server, m, page, k).next.None?
    ensures RowsThrough(server, m, page, k) == AllRows(server, m, page, rank)
    decreases k
  {
    if k != 0 && page.next.Some? {
      ShrinksOn(server, m, page, rank);
      WalkedToTheEnd(server, m, Following(server, m, page), k - 1, rank);
    }
  }

  /** A shrinking server is walked to the end in at most rank(page) pages. */
  lemma {:induction false} EndIsNear(server: Server, m: Message, page: Page, k: nat, rank: Page -> nat)
    requires Shrinks(server, m, page, rank) && rank(page) <= k
    ensures PageAfter(server, m, page, k).next.None?
    decreases k
  {
    if page.next.Some? {
      ShrinksOn(server, m, page, rank);
      EndIsNear(server, m, Following(server, m, page), k - 1, rank);
    }
  }
}
