/**
 `getExecutions`: reading an order's executions page by page, all of them or none.
 */
module ExecutionListing {
  import opened Decimal
  import opened Wrappers

  datatype ExecType = Trade | AdlTrade | Funding | BustTrade | Delivery | Settle | BlockTrade | MovePosition
    | FutureSpread | Unknown

  datatype Execution = Execution(
    execId: string,
    orderLinkId: string,
    symbol: string,
    execType: ExecType,
    execQty: real,
    execPrice: real,
    isMaker: bool)

  datatype Page = Page(list: seq<Execution>, nextCursor: string)

  datatype ListingError =
    | RequestFailed(reason: string)
    | CursorRepeated(read: nat)
    | TooManyPages(read: nat)

  const PAGE_LIMIT := 100
  const MAX_PAGES := 20

  /** The venue: what the `k`-th request with this cursor gets. Nothing is assumed of it. */
  type Venue = (nat, string) -> Result<Page, string>

  // ---------------------------------------------------------------- the chain of pages

  /** The cursor of request `k`, as handed out by the page before it. */
  function CursorOf(venue: Venue, k: nat): string {
    if k == 0 then ""
    else
      match venue(k - 1, CursorOf(venue, k - 1))
      case Ok(page) => page.nextCursor
      case Err(_) => ""
  }

  function Answer(venue: Venue, k: nat): Result<Page, string> {
    venue(k, CursorOf(venue, k))
  }

  predicate Ends(venue: Venue, k: nat) {
    Answer(venue, k).Ok? && Answer(venue, k).value.nextCursor == ""
  }

  predicate Repeats(venue: Venue, k: nat) {
    Answer(venue, k).Ok? && Answer(venue, k).value.nextCursor != "" && Answer(venue, k).value.nextCursor == CursorOf(venue, k)
  }

  predicate Continues(venue: Venue, k: nat) {
    Answer(venue, k).Ok? && !Ends(venue, k) && !Repeats(venue, k)
  }

  /** The first `n` pages continue. */
  ghost predicate Through(venue: Venue, n: nat) {
    forall k: nat :: k < n ==> Continues(venue, k)
  }

  /** The executions of the first `n` pages, in order. */
  function Pages(venue: Venue, n: nat): seq<Execution> {
    if n == 0 then []
    else Pages(venue, n - 1) + if Answer(venue, n - 1).Ok? then Answer(venue, n - 1).value.list else []
  }

  // ---------------------------------------------------------------- the loop

  /** What a listing that made `requests` requests came to: every page up to the empty cursor, or an error. */
  ghost predicate Outcome(venue: Venue, r: Result<seq<Execution>, ListingError>, requests: nat) {
    && 1 <= requests <= MAX_PAGES && Through(venue, requests - 1)
    && match r
       case Ok(executions) => Ends(venue, requests - 1) && executions == Pages(venue, requests)
       case Err(RequestFailed(reason)) => Answer(venue, requests - 1) == Err(reason)
       case Err(CursorRepeated(read)) => Repeats(venue, requests - 1) && read == |Pages(venue, requests)|
       case Err(TooManyPages(read)) =>
         requests == MAX_PAGES && Continues(venue, requests - 1) && read == |Pages(venue, requests)|
  }

  method GetExecutions(venue: Venue) returns (r: Result<seq<Execution>, ListingError>, requests: nat)
    ensures Outcome(venue, r, requests)
  {
    var executions := [];
    var cursor := "";
    var listingComplete := false;
    requests := 0;
    while requests < MAX_PAGES
      invariant 0 <= requests <= MAX_PAGES
      invariant Through(venue, requests)
      invariant cursor == CursorOf(venue, requests)
      invariant executions == Pages(venue, requests)
      invariant !listingComplete
    {
      var response := venue(requests, cursor);
      assert response == Answer(venue, requests);
      requests := requests + 1;
      if response.Err? {
        return Err(RequestFailed(response.error)), requests;
      }
      executions := executions + response.value.list;
      var nextCursor := response.value.nextCursor;
      if nextCursor == "" {
        listingComplete := true;
        break;
      }
      if nextCursor == cursor {
        return Err(CursorRepeated(|executions|)), requests;
      }
      cursor := nextCursor;
    }
    if !listingComplete {
      return Err(TooManyPages(|executions|)), requests;
    }
    r := Ok(executions);
  }

  /** Where the chain stops is unique, so `Outcome` fixes the result: it is normal if and only if some page among the
      first 20 ends the listing and all pages before it continue. */
  lemma NormalExactlyWhenEnded(venue: Venue, r: Result<seq<Execution>, ListingError>, requests: nat)
    requires Outcome(venue, r, requests)
    ensures r.Ok? <==> exists n: nat :: n < 20 && Through(venue, n) && Ends(venue, n)
    ensures forall n: nat :: n < 20 && Through(venue, n) && Ends(venue, n) ==> r == Ok(Pages(venue, n + 1))
  {
    forall n: nat | n < 20 && Through(venue, n) && Ends(venue, n) ensures r == Ok(Pages(venue, n + 1)) {
      assert n < requests - 1 ==> Continues(venue, n);
      assert requests - 1 < n ==> Continues(venue, requests - 1);
      assert n == requests - 1;
    }
    if r.Ok? {
      var n: nat := requests - 1;
      assert Through(venue, n) && Ends(venue, n);
    }
  }

  // ---------------------------------------------------------------- venues that page by cursor alone

  /** The answer depends on the cursor alone. */
  ghost predicate CursorDetermines(venue: Venue) {
    forall j: nat, k: nat, cursor: string :: venue(j, cursor) == venue(k, cursor)
  }

  lemma {:induction false} SameFromHere(venue: Venue, i: nat, j: nat, d: nat)
    requires CursorDetermines(venue) && CursorOf(venue, i) == CursorOf(venue, j)
    ensures CursorOf(venue, i + d) == CursorOf(venue, j + d) && Answer(venue, i + d) == Answer(venue, j + d)
  {
    if d > 0 {
      SameFromHere(venue, i, j, d - 1);
    }
  }

  /** On such a venue a listing that comes back to an earlier cursor, after one page or many, never ends: no normal
      return holds a page twice. */
  lemma CycleNeverEnds(venue: Venue, n: nat, i: nat, j: nat)
    requires CursorDetermines(venue) && Through(venue, n) && i < j <= n && CursorOf(venue, i) == CursorOf(venue, j)
    ensures !Ends(venue, n)
  {
    SameFromHere(venue, i, j, n - j);
    var k: nat := i + (n - j);
    assert Continues(venue, k);
  }

  // ---------------------------------------------------------------- an offset venue

  /** A venue that hands out `all` in pages of 100, with the offset of the next page as cursor. */
  function OffsetPage(all: seq<Execution>, cursor: string): Result<Page, string> {
    var offset := if Strtol(cursor) < 0 then 0 else Strtol(cursor);
    if offset > |all| then Err("bad cursor")
    else if offset + PAGE_LIMIT < |all| then Ok(Page(all[offset..offset + PAGE_LIMIT], Print(offset + PAGE_LIMIT)))
    else Ok(Page(all[offset..], ""))
  }

  function OffsetVenue(all: seq<Execution>): Venue {
    (k: nat, cursor: string) => OffsetPage(all, cursor)
  }

  lemma StrtolOfPrint(n: nat)
    ensures Strtol(Print(n)) == n
  {
    StrtolOfPrintInt(n, "");
    assert Print(n) + "" == Print(n);
  }

  lemma OffsetAnswer(all: seq<Execution>, cursor: string, k: nat)
    requires Strtol(cursor) == k * PAGE_LIMIT <= |all|
    ensures OffsetPage(all, cursor) == Ok(OffsetSlice(all, k))
  {
  }

  /** The `k`-th page. */
  function OffsetSlice(all: seq<Execution>, k: nat): Page
    requires k * PAGE_LIMIT <= |all|
  {
    if (k + 1) * PAGE_LIMIT < |all| then Page(all[k * PAGE_LIMIT..(k + 1) * PAGE_LIMIT], Print((k + 1) * PAGE_LIMIT))
    else Page(all[k * PAGE_LIMIT..], "")
  }

  lemma {:induction false} OffsetChain(all: seq<Execution>, k: nat)
    requires k * PAGE_LIMIT < |all| || k == 0
    ensures var venue := OffsetVenue(all);
      && CursorOf(venue, k) == (if k == 0 then "" else Print(k * PAGE_LIMIT))
      && Pages(venue, k) == all[..k * PAGE_LIMIT]
      && Answer(venue, k) == Ok(OffsetSlice(all, k))
  {
    hide OffsetPage, Strtol, Print;
    var venue := OffsetVenue(all);
    if k > 0 {
      OffsetChain(all, k - 1);
      StrtolOfPrint(k * PAGE_LIMIT);
      assert CursorOf(venue, k) == Print(k * PAGE_LIMIT);
      assert all[..k * PAGE_LIMIT] == all[..(k - 1) * PAGE_LIMIT] + all[(k - 1) * PAGE_LIMIT..k * PAGE_LIMIT];
    } else {
      NoNumber();
    }
    OffsetAnswer(all, CursorOf(venue, k), k);
  }

  lemma NoNumber()
    ensures Strtol("") == 0
  {
  }

  lemma OffsetContinues(all: seq<Execution>, k: nat)
    requires (k + 1) * PAGE_LIMIT < |all|
    ensures Continues(OffsetVenue(all), k)
  {
    hide Print, OffsetVenue;
    OffsetChain(all, k);
    if k > 0 && Print((k + 1) * PAGE_LIMIT) == Print(k * PAGE_LIMIT) {
      PrintInjective((k + 1) * PAGE_LIMIT, k * PAGE_LIMIT);
    }
  }

  lemma OffsetEnds(all: seq<Execution>, n: nat)
    requires n * PAGE_LIMIT < |all| <= (n + 1) * PAGE_LIMIT || (n == 0 && all == [])
    ensures Through(OffsetVenue(all), n) && Ends(OffsetVenue(all), n) && Pages(OffsetVenue(all), n + 1) == all
  {
    hide Print, OffsetVenue, Continues;
    var venue := OffsetVenue(all);
    forall k: nat | k < n ensures Continues(venue, k) {
      OffsetContinues(all, k);
    }
    OffsetChain(all, n);
    assert all == all[..n * PAGE_LIMIT] + all[n * PAGE_LIMIT..];
  }

  /** An order with up to 2000 executions is listed whole; one with more is never passed off as complete. */
  lemma WholeOrNothing(all: seq<Execution>, r: Result<seq<Execution>, ListingError>, requests: nat)
    requires Outcome(OffsetVenue(all), r, requests)
    ensures if |all| <= 2000 then r == Ok(all) else r.Err?
  {
    hide OffsetVenue, Pages, Through;
    var venue := OffsetVenue(all);
    var n: nat := if all == [] then 0 else (|all| - 1) / PAGE_LIMIT;
    OffsetEnds(all, n);
    NormalExactlyWhenEnded(venue, r, requests);
    if r.Ok? {
      var m: nat :| m < MAX_PAGES && Through(venue, m) && Ends(venue, m);
      EndIsUnique(venue, m, n);
    }
  }

  lemma EndIsUnique(venue: Venue, m: nat, n: nat)
    requires Through(venue, m) && Ends(venue, m) && Through(venue, n) && Ends(venue, n)
    ensures m == n
  {
    hide Continues;
    assert m < n ==> Continues(venue, m);
    assert n < m ==> Continues(venue, n);
    NotBoth(venue, m);
    NotBoth(venue, n);
  }

  lemma NotBoth(venue: Venue, n: nat)
    ensures Ends(venue, n) ==> !Continues(venue, n)
  {
  }
}
