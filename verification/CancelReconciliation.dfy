/**
 `cancel` and `reconcileMissedFills`: an order that is gone at cancel time may have been filled, so its executions are read
 back and re-emitted to a consumer that counts every fill id once.
 */
module CancelReconciliation {
  import opened Decimal
  import opened ErrorReasons
  import opened ExecutionListing
  import opened GatewayErrors
  import opened Wrappers

  datatype FillEvent = FillEvent(
    clientOrderId: string,
    symbol: string,
    fillId: string,
    qty: real,
    price: real,
    isMaker: bool)

  // ---------------------------------------------------------------- the consumer

  /** What has been credited per fill id: the first delivery counts. */
  function Credited(delivered: seq<FillEvent>): map<string, real> {
    if delivered == [] then map[]
    else
      var m, fill := Credited(delivered[..|delivered| - 1]), delivered[|delivered| - 1];
      if fill.fillId in m then m else m[fill.fillId := fill.qty]
  }

  /** The fill callback of the leg that owns the order. */
  class FillConsumer {
    var credited: map<string, real>
    ghost var delivered: seq<FillEvent>

    ghost predicate Valid()
      reads this
    {
      credited == Credited(delivered)
    }

    constructor ()
      ensures Valid() && delivered == []
    {
      credited, delivered := map[], [];
    }

    method OnFill(fill: FillEvent)
      requires Valid()
      modifies this
      ensures Valid() && delivered == old(delivered) + [fill]
    {
      if fill.fillId !in credited {
        credited := credited[fill.fillId := fill.qty];
      }
      delivered := delivered + [fill];
      assert delivered[..|delivered| - 1] == old(delivered);
    }
  }

  // ---------------------------------------------------------------- the listing

  predicate IsFill(e: Execution) {
    e.execType == Trade && e.execId != ""
  }

  function ListedQty(executions: seq<Execution>): real {
    if executions == [] then 0.0
    else
      ListedQty(executions[..|executions| - 1])
      + if IsFill(executions[|executions| - 1]) then executions[|executions| - 1].execQty else 0.0
  }

  function ToFill(clientOrderId: string, symbol: string, e: Execution): FillEvent {
    FillEvent(clientOrderId, symbol, e.execId, e.execQty, e.execPrice, e.isMaker)
  }

  function Reemitted(clientOrderId: string, symbol: string, executions: seq<Execution>): seq<FillEvent> {
    if executions == [] then []
    else
      Reemitted(clientOrderId, symbol, executions[..|executions| - 1])
      + if IsFill(executions[|executions| - 1]) then [ToFill(clientOrderId, symbol, executions[|executions| - 1])] else []
  }

  // ---------------------------------------------------------------- the stream

  /** The fill the private stream reports for an execution: only trades of an order with a client id. */
  function StreamFill(e: Execution): Option<FillEvent> {
    if e.execType != Trade || e.orderLinkId == "" then None
    else Some(FillEvent(e.orderLinkId, e.symbol, e.execId, e.execQty, e.execPrice, e.isMaker))
  }

  /** The execution callback. */
  method OnExecution(fillCB: FillConsumer?, event: Execution)
    requires fillCB != null ==> fillCB.Valid()
    modifies fillCB
    ensures fillCB != null ==> fillCB.Valid()
    ensures fillCB != null ==>
      fillCB.delivered == old(fillCB.delivered) + (match StreamFill(event) case Some(fill) => [fill] case None => [])
  {
    if fillCB == null || event.execType != Trade || event.orderLinkId == "" {
      return;
    }
    fillCB.OnFill(FillEvent(event.orderLinkId, event.symbol, event.execId, event.execQty, event.execPrice, event.isMaker));
  }

  /** What the stream reports for these executions. */
  function Streamed(executions: seq<Execution>): seq<FillEvent> {
    if executions == [] then []
    else
      Streamed(executions[..|executions| - 1])
      + match StreamFill(executions[|executions| - 1]) case Some(fill) => [fill] case None => []
  }

  ghost predicate OfOrder(clientOrderId: string, symbol: string, executions: seq<Execution>) {
    forall i :: 0 <= i < |executions| ==> executions[i].orderLinkId == clientOrderId && executions[i].symbol == symbol
  }

  /** The fills with an id. */
  function Named(fills: seq<FillEvent>): seq<FillEvent> {
    if fills == [] then []
    else Named(fills[..|fills| - 1]) + if fills[|fills| - 1].fillId != "" then [fills[|fills| - 1]] else []
  }

  /** Re-emitting an order's executions delivers, fill by fill and field by field, what the stream reports for them, less the
      fills without an id. */
  lemma {:induction false} ReemittedAsStreamed(clientOrderId: string, symbol: string, executions: seq<Execution>)
    requires clientOrderId != "" && OfOrder(clientOrderId, symbol, executions)
    ensures Reemitted(clientOrderId, symbol, executions) == Named(Streamed(executions))
  {
    if executions != [] {
      var init, last := executions[..|executions| - 1], executions[|executions| - 1];
      ReemittedAsStreamed(clientOrderId, symbol, init);
      var all := Streamed(executions);
      if StreamFill(last).Some? {
        assert all[..|all| - 1] == Streamed(init);
      } else {
        assert all == Streamed(init);
      }
    }
  }

  // ---------------------------------------------------------------- the operations

  /** The order's state in the history, if it holds the order at all. */
  type History = Result<Option<real>, string>

  /** Whether the fills are known: both reads worked and the list does not fall short of the history. */
  predicate FillsKnown(listing: Result<seq<Execution>, ListingError>, history: History) {
    && listing.Ok? && history.Ok?
    && !(history.value.Some? && history.value.value > ListedQty(listing.value) + 0.000000001)
  }

  /** Nothing is emitted unless everything is. */
  method ReconcileMissedFills(clientOrderId: string, symbol: string, fillCB: FillConsumer?, venue: Venue, history: History)
    returns (thrown: Option<Exception>, ghost listing: Result<seq<Execution>, ListingError>, ghost requests: nat)
    requires fillCB != null ==> fillCB.Valid()
    modifies fillCB
    ensures fillCB == null ==> thrown == None
    ensures fillCB != null ==> fillCB.Valid() && Outcome(venue, listing, requests)
    ensures fillCB != null ==> (thrown.None? <==> FillsKnown(listing, history))
    ensures thrown.Some? ==> thrown.value.ExecutionUnknown?
    ensures fillCB != null && thrown.None? ==>
      fillCB.delivered == old(fillCB.delivered) + Reemitted(clientOrderId, symbol, listing.value)
    ensures fillCB != null && thrown.Some? ==> fillCB.delivered == old(fillCB.delivered)
  {
    hide Outcome, Credited;
    if fillCB == null {
      return None, Ok([]), 0;
    }
    var executions, made := GetExecutions(venue);
    listing, requests := executions, made;
    if executions.Err? || history.Err? {
      thrown := Some(ExecutionUnknown("Bybit " + symbol + " order " + clientOrderId +
                                      " gone at cancel, but its fills could not be read back"));
      return;
    }
    var listedQty := SumListed(executions.value);
    var finalState := history.value;
    if finalState.Some? && finalState.value > listedQty + 0.000000001 {
      thrown := Some(ExecutionUnknown("Bybit " + symbol + " order " + clientOrderId + " gone at cancel: not indexed yet"));
      return;
    }
    thrown := None;
    var list := executions.value;
    for i := 0 to |list|
      invariant fillCB.Valid() && fillCB.delivered == old(fillCB.delivered) + Reemitted(clientOrderId, symbol, list[..i])
    {
      assert list[..i + 1][..i] == list[..i];
      if !IsFill(list[i]) {
        continue;
      }
      fillCB.OnFill(ToFill(clientOrderId, symbol, list[i]));
    }
    assert list[..|list|] == list;
  }

  method SumListed(executions: seq<Execution>) returns (listedQty: real)
    ensures listedQty == ListedQty(executions)
  {
    listedQty := 0.0;
    for i := 0 to |executions|
      invariant listedQty == ListedQty(executions[..i])
    {
      assert executions[..i + 1][..i] == executions[..i];
      if IsFill(executions[i]) {
        listedQty := listedQty + executions[i].execQty;
      }
    }
    assert executions[..|executions|] == executions;
  }

  /** What a caller could read off: the venue's answer, or the complaint when there is none to read, says that the order has
      left the book. */
  predicate LeftTheBook(reply: Reply) {
    match reply
    case NotSent(what) => IsOrderGoneReason(what)
    case Unreachable(_) => false
    case Response(status, body, parsed) =>
      if status != 200 then IsOrderGoneReason(body) || Contains(Print(status), "110001")
      else
        match parsed
        case Err(what) => IsOrderGoneReason(what)
        case Ok(api) =>
          && api.retCode != 0
          && (api.retCode in {110001, 110008, 110010} || Contains(PrintInt(api.retCode), "110001") || SaysGone(api.retMsg))
  }

  /** That is what the handlers of `cancel` find in the client's exception. */
  lemma GoneExactlyWhen(reply: Reply)
    ensures var e := RestCall(reply);
      && (e.None? <==> Acknowledged(reply))
      && (e.Some? && !e.value.TransportError? && IsOrderGoneReason(e.value.what) <==> LeftTheBook(reply))
  {
    hide IsOrderGoneReason, ApiError, BadResponse, Print, PrintInt, SaysGone, Contains;
    if reply.Response? {
      if reply.status != 200 {
        GoneStatus(reply.status, reply.body);
      } else if reply.parsed.Ok? {
        GoneAnswer(reply.parsed.value.retCode, reply.parsed.value.retMsg);
      }
    }
  }

  /** True: the cancel was acknowledged. False: the order is gone and its fills are credited. */
  method Cancel(clientOrderId: string, symbol: string, fillCB: FillConsumer?, reply: Reply, venue: Venue, history: History)
    returns (r: Result<bool, Exception>, ghost listing: Result<seq<Execution>, ListingError>, ghost requests: nat)
    requires fillCB != null ==> fillCB.Valid()
    modifies fillCB
    ensures fillCB != null ==> fillCB.Valid()
    ensures r == Ok(true) <==> Acknowledged(reply)
    ensures r == Ok(false) <==> LeftTheBook(reply) && (fillCB != null ==> FillsKnown(listing, history))
    ensures LeftTheBook(reply) && fillCB != null ==> Outcome(venue, listing, requests)
    ensures r.Err? && LeftTheBook(reply) ==> r.error.ExecutionUnknown?
    ensures r.Err? && !LeftTheBook(reply) ==> Some(r.error) == SubmitReduceOnlyMarket(reply)
    ensures fillCB != null && r == Ok(false) ==>
      fillCB.delivered == old(fillCB.delivered) + Reemitted(clientOrderId, symbol, listing.value)
    ensures fillCB != null && r != Ok(false) ==> fillCB.delivered == old(fillCB.delivered)
  {
    GoneExactlyWhen(reply);
    hide Outcome, IsOrderGoneReason, IsAmbiguousOutcomeReason, ClassifyRejectReason, LeftTheBook, Acknowledged;
    listing, requests := Ok([]), 0;
    var thrown := RestCall(reply);
    if thrown.None? {
      return Ok(true), listing, requests;
    }
    var e := thrown.value;
    if e.TransportError? {
      return Err(e), listing, requests;
    }
    if IsOrderGoneReason(e.what) {
      var failure: Option<Exception>;
      failure, listing, requests := ReconcileMissedFills(clientOrderId, symbol, fillCB, venue, history);
      r := if failure.Some? then Err(failure.value) else Ok(false);
      return;
    }
    if IsAmbiguousOutcomeReason(e.what) {
      return Err(e), listing, requests;
    }
    r := Err(GatewayError(ClassifyRejectReason(e.what), e.what));
  }

  // ---------------------------------------------------------------- sums over credited fills

  ghost function Sum(m: map<string, real>): real
    decreases |m|
  {
    if m == map[] then 0.0
    else
      var id :| id in m;
      m[id] + Sum(m - {id})
  }

  lemma {:induction false} SumWithout(m: map<string, real>, id: string)
    requires id in m
    ensures Sum(m) == m[id] + Sum(m - {id})
    decreases |m|
  {
    var x :| x in m && Sum(m) == m[x] + Sum(m - {x});
    if x != id {
      SumWithout(m - {x}, id);
      SumWithout(m - {id}, x);
      assert m - {x} - {id} == m - {id} - {x};
    }
  }

  lemma SumWith(m: map<string, real>, id: string, qty: real)
    requires id !in m
    ensures Sum(m[id := qty]) == Sum(m) + qty
  {
    SumWithout(m[id := qty], id);
    assert m[id := qty] - {id} == m;
  }

  /** More fills, none negative, sum to no less. */
  lemma {:induction false} SumGrows(part: map<string, real>, whole: map<string, real>)
    requires part.Keys <= whole.Keys && forall id :: id in part ==> part[id] == whole[id]
    requires forall id :: id in whole ==> whole[id] >= 0.0
    ensures Sum(part) <= Sum(whole)
    decreases |whole|
  {
    if whole != map[] {
      var id :| id in whole;
      SumWithout(whole, id);
      if id in part {
        SumWithout(part, id);
        SumGrows(part - {id}, whole - {id});
      } else {
        SumGrows(part, whole - {id});
      }
    }
  }

  // ---------------------------------------------------------------- neither lost nor counted twice

  /** Deliveries agree on the quantity of a fill id, and no quantity is negative: they report what the venue executed. */
  ghost predicate Consistent(delivered: seq<FillEvent>) {
    && (forall i, j :: 0 <= i < j < |delivered| && delivered[i].fillId == delivered[j].fillId
          ==> delivered[i].qty == delivered[j].qty)
    && (forall i :: 0 <= i < |delivered| ==> delivered[i].qty >= 0.0)
  }

  ghost predicate Names(delivered: seq<FillEvent>, id: string) {
    exists i :: 0 <= i < |delivered| && delivered[i].fillId == id
  }

  lemma NamesLast(delivered: seq<FillEvent>, id: string)
    requires delivered != []
    ensures Names(delivered, id) <==>
            Names(delivered[..|delivered| - 1], id) || delivered[|delivered| - 1].fillId == id
  {
    var init := delivered[..|delivered| - 1];
    if Names(init, id) {
      var i :| 0 <= i < |init| && init[i].fillId == id;
      assert delivered[i].fillId == id;
    }
  }

  lemma {:induction false} CreditedIds(delivered: seq<FillEvent>, id: string)
    ensures id in Credited(delivered) <==> Names(delivered, id)
  {
    if delivered != [] {
      CreditedIds(delivered[..|delivered| - 1], id);
      NamesLast(delivered, id);
    }
  }

  /** Each delivered fill is credited at its quantity. */
  lemma {:induction false} CreditedAtQty(delivered: seq<FillEvent>, i: nat)
    requires Consistent(delivered) && i < |delivered|
    ensures delivered[i].fillId in Credited(delivered)
    ensures Credited(delivered)[delivered[i].fillId] == delivered[i].qty
  {
    var init, last := delivered[..|delivered| - 1], delivered[|delivered| - 1];
    if i < |init| {
      CreditedAtQty(init, i);
    } else {
      CreditedIds(init, last.fillId);
      if last.fillId in Credited(init) {
        var j :| 0 <= j < |init| && init[j].fillId == last.fillId;
        CreditedAtQty(init, j);
      }
    }
  }

  /** The listing names no execution twice. */
  ghost predicate DistinctIds(executions: seq<Execution>) {
    forall i, j :: 0 <= i < j < |executions| && IsFill(executions[i]) && IsFill(executions[j])
      ==> executions[i].execId != executions[j].execId
  }

  ghost predicate Lists(executions: seq<Execution>, id: string) {
    exists i :: 0 <= i < |executions| && IsFill(executions[i]) && executions[i].execId == id
  }

  lemma ListsLast(executions: seq<Execution>, id: string)
    requires executions != []
    ensures var last := executions[|executions| - 1];
      Lists(executions, id) <==> Lists(executions[..|executions| - 1], id) || (IsFill(last) && last.execId == id)
  {
    var init := executions[..|executions| - 1];
    if Lists(init, id) {
      var i :| 0 <= i < |init| && IsFill(init[i]) && init[i].execId == id;
      assert executions[i].execId == id;
    }
  }

  lemma {:induction false} ReemittedIds(clientOrderId: string, symbol: string, executions: seq<Execution>, id: string)
    ensures Names(Reemitted(clientOrderId, symbol, executions), id) <==> Lists(executions, id)
  {
    if executions != [] {
      var init, last := executions[..|executions| - 1], executions[|executions| - 1];
      ReemittedIds(clientOrderId, symbol, init, id);
      ListsLast(executions, id);
      if IsFill(last) {
        var all := Reemitted(clientOrderId, symbol, executions);
        NamesLast(all, id);
        assert all[..|all| - 1] == Reemitted(clientOrderId, symbol, init);
      } else {
        assert Reemitted(clientOrderId, symbol, executions) == Reemitted(clientOrderId, symbol, init);
      }
    }
  }

  lemma {:induction false} ReemittedAt(clientOrderId: string, symbol: string, executions: seq<Execution>, i: nat)
    requires i < |executions| && IsFill(executions[i])
    ensures ToFill(clientOrderId, symbol, executions[i]) in Reemitted(clientOrderId, symbol, executions)
  {
    if i < |executions| - 1 {
      ReemittedAt(clientOrderId, symbol, executions[..|executions| - 1], i);
    }
  }

  /** Crediting the listing alone credits its quantity. */
  lemma {:induction false} ListedIsSum(clientOrderId: string, symbol: string, executions: seq<Execution>)
    requires DistinctIds(executions)
    ensures Sum(Credited(Reemitted(clientOrderId, symbol, executions))) == ListedQty(executions)
  {
    hide Sum, IsFill;
    if executions == [] {
      SumOfNothing();
    } else {
      var init, last := executions[..|executions| - 1], executions[|executions| - 1];
      ListedIsSum(clientOrderId, symbol, init);
      var before := Reemitted(clientOrderId, symbol, init);
      if IsFill(last) {
        var all := before + [ToFill(clientOrderId, symbol, last)];
        assert Reemitted(clientOrderId, symbol, executions) == all && all[..|all| - 1] == before;
        CreditedIds(before, last.execId);
        ReemittedIds(clientOrderId, symbol, init, last.execId);
        SumWith(Credited(before), last.execId, last.execQty);
      } else {
        assert Reemitted(clientOrderId, symbol, executions) == before;
      }
    }
  }

  lemma SumOfNothing()
    ensures Sum(map[]) == 0.0
  {
  }

  /** Deliveries among which are all of these. */
  ghost predicate Includes(delivered: seq<FillEvent>, part: seq<FillEvent>) {
    forall i :: 0 <= i < |part| ==> part[i] in delivered
  }

  lemma PartConsistent(delivered: seq<FillEvent>, part: seq<FillEvent>)
    requires Consistent(delivered) && Includes(delivered, part)
    ensures Consistent(part)
  {
    forall i, j | 0 <= i < j < |part| && part[i].fillId == part[j].fillId ensures part[i].qty == part[j].qty {
      var k :| 0 <= k < |delivered| && delivered[k] == part[i];
      var l :| 0 <= l < |delivered| && delivered[l] == part[j];
    }
    forall i | 0 <= i < |part| ensures part[i].qty >= 0.0 {
      var k :| 0 <= k < |delivered| && delivered[k] == part[i];
    }
  }

  /** A part's credits are credits of the whole. */
  lemma PartCredited(delivered: seq<FillEvent>, part: seq<FillEvent>, id: string)
    requires Consistent(delivered) && Includes(delivered, part) && id in Credited(part)
    ensures var m := Credited(delivered); id in m && m[id] == Credited(part)[id]
  {
    PartConsistent(delivered, part);
    hide Consistent;
    CreditedIds(part, id);
    var i :| 0 <= i < |part| && part[i].fillId == id;
    CreditedAtQty(part, i);
    var k :| 0 <= k < |delivered| && delivered[k] == part[i];
    CreditedAtQty(delivered, k);
  }

  lemma NothingNegative(delivered: seq<FillEvent>, id: string)
    requires Consistent(delivered) && id in Credited(delivered)
    ensures Credited(delivered)[id] >= 0.0
  {
    CreditedIds(delivered, id);
    var i :| 0 <= i < |delivered| && delivered[i].fillId == id;
    CreditedAtQty(delivered, i);
  }

  /** Whatever the stream delivers before, during and after the re-emission, in any number: each listed trade is credited
      exactly once, at its quantity. */
  lemma EachListedOnce(clientOrderId: string, symbol: string, delivered: seq<FillEvent>, executions: seq<Execution>, i: nat)
    requires Consistent(delivered) && Includes(delivered, Reemitted(clientOrderId, symbol, executions))
    requires i < |executions| && IsFill(executions[i])
    ensures var m := Credited(delivered);
      executions[i].execId in m && m[executions[i].execId] == executions[i].execQty
  {
    var emitted := Reemitted(clientOrderId, symbol, executions);
    ReemittedAt(clientOrderId, symbol, executions, i);
    hide Consistent, Reemitted, Credited;
    var j :| 0 <= j < |emitted| && emitted[j] == ToFill(clientOrderId, symbol, executions[i]);
    var k :| 0 <= k < |delivered| && delivered[k] == emitted[j];
    CreditedAtQty(delivered, k);
  }

  /** Once a cancel has reported the order gone, the credited quantity is no less than the history's, up to its tolerance,
      and exactly the listed one if the stream delivered nothing the listing does not hold. */
  lemma NeitherLostNorTwice(clientOrderId: string, symbol: string, delivered: seq<FillEvent>,
                            listing: Result<seq<Execution>, ListingError>, history: History)
    requires FillsKnown(listing, history) && DistinctIds(listing.value)
    requires Consistent(delivered) && Includes(delivered, Reemitted(clientOrderId, symbol, listing.value))
    ensures var total := Sum(Credited(delivered));
      && total >= ListedQty(listing.value)
      && (history.value.Some? ==> total >= history.value.value - 0.000000001)
      && ((forall d :: d in delivered ==> Lists(listing.value, d.fillId)) ==> total == ListedQty(listing.value))
  {
    var emitted := Reemitted(clientOrderId, symbol, listing.value);
    var part, whole := Credited(emitted), Credited(delivered);
    ListedIsSum(clientOrderId, symbol, listing.value);
    hide Consistent, DistinctIds, Credited, Sum, ListedQty, Lists, Includes, Reemitted;
    forall id | id in part ensures id in whole && whole[id] == part[id] {
      PartCredited(delivered, emitted, id);
    }
    forall id | id in whole ensures whole[id] >= 0.0 {
      NothingNegative(delivered, id);
    }
    SumGrows(part, whole);
    if forall d :: d in delivered ==> Lists(listing.value, d.fillId) {
      forall id | id in whole ensures id in part {
        NoMore(clientOrderId, symbol, delivered, listing.value, id);
      }
      assert part == whole;
    }
  }

  lemma NoMore(clientOrderId: string, symbol: string, delivered: seq<FillEvent>, executions: seq<Execution>, id: string)
    requires forall d :: d in delivered ==> Lists(executions, d.fillId)
    requires id in Credited(delivered)
    ensures id in Credited(Reemitted(clientOrderId, symbol, executions))
  {
    hide Lists;
    CreditedIds(delivered, id);
    CreditedIds(Reemitted(clientOrderId, symbol, executions), id);
    ReemittedIds(clientOrderId, symbol, executions, id);
    var i :| 0 <= i < |delivered| && delivered[i].fillId == id;
    assert delivered[i] in delivered;
  }

  /** In particular with everything else delivered before or after. */
  lemma IncludedBetween(before: seq<FillEvent>, part: seq<FillEvent>, after: seq<FillEvent>)
    ensures Includes(before + part + after, part)
  {
    forall i | 0 <= i < |part| ensures part[i] in before + part + after {
      assert (before + part + after)[|before| + i] == part[i];
    }
  }

  /** Against a venue that pages by offset, an order reported gone has had every one of its executions read: an order with
      more than twenty pages of them is never reported gone. */
  lemma GoneMeansAllRead(all: seq<Execution>, listing: Result<seq<Execution>, ListingError>, requests: nat, history: History)
    requires Outcome(OffsetVenue(all), listing, requests) && FillsKnown(listing, history)
    ensures listing == Ok(all) && |all| <= 2000
  {
    WholeOrNothing(all, listing, requests);
  }

  // ---------------------------------------------------------------- end to end

  /** A venue's executions: no two trades share an id, no quantity is negative. */
  ghost predicate Executed(all: seq<Execution>) {
    DistinctIds(all) && forall i :: 0 <= i < |all| ==> all[i].execQty >= 0.0
  }

  /** Each delivery is the stream's report of one of the venue's trades. */
  ghost predicate Reported(delivered: seq<FillEvent>, all: seq<Execution>) {
    forall i :: 0 <= i < |delivered| ==> ReportedFill(delivered[i], all)
  }

  ghost predicate ReportedFill(fill: FillEvent, all: seq<Execution>) {
    exists k :: 0 <= k < |all| && IsFill(all[k]) && StreamFill(all[k]) == Some(fill)
  }

  lemma FillOfTrade(fill: FillEvent, all: seq<Execution>) returns (k: nat)
    requires ReportedFill(fill, all)
    ensures k < |all| && IsFill(all[k]) && fill.fillId == all[k].execId && fill.qty == all[k].execQty
  {
    k :| k < |all| && IsFill(all[k]) && StreamFill(all[k]) == Some(fill);
  }

  lemma SameTrade(all: seq<Execution>, k: nat, l: nat)
    requires DistinctIds(all) && k < |all| && l < |all| && IsFill(all[k]) && IsFill(all[l])
    requires all[k].execId == all[l].execId
    ensures k == l
  {
  }

  /** Deliveries that report a venue's trades, in any order and number, agree with each other. */
  lemma ReportedAgree(delivered: seq<FillEvent>, all: seq<Execution>)
    requires Executed(all) && Reported(delivered, all)
    ensures Consistent(delivered)
  {
    forall i, j | 0 <= i < j < |delivered| && delivered[i].fillId == delivered[j].fillId
      ensures delivered[i].qty == delivered[j].qty
    {
      var k := FillOfTrade(delivered[i], all);
      var l := FillOfTrade(delivered[j], all);
      SameTrade(all, k, l);
    }
    forall i | 0 <= i < |delivered| ensures delivered[i].qty >= 0.0 {
      var k := FillOfTrade(delivered[i], all);
    }
  }

  /** A re-emitted trade of the order is the stream's report of it. */
  lemma {:induction false} ReemittedIsReported(clientOrderId: string, symbol: string, executions: seq<Execution>,
                                               all: seq<Execution>)
    requires clientOrderId != "" && OfOrder(clientOrderId, symbol, executions)
    requires forall i :: 0 <= i < |executions| ==> executions[i] in all
    ensures Reported(Reemitted(clientOrderId, symbol, executions), all)
  {
    if executions != [] {
      var init, last := executions[..|executions| - 1], executions[|executions| - 1];
      ReemittedIsReported(clientOrderId, symbol, init, all);
      var k :| 0 <= k < |all| && all[k] == last;
      if IsFill(last) {
        assert ReportedFill(ToFill(clientOrderId, symbol, last), all);
      }
    }
  }

  /** End to end, against a venue that pages by offset: once a cancel has reported an order gone, the quantity credited is
      exactly the quantity the venue executed for it, whatever of its trades the stream reported before, during and after,
      late, twice or never. */
  lemma GoneMeansAllCredited(clientOrderId: string, symbol: string, all: seq<Execution>, delivered: seq<FillEvent>,
                             listing: Result<seq<Execution>, ListingError>, requests: nat, history: History)
    requires Outcome(OffsetVenue(all), listing, requests) && FillsKnown(listing, history)
    requires Executed(all) && Reported(delivered, all)
    requires Includes(delivered, Reemitted(clientOrderId, symbol, listing.value))
    ensures listing == Ok(all) && Sum(Credited(delivered)) == ListedQty(all)
  {
    GoneMeansAllRead(all, listing, requests, history);
    ReportedAgree(delivered, all);
    hide Outcome, Sum, Credited, ListedQty, Reemitted, Includes, Consistent, FillsKnown;
    NeitherLostNorTwice(clientOrderId, symbol, delivered, listing, history);
    forall d | d in delivered ensures Lists(all, d.fillId) {
      var i :| 0 <= i < |delivered| && delivered[i] == d;
      var k := FillOfTrade(delivered[i], all);
    }
  }
}
