/** The paged resource query and the child listing (app/suite_api.py). */
module Inventory {
  import opened Common
  import opened Constants
  import opened Server
  import opened SuiteApi

  /** `max(1, ceil(total / page size))`. */
  function PagesFor(total: int): (pages: int)
    ensures pages >= 1
  {
    MaxInt(1, -((-total) / RESOURCE_QUERY_PAGE_SIZE))
  }

  /** The reply to the request for page i, when page 0 is request number `call`. */
  ghost function PageReply(api: Api, kind: Kind, call: nat, i: nat): Reply<Page> {
    api.query(call + i, kind, i)
  }

  /** The resources of pages 0 to n - 1, page i being request number `call + i`. */
  ghost function PagesRead(api: Api, kind: Kind, call: nat, n: nat): seq<InventoryEntry> {
    if n == 0 then []
    else
      var reply := PageReply(api, kind, call, n - 1);
      PagesRead(api, kind, call, n - 1) + if reply.Body? then reply.body.resources else []
  }

  /** How many pages the loop wants after its first n pages: the last reply decides. */
  ghost function PagesWanted(api: Api, kind: Kind, call: nat, n: nat): int
    requires n > 0
  {
    var reply := PageReply(api, kind, call, n - 1);
    if reply.Body? && reply.body.totalCount.Some? then PagesFor(reply.body.totalCount.value)
    else PagesFor(|PagesRead(api, kind, call, n)|)
  }

  /** Every one of the first n pages was answered, each asked for once and in order. */
  ghost predicate AllAnswered(api: Api, kind: Kind, call: nat, n: nat) {
    forall i :: 0 <= i < n ==> PageReply(api, kind, call, i).Body?
  }

  /** A run of the loop that returned after n pages. */
  ghost predicate CompleteRun(api: Api, kind: Kind, call: nat, n: nat, resources: seq<InventoryEntry>) {
    && n >= 1 && AllAnswered(api, kind, call, n)
    && resources == PagesRead(api, kind, call, n)
    && (forall i :: 1 <= i < n ==> i < PagesWanted(api, kind, call, i))
    && PagesWanted(api, kind, call, n) <= n
  }

  /** The loop ends with its nth page: it failed, or it is the last one wanted. */
  ghost predicate EndsWith(api: Api, kind: Kind, call: nat, n: nat) {
    n >= 1 && (!PageReply(api, kind, call, n - 1).Body? || PagesWanted(api, kind, call, n) <= n)
  }

  /** The query that starts at request `call` ends: some page fails, or is the last one wanted. */
  ghost predicate Ends(api: Api, kind: Kind, call: nat) {
    exists n: nat :: EndsWith(api, kind, call, n)
  }

  /**
   All pages of the inventory query. The loop ends exactly when the replies let it, returns normally
   only when every page was answered, and raises on the first page that was not.
   */
  method QueryResources(api: Api, stats: CallStats, kind: Kind)
    returns (r: Outcome<seq<InventoryEntry>>, ghost n: nat)
    requires stats.Valid() && Ends(api, kind, stats.calls)
    modifies stats`calls, stats`failures, stats`log
    ensures stats.Valid() && old(stats.log) <= stats.log && |stats.log| == |old(stats.log)| + n && n >= 1
    ensures r.Value? ==> CompleteRun(api, kind, old(stats.calls), n, r.value)
    ensures r.Value? ==> forall i :: |old(stats.log)| <= i < |stats.log| ==> stats.log[i]
    ensures r.Raise? ==> FailedRun(api, kind, old(stats.calls), n, r.error)
  {
    hide Failures, CallStats.Valid, PagesFor, PagesRead, PagesWanted, AllAnswered;
    ghost var call := stats.calls;
    ghost var last: nat :| EndsWith(api, kind, call, last);
    LogIsCalls(stats);
    var resources: seq<InventoryEntry> := [];
    var page := 0;
    var pages := 1;
    n := 0;
    NoPages(api, kind, call);
    while page < pages
      invariant stats.Valid() && page == n <= last
      invariant old(stats.log) <= stats.log && |stats.log| == |old(stats.log)| + n
      invariant forall i :: |old(stats.log)| <= i < |stats.log| ==> stats.log[i]
      invariant AllAnswered(api, kind, call, n) && resources == PagesRead(api, kind, call, n)
      invariant forall i :: 1 <= i < n ==> i < PagesWanted(api, kind, call, i)
      invariant pages == if n == 0 then 1 else PagesWanted(api, kind, call, n)
      decreases last - page
    {
      LogIsCalls(stats);
      NotYetEnded(api, kind, call, page, last);
      var reply := api.query(stats.calls, kind, page);
      assert reply == PageReply(api, kind, call, page);
      n := n + 1;
      var body := stats.Request(reply);
      if body.Raise? {
        return Raise(body.error), n;
      }
      if body.value.None? {
        return Raise(SuiteApiError), n;
      }
      PageStep(api, kind, call, page, resources);
      resources := resources + body.value.value.resources;
      var reported := body.value.value.totalCount;
      pages := PagesFor(if reported.Some? then reported.value else |resources|);
      page := page + 1;
    }
    return Value(resources), n;
  }

  /** While more pages are wanted the last page is still to come. */
  lemma NotYetEnded(api: Api, kind: Kind, call: nat, n: nat, last: nat)
    requires AllAnswered(api, kind, call, n) && EndsWith(api, kind, call, last) && n <= last
    requires n >= 1 ==> n < PagesWanted(api, kind, call, n)
    ensures n < last
  {
    hide PagesWanted;
  }

  // ----- when the loop ends -----

  /** A reported total of at most `bound` pages. */
  predicate BoundedReply(reply: Reply<Page>, bound: nat) {
    reply.Body? && reply.body.totalCount.Some? ==> reply.body.totalCount.value <= bound * RESOURCE_QUERY_PAGE_SIZE
  }

  predicate ReportsTotal(reply: Reply<Page>) {
    reply.Body? ==> reply.body.totalCount.Some?
  }

  predicate AtMostFull(reply: Reply<Page>) {
    reply.Body? ==> |reply.body.resources| <= RESOURCE_QUERY_PAGE_SIZE
  }

  /**
   The query ends whenever the reported totals are bounded and every page reports one, whatever
   the pages hold, or else no page is longer than asked for.
   */
  lemma BoundedTotalsEnd(api: Api, kind: Kind, call: nat, bound: nat)
    requires forall i: nat :: BoundedReply(PageReply(api, kind, call, i), bound)
    requires (forall i: nat :: ReportsTotal(PageReply(api, kind, call, i)))
             || (forall i: nat :: AtMostFull(PageReply(api, kind, call, i)))
    ensures Ends(api, kind, call)
  {
    hide PagesFor, PagesRead;
    var n := bound + 1;
    var reply := PageReply(api, kind, call, n - 1);
    assert BoundedReply(reply, bound) && (ReportsTotal(reply) || AtMostFull(reply));
    if reply.Body? && reply.body.totalCount.Some? {
      PagesForAtMost(reply.body.totalCount.value, bound);
    } else if reply.Body? {
      FullPages(api, kind, call, n);
      PagesForAtMost(|PagesRead(api, kind, call, n)|, n);
    }
    assert EndsWith(api, kind, call, n);
  }

  lemma {:induction false} FullPages(api: Api, kind: Kind, call: nat, n: nat)
    requires forall i: nat :: AtMostFull(PageReply(api, kind, call, i))
    ensures |PagesRead(api, kind, call, n)| <= n * RESOURCE_QUERY_PAGE_SIZE
  {
    if n > 0 {
      FullPages(api, kind, call, n - 1);
      assert AtMostFull(PageReply(api, kind, call, n - 1));
    }
  }

  /** A page longer than asked for, without a total. */
  predicate LongWithoutTotal(reply: Reply<Page>) {
    reply.Body? && reply.body.totalCount.None? && |reply.body.resources| > RESOURCE_QUERY_PAGE_SIZE
  }

  /** Without either, the query may go on for ever: every page long and none with a total. */
  lemma LongPagesNeverEnd(api: Api, kind: Kind, call: nat)
    requires forall i: nat :: LongWithoutTotal(PageReply(api, kind, call, i))
    ensures !Ends(api, kind, call)
  {
    hide PagesRead;
    forall n: nat ensures !EndsWith(api, kind, call, n) {
      if n >= 1 {
        LongPages(api, kind, call, n);
        assert LongWithoutTotal(PageReply(api, kind, call, n - 1));
      }
    }
  }

  lemma {:induction false} LongPages(api: Api, kind: Kind, call: nat, n: nat)
    requires forall i: nat :: LongWithoutTotal(PageReply(api, kind, call, i))
    ensures |PagesRead(api, kind, call, n)| >= n * (RESOURCE_QUERY_PAGE_SIZE + 1)
  {
    if n > 0 {
      LongPages(api, kind, call, n - 1);
      assert LongWithoutTotal(PageReply(api, kind, call, n - 1));
    }
  }

  lemma PagesForAtMost(total: int, pages: nat)
    requires total <= pages * RESOURCE_QUERY_PAGE_SIZE
    ensures PagesFor(total) <= MaxInt(1, pages)
  {
  }

  /** A run that ended in an exception at request n: all pages before it were answered, and none of them ended it. */
  ghost predicate FailedRun(api: Api, kind: Kind, call: nat, n: nat, error: Exception) {
    && n >= 1 && AllAnswered(api, kind, call, n - 1)
    && (forall i :: 1 <= i < n ==> i < PagesWanted(api, kind, call, i))
    && var failed := PageReply(api, kind, call, n - 1);
       !failed.Body? && error == if failed.NotOk? then SuiteApiError else OtherError
  }

  /** A query whose run ends in an exception. */
  ghost predicate QueryFails(api: Api, kind: Kind, call: nat, error: Exception) {
    exists n :: FailedRun(api, kind, call, n, error)
  }

  lemma RunEnds(api: Api, kind: Kind, call: nat, n: nat, resources: seq<InventoryEntry>, error: Exception)
    requires CompleteRun(api, kind, call, n, resources) || FailedRun(api, kind, call, n, error)
    ensures EndsWith(api, kind, call, n) && forall i :: 1 <= i < n ==> !EndsWith(api, kind, call, i)
  {
    hide PagesRead, PagesWanted;
  }

  /** Whether a query from a given request on returns or raises is decided by the replies, and so is what it returns. */
  lemma OneRun(api: Api, kind: Kind, call: nat, n: nat, resources: seq<InventoryEntry>)
    requires CompleteRun(api, kind, call, n, resources)
    ensures forall error :: !QueryFails(api, kind, call, error)
    ensures forall m: nat, others :: CompleteRun(api, kind, call, m, others) ==> m == n && others == resources
  {
    hide PagesRead, PagesWanted, EndsWith;
    RunEnds(api, kind, call, n, resources, OtherError);
    forall m: nat, others | CompleteRun(api, kind, call, m, others) ensures m == n && others == resources {
      RunEnds(api, kind, call, m, others, OtherError);
    }
    forall m: nat, error | FailedRun(api, kind, call, m, error) ensures m == n {
      RunEnds(api, kind, call, m, resources, error);
    }
  }

  /** Page n is the first one that is wanted and not answered. */
  ghost predicate FirstUnanswered(api: Api, kind: Kind, call: nat, n: nat) {
    && AllAnswered(api, kind, call, n) && !PageReply(api, kind, call, n).Body?
    && forall i :: 1 <= i <= n ==> i < PagesWanted(api, kind, call, i)
  }

  /**
   A query raises the one error when its first unanswered page has a non-2xx status, the other when that page raises or
   cannot be read.
   */
  lemma FailureCause(api: Api, kind: Kind, call: nat)
    ensures QueryFails(api, kind, call, SuiteApiError)
      <==> exists n: nat :: FirstUnanswered(api, kind, call, n) && PageReply(api, kind, call, n).NotOk?
    ensures QueryFails(api, kind, call, OtherError)
      <==> exists n: nat :: FirstUnanswered(api, kind, call, n) && Raises(PageReply(api, kind, call, n))
  {
    hide PagesRead, PagesWanted;
    forall n: nat | FirstUnanswered(api, kind, call, n)
      ensures FailedRun(api, kind, call, n + 1, if PageReply(api, kind, call, n).NotOk? then SuiteApiError else OtherError)
    {
    }
    forall n: nat, error | FailedRun(api, kind, call, n, error)
      ensures n >= 1 && FirstUnanswered(api, kind, call, n - 1)
      ensures error == if PageReply(api, kind, call, n - 1).NotOk? then SuiteApiError else OtherError
    {
    }
  }

  lemma QueryFailsOnce(api: Api, kind: Kind, call: nat, a: Exception, b: Exception)
    requires QueryFails(api, kind, call, a) && QueryFails(api, kind, call, b)
    ensures a == b
  {
    hide PagesRead, PagesWanted, EndsWith;
    var n, m :| FailedRun(api, kind, call, n, a) && FailedRun(api, kind, call, m, b);
    RunEnds(api, kind, call, n, [], a);
    RunEnds(api, kind, call, m, [], b);
  }

  lemma ListingFailsOnce(api: Api, kind: Kind, call: nat, a: Exception, b: Exception)
    requires ListingFails(api, kind, call, a) && ListingFails(api, kind, call, b)
    ensures a == b
  {
    hide CompleteRun, QueryFails, Named;
    if n: nat, entries :| CompleteRun(api, kind, call, n, entries) {
      OneRun(api, kind, call, n, entries);
    } else {
      QueryFailsOnce(api, kind, call, a, b);
    }
  }

  lemma NoPages(api: Api, kind: Kind, call: nat)
    ensures AllAnswered(api, kind, call, 0) && PagesRead(api, kind, call, 0) == []
  {
  }

  /** One more answered page: what is read and what is wanted. */
  lemma PageStep(api: Api, kind: Kind, call: nat, n: nat, resources: seq<InventoryEntry>)
    requires AllAnswered(api, kind, call, n) && resources == PagesRead(api, kind, call, n)
    requires PageReply(api, kind, call, n).Body?
    ensures var page := PageReply(api, kind, call, n).body;
      var next := resources + page.resources;
      && AllAnswered(api, kind, call, n + 1)
      && next == PagesRead(api, kind, call, n + 1)
      && PagesFor(if page.totalCount.Some? then page.totalCount.value else |next|) == PagesWanted(api, kind, call, n + 1)
  {
  }

  // ----- what a complete run returns -----

  /** Page number `page` of an inventory. */
  function PageOf(inventory: seq<InventoryEntry>, page: nat): seq<InventoryEntry> {
    var from, to := page * RESOURCE_QUERY_PAGE_SIZE, (page + 1) * RESOURCE_QUERY_PAGE_SIZE;
    if from >= |inventory| then [] else if to >= |inventory| then inventory[from..] else inventory[from..to]
  }

  function UpTo(inventory: seq<InventoryEntry>, pages: nat): seq<InventoryEntry> {
    if pages * RESOURCE_QUERY_PAGE_SIZE >= |inventory| then inventory else inventory[..pages * RESOURCE_QUERY_PAGE_SIZE]
  }

  /** An answered page is a page of this inventory, and reports its true size or none. */
  predicate PageFrom(reply: Reply<Page>, inventory: seq<InventoryEntry>, page: nat) {
    reply.Body? ==>
      && reply.body.resources == PageOf(inventory, page)
      && (reply.body.totalCount.Some? ==> reply.body.totalCount.value == |inventory|)
  }

  ghost predicate Paged(api: Api, kind: Kind, call: nat, inventory: seq<InventoryEntry>) {
    forall i: nat :: PageFrom(PageReply(api, kind, call, i), inventory, i)
  }

  lemma {:induction false} PagedRead(api: Api, kind: Kind, call: nat, n: nat, inventory: seq<InventoryEntry>)
    requires Paged(api, kind, call, inventory) && AllAnswered(api, kind, call, n)
    ensures PagesRead(api, kind, call, n) == UpTo(inventory, n)
  {
    if n > 0 {
      hide UpTo, PageOf;
      PagedRead(api, kind, call, n - 1, inventory);
      assert PageFrom(PageReply(api, kind, call, n - 1), inventory, n - 1);
      UpToStep(inventory, n - 1);
    } else {
      assert PagesRead(api, kind, call, 0) == [];
    }
  }

  lemma UpToStep(inventory: seq<InventoryEntry>, n: nat)
    ensures UpTo(inventory, n + 1) == UpTo(inventory, n) + PageOf(inventory, n)
  {
  }

  /** After n pages of an inventory: with a reported total all its pages are wanted, without one no further page. */
  lemma PagedWanted(api: Api, kind: Kind, call: nat, n: nat, inventory: seq<InventoryEntry>)
    requires Paged(api, kind, call, inventory) && n >= 1 && AllAnswered(api, kind, call, n)
    ensures var total := PageReply(api, kind, call, n - 1).body.totalCount;
      if total.Some? then PagesWanted(api, kind, call, n) == PagesFor(|inventory|) else PagesWanted(api, kind, call, n) <= n
  {
    assert PageFrom(PageReply(api, kind, call, n - 1), inventory, n - 1);
    PagedRead(api, kind, call, n, inventory);
  }

  lemma UpToIsWhole(inventory: seq<InventoryEntry>, n: nat)
    requires n >= 1
    ensures UpTo(inventory, n) == inventory <==> PagesFor(|inventory|) <= n
  {
  }

  /**
   Of an inventory whose pages report its true total or none, a run returns the first pages in
   order. It returns the whole inventory exactly when every page before the last needed one reports the total.
   */
  lemma WholeInventoryNeedsTotals(api: Api, kind: Kind, call: nat, n: nat, resources: seq<InventoryEntry>,
                                  inventory: seq<InventoryEntry>)
    requires Paged(api, kind, call, inventory) && CompleteRun(api, kind, call, n, resources)
    ensures resources == UpTo(inventory, n) && n <= PagesFor(|inventory|)
    ensures resources == inventory <==>
      forall i :: 0 <= i < PagesFor(|inventory|) - 1 ==> HasTotal(PageReply(api, kind, call, i))
  {
    hide PagesRead, PagesWanted, PagesFor, UpTo, PageFrom;
    var needed := PagesFor(|inventory|);
    assert needed < n ==> needed < PagesWanted(api, kind, call, needed);
    PagedRead(api, kind, call, n, inventory);
    UpToIsWhole(inventory, n);
    forall i: nat | 1 <= i <= n
      ensures if HasTotal(PageReply(api, kind, call, i - 1)) then PagesWanted(api, kind, call, i) == needed
              else PagesWanted(api, kind, call, i) <= i
    {
      PagedWanted(api, kind, call, i, inventory);
    }
    if n < needed {
      assert !HasTotal(PageReply(api, kind, call, n - 1));
    } else {
      forall i | 0 <= i < needed - 1 ensures HasTotal(PageReply(api, kind, call, i)) {
        assert i + 1 < n ==> i + 1 < PagesWanted(api, kind, call, i + 1);
      }
    }
  }

  predicate HasTotal(reply: Reply<Page>) {
    reply.Body? && reply.body.totalCount.Some?
  }

  /** Every request sees the same inventory and reports its true size. */
  ghost predicate Stable(api: Api, kind: Kind, inventory: seq<InventoryEntry>) {
    forall call, page :: api.query(call, kind, page) == Body(Page(PageOf(inventory, page), Some(|inventory|)))
  }

  /**
   Against a stable inventory with an honest total, a run returns the inventory in order, with no
   loss and no repeat, after exactly max(1, ceil(n / 1000)) requests.
   */
  lemma StableInventory(api: Api, kind: Kind, call: nat, n: nat, resources: seq<InventoryEntry>, inventory: seq<InventoryEntry>)
    requires Stable(api, kind, inventory) && CompleteRun(api, kind, call, n, resources)
    ensures resources == inventory
    ensures n == PagesFor(|inventory|)
  {
    hide PagesRead, PagesWanted, PagesFor, UpTo, PageOf;
    assert forall i: nat :: PageReply(api, kind, call, i) == api.query(call + i, kind, i);
    WholeInventoryNeedsTotals(api, kind, call, n, resources, inventory);
    UpToIsWhole(inventory, n);
  }

  /** A page that reports no total ends the query, however many resources there are, unless pages are longer than asked for. */
  lemma MissingTotalEndsQuery(api: Api, kind: Kind, call: nat, n: nat, resources: seq<InventoryEntry>, page: nat)
    requires CompleteRun(api, kind, call, n, resources) && page < n
    requires forall i: nat :: AtMostFull(PageReply(api, kind, call, i))
    requires PageReply(api, kind, call, page).body.totalCount.None?
    ensures n == page + 1
  {
    hide PagesFor, PagesRead;
    assert n <= page + 1 || page + 1 < PagesWanted(api, kind, call, page + 1);
    FullPages(api, kind, call, page + 1);
    PagesForAtMost(|PagesRead(api, kind, call, page + 1)|, page + 1);
  }

  /** A server that reports the total with the first page only. */
  function FirstTotalOnly(inventory: seq<InventoryEntry>): (nat, Kind, nat) -> Reply<Page> {
    (call: nat, kind: Kind, page: nat) => Body(Page(PageOf(inventory, page), if page == 0 then Some(|inventory|) else None))
  }

  /** 2500 resources whose total is not repeated on the second page: a normal return with 2000 of them. */
  lemma SecondPageWithoutTotal(api: Api, kind: Kind, call: nat, inventory: seq<InventoryEntry>)
    requires |inventory| == 2500 && api.query == FirstTotalOnly(inventory)
    ensures CompleteRun(api, kind, call, 2, inventory[..2000])
    ensures inventory[..2000] != inventory
  {
    assert forall i: nat :: PageReply(api, kind, call, i) == FirstTotalOnly(inventory)(call + i, kind, i);
    assert AllAnswered(api, kind, call, 2);
    PagedRead(api, kind, call, 2, inventory);
    PagedRead(api, kind, call, 1, inventory);
    assert PagesWanted(api, kind, call, 1) == 3;
    assert PagesWanted(api, kind, call, 2) == 2;
  }

  // ----- reading the entries -----

  /** Ids and names; an entry without a resource key raises. */
  function Named(entries: seq<InventoryEntry>): (r: Outcome<seq<Resource>>)
    ensures r.Value? ==> |r.value| == |entries|
    ensures r.Value? ==> forall i :: 0 <= i < |entries| ==>
      entries[i].key.Some? && r.value[i] == Resource(entries[i].id, entries[i].key.value.name)
    ensures r.Raise? ==> r.error == OtherError && exists i :: 0 <= i < |entries| && entries[i].key.None?
  {
    if entries == [] then Value([])
    else
      var rest := Named(entries[..|entries| - 1]);
      var last := entries[|entries| - 1];
      if rest.Raise? then rest
      else if last.key.None? then Raise(OtherError)
      else Value(rest.value + [Resource(last.id, last.key.value.name)])
  }

  /** Keys by id; entries without a key are skipped, a later entry wins. */
  function KeysById(entries: seq<InventoryEntry>): map<Id, ResourceKey> {
    if entries == [] then map[]
    else
      var before, last := KeysById(entries[..|entries| - 1]), entries[|entries| - 1];
      if last.key.Some? then before[last.id := last.key.value] else before
  }

  /** Entry i is the last one of this id that has a key. */
  ghost predicate LastWithKey(entries: seq<InventoryEntry>, id: Id, i: int) {
    && 0 <= i < |entries| && entries[i].id == id && entries[i].key.Some?
    && forall j :: i < j < |entries| && entries[j].id == id ==> entries[j].key.None?
  }

  /** An id has the key of its last entry with one, and is missing exactly when it has no such entry. */
  lemma {:induction false} LastKeyWins(entries: seq<InventoryEntry>, id: Id)
    ensures id in KeysById(entries) <==> exists i :: LastWithKey(entries, id, i)
    ensures forall i :: LastWithKey(entries, id, i) ==> Some(KeysById(entries)[id]) == entries[i].key
  {
    if entries != [] {
      var n := |entries| - 1;
      var init, last := entries[..n], entries[n];
      LastKeyWins(init, id);
      if last.id == id && last.key.Some? {
        assert LastWithKey(entries, id, n);
      } else {
        forall i ensures LastWithKey(init, id, i) <==> LastWithKey(entries, id, i) {
          assert 0 <= i < n ==> init[i] == entries[i];
          assert forall j :: 0 <= j < n ==> init[j] == entries[j];
        }
      }
    }
  }

  /** A complete run of requests from number `call` up to `after` that listed these resources. */
  ghost predicate ListedAs(api: Api, kind: Kind, call: nat, after: nat, resources: seq<Resource>) {
    exists entries :: call < after && CompleteRun(api, kind, call, after - call, entries) && Named(entries) == Value(resources)
  }

  /** The query raised, or one of the entries it returned cannot be read. */
  ghost predicate ListingFails(api: Api, kind: Kind, call: nat, error: Exception) {
    || QueryFails(api, kind, call, error)
    || (error == OtherError && exists n, entries :: CompleteRun(api, kind, call, n, entries) && Named(entries).Raise?)
  }

  /** A complete run of requests from number `call` up to `after` that gave these keys. */
  ghost predicate KeyedAs(api: Api, kind: Kind, call: nat, after: nat, keys: map<Id, ResourceKey>) {
    exists entries :: call < after && CompleteRun(api, kind, call, after - call, entries) && KeysById(entries) == keys
  }

  method FetchResources(api: Api, stats: CallStats, kind: Kind) returns (r: Outcome<seq<Resource>>)
    requires stats.Valid() && Ends(api, kind, stats.calls)
    modifies stats`calls, stats`failures, stats`log
    ensures stats.Valid() && old(stats.log) <= stats.log
    ensures r.Value? ==> forall i :: |old(stats.log)| <= i < |stats.log| ==> stats.log[i]
    ensures r.Value? ==> ListedAs(api, kind, old(stats.calls), stats.calls, r.value)
    ensures r.Raise? ==> ListingFails(api, kind, old(stats.calls), r.error)
  {
    hide Named, Ends, CompleteRun, CallStats.Valid;
    LogIsCalls(stats);
    var entries;
    ghost var n;
    entries, n := QueryResources(api, stats, kind);
    LogIsCalls(stats);
    if entries.Raise? {
      return Raise(entries.error);
    }
    r := Named(entries.value);
  }

  method FetchResourceKeys(api: Api, stats: CallStats, kind: Kind)
    returns (r: Outcome<map<Id, ResourceKey>>)
    requires stats.Valid() && Ends(api, kind, stats.calls)
    modifies stats`calls, stats`failures, stats`log
    ensures stats.Valid() && old(stats.log) <= stats.log
    ensures r.Value? ==> forall i :: |old(stats.log)| <= i < |stats.log| ==> stats.log[i]
    ensures r.Value? ==> KeyedAs(api, kind, old(stats.calls), stats.calls, r.value)
    ensures r.Raise? ==> QueryFails(api, kind, old(stats.calls), r.error)
  {
    hide KeysById, Ends, CompleteRun, CallStats.Valid;
    LogIsCalls(stats);
    var entries;
    ghost var n;
    entries, n := QueryResources(api, stats, kind);
    LogIsCalls(stats);
    if entries.Raise? {
      return Raise(entries.error);
    }
    r := Value(KeysById(entries.value));
  }

  // ----- children -----

  function OfKind(children: seq<Child>, kind: Kind): seq<Resource> {
    if children == [] then []
    else
      var last := children[|children| - 1];
      OfKind(children[..|children| - 1], kind) + if last.kind == kind then [Resource(last.id, last.name)] else []
  }

  /** Exactly the children of the kind, each as often as it is listed, in the order of the listing. */
  lemma {:induction false} KindInOrder(first: seq<Child>, second: seq<Child>, c: Child, kind: Kind)
    ensures OfKind(first + second, kind) == OfKind(first, kind) + OfKind(second, kind)
    ensures OfKind([c], kind) == if c.kind == kind then [Resource(c.id, c.name)] else []
    ensures OfKind([], kind) == []
  {
    assert [c][..0] == [];
    if second == [] {
      assert first + second == first;
    } else {
      var n := |second| - 1;
      assert (first + second)[..|first| + n] == first + second[..n];
      KindInOrder(first, second[..n], c, kind);
    }
  }

  /** The direct children of one kind. A failed listing is an empty one. */
  method FetchChildrenOfKind(api: Api, stats: CallStats, resourceId: Id, kind: Kind) returns (r: Outcome<seq<Resource>>)
    requires stats.Valid()
    modifies stats`calls, stats`failures, stats`log
    ensures stats.Valid()
    ensures var reply := api.children(old(stats.calls), resourceId);
      && stats.log == old(stats.log) + [Succeeded(reply)]
      && r == match reply
              case Body(children) => Value(OfKind(children, kind))
              case NotOk => Value([])
              case Raised => Raise(OtherError)
              case Malformed => Raise(OtherError)
  {
    var body := stats.Request(api.children(stats.calls, resourceId));
    if body.Raise? {
      return Raise(body.error);
    }
    return Value(if body.value.None? then [] else OfKind(body.value.value, kind));
  }
}
