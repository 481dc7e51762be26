/**
  lib/syncProductForBank.js: the paginated product sync of one bank, and of
  a list of banks one after another. New products are stored with a fresh
  `meta`; a product whose `lastUpdated` changed is flagged for a detail
  refresh; the bank record is stamped with the outcome of the run.
 */
module SyncProducts {
  import opened Wrappers
  import opened Docs
  import opened Firestore
  import opened Provider
  import opened Text

  /** The default `pageSize` of both exported functions. */
  const DefaultPageSize: nat := 100

  /** The products collection and the `totalProductAdded` and `totalProductUpdated` counters. */
  datatype Tally = Tally(products: map<string, Product>, added: nat, updated: nat)

  /** The pagination variables `page`, `totalPages`, `totalProducts`, and the caught error, if any. */
  datatype Paging = Paging(page: int, totalPages: int, totalProducts: int, error: Option<ErrorValue>)

  /** The values the variables hold before the first request. */
  const Start: Paging := Paging(1, 1, 0, None)

  /** A new product: the provider item with `meta` replaced by `{bank, created, updated, hasDetail: false}`. */
  function Stamp(p: Product, bankId: string, now: string): Product
  {
    p.(meta := Some(EmptyMeta.(bank := Some(bankId), created := Some(now), updated := Some(now), hasDetail := Some(false))))
  }

  /** A changed product: the STORED document with only `meta.hasDetail` set to false. */
  function Flag(stored: Product): (r: Product)
    ensures r.(meta := stored.meta) == stored
    ensures r.meta.Some? && r.meta.value.hasDetail == Some(false)
    ensures stored.meta.Some? ==> r.meta.value.(hasDetail := stored.meta.value.hasDetail) == stored.meta.value
    ensures stored.meta.None? ==> r.meta.value.(hasDetail := None) == EmptyMeta
  {
    var meta := if stored.meta.Some? then stored.meta.value else EmptyMeta;
    stored.(meta := Some(meta.(hasDetail := Some(false))))
  }

  /** Flagging twice is flagging once. */
  lemma FlagIdempotent(stored: Product)
    ensures Flag(Flag(stored)) == Flag(stored)
  {
  }

  /** The insert, skip or flag decision for one provider item `p`. */
  function SyncItem(t: Tally, p: Product, bankId: string, now: string): Tally
  {
    var id := p.productId;
    if id in t.products then
      var storedProduct := t.products[id];
      if p.lastUpdated != storedProduct.lastUpdated then
        Tally(t.products[id := Flag(storedProduct)], t.added, t.updated + 1)
      else t
    else
      Tally(t.products[id := Stamp(p, bankId, now)], t.added + 1, t.updated)
  }

  /** The rest of one page, `items`, in order. */
  function SyncItems(t: Tally, items: seq<Product>, bankId: string, now: string): Tally
    decreases |items|
  {
    if items == [] then t else SyncItems(SyncItem(t, items[0], bankId, now), items[1..], bankId, now)
  }

  /** The rest of the `while (page <= totalPages)` loop, from the variables `pg`. */
  function SyncPages(t: Tally, pg: Paging, api: ProductsApi, e: Endpoint, pageSize: nat, bankId: string, now: string,
                     bound: int): (Tally, Paging)
    requires PagesBounded(api, bound) && pg.totalPages <= bound
    decreases bound - pg.page
  {
    if pg.error.Some? || pg.page > pg.totalPages then (t, pg)
    else
      match api(e, pg.page, Some(pageSize))
      case Err(failure) => (t, pg.(error := Some(Recorded(failure))))
      case Ok(response) =>
        SyncPages(SyncItems(t, response.products, bankId, now),
                  Paging(pg.page + 1, response.totalPages, response.totalRecords, None),
                  api, e, pageSize, bankId, now, bound)
  }

  /** `Success with ${totalProducts} products found, ${totalProductAdded} added, ${totalProductUpdated} updated` */
  function SuccessText(totalProducts: int, added: nat, updated: nat): string
  {
    "Success with " + IntToString(totalProducts) + " products found, " + NatToString(added) + " added, " +
    NatToString(updated) + " updated"
  }

  /** The `syncProductResult` written to the bank record at the end of the run. */
  function SyncRecord(t: Tally, pg: Paging, syncedAt: string): (r: SyncResult)
    ensures r.lastSyncedAt == syncedAt && r.error == pg.error
    ensures r.status == "error" <==> pg.error.Some? && Truthy(pg.error.value)
    ensures r.status != "error" ==> r.status == SuccessText(pg.totalProducts, t.added, t.updated)
  {
    var status := if pg.error.Some? && Truthy(pg.error.value) then "error"
                  else SuccessText(pg.totalProducts, t.added, t.updated);
    assert SuccessText(pg.totalProducts, t.added, t.updated)[0] == 'S';
    SyncResult(syncedAt, status, pg.error)
  }

  /** `syncProductForBank(db, bankId, pageSize)`: the new products and banks collections. */
  function SyncBank(products: map<string, Product>, banks: map<string, Bank>, bankId: string, api: ProductsApi,
                    pageSize: nat, now: string, syncedAt: string, bound: int): (map<string, Product>, map<string, Bank>)
    requires PagesBounded(api, bound)
  {
    if bankId !in banks then (products, banks)
    else
      var bank := banks[bankId];
      var (t, pg) := SyncPages(Tally(products, 0, 0), Start, api, EndpointOf(bank), pageSize, bankId, now, bound);
      (t.products, banks[bankId := bank.(syncProductResult := Some(SyncRecord(t, pg, syncedAt)))])
  }

  /** `syncProductForMultipleBanks(db, bankIds, pageSize)`: the banks in the order given. */
  function SyncBanks(products: map<string, Product>, banks: map<string, Bank>, bankIds: seq<string>, api: ProductsApi,
                     pageSize: nat, now: string, syncedAt: string, bound: int): (map<string, Product>, map<string, Bank>)
    requires PagesBounded(api, bound)
    decreases |bankIds|
  {
    if bankIds == [] then (products, banks)
    else
      var (products', banks') := SyncBank(products, banks, bankIds[0], api, pageSize, now, syncedAt, bound);
      SyncBanks(products', banks', bankIds[1..], api, pageSize, now, syncedAt, bound)
  }

  // ---------------------------------------------------------------------
  // The functions as they run against the store
  // ---------------------------------------------------------------------

  /**
    `syncProductForMultipleBanks`. `api` answers the product list requests,
    `now` is the time stamped on new products and `syncedAt` the time stamped
    on bank records; `bound` bounds the page counts the provider reports.
   */
  method SyncProductForMultipleBanks(db: Store, bankIds: seq<string>, pageSize: nat, api: ProductsApi,
                                     now: string, syncedAt: string, ghost bound: int)
    requires PagesBounded(api, bound)
    modifies db
    ensures (db.products, db.banks) == SyncBanks(old(db.products), old(db.banks), bankIds, api, pageSize, now, syncedAt, bound)
    ensures db.aggregates == old(db.aggregates)
  {
    ghost var final := SyncBanks(db.products, db.banks, bankIds, api, pageSize, now, syncedAt, bound);
    var i := 0;
    while i < |bankIds|
      invariant 0 <= i <= |bankIds|
      invariant db.aggregates == old(db.aggregates)
      invariant SyncBanks(db.products, db.banks, bankIds[i..], api, pageSize, now, syncedAt, bound) == final
    {
      assert bankIds[i..][0] == bankIds[i] && bankIds[i..][1..] == bankIds[i + 1..];
      SyncProductForBank(db, bankIds[i], pageSize, api, now, syncedAt, bound);
      i := i + 1;
    }
  }

  /** The banks of the first scheduled batch: CBA, ANZ and NAB. */
  const FirstBatch: seq<string> := ["cba", "anz", "nab"]

  /** The banks of the second scheduled batch: Westpac and Bankwest. */
  const SecondBatch: seq<string> := ["wbc", "bw"]

  /**
    The scheduled batch syncs of `index.js`: `syncProductForMultipleBanks(db, batch)`
    with the default page size.
   */
  method SyncBatch(db: Store, batch: seq<string>, api: ProductsApi, now: string, syncedAt: string, ghost bound: int)
    requires PagesBounded(api, bound)
    modifies db
    ensures (db.products, db.banks) == SyncBanks(old(db.products), old(db.banks), batch, api, DefaultPageSize, now, syncedAt, bound)
    ensures db.aggregates == old(db.aggregates)
  {
    SyncProductForMultipleBanks(db, batch, DefaultPageSize, api, now, syncedAt, bound);
  }

  /** `syncProductForBank`: nothing is written when the bank record does not exist. */
  method SyncProductForBank(db: Store, bankId: string, pageSize: nat, api: ProductsApi,
                            now: string, syncedAt: string, ghost bound: int)
    requires PagesBounded(api, bound)
    modifies db
    ensures (db.products, db.banks) == SyncBank(old(db.products), old(db.banks), bankId, api, pageSize, now, syncedAt, bound)
    ensures db.aggregates == old(db.aggregates)
  {
    if bankId !in db.banks {
      return;
    }
    var bank := db.banks[bankId];
    var endpoint := EndpointOf(bank);
    ghost var final := SyncPages(Tally(db.products, 0, 0), Start, api, endpoint, pageSize, bankId, now, bound);
    var page, totalPages, totalProducts := 1, 1, 0;
    var syncError: Option<ErrorValue> := None;
    var added, updated := 0, 0;
    while page <= totalPages && syncError.None?
      invariant 1 <= page && totalPages <= bound
      invariant db.banks == old(db.banks) && db.aggregates == old(db.aggregates)
      invariant SyncPages(Tally(db.products, added, updated), Paging(page, totalPages, totalProducts, syncError),
                          api, endpoint, pageSize, bankId, now, bound) == final
      decreases bound - page, if syncError.None? then 1 else 0
    {
      var response := api(endpoint, page, Some(pageSize));
      if response.Err? {
        syncError := Some(Recorded(response.error));
      } else {
        totalPages := response.value.totalPages;
        totalProducts := response.value.totalRecords;
        added, updated := SyncPage(db, response.value.products, bankId, now, added, updated);
        page := page + 1;
      }
    }
    var t := Tally(db.products, added, updated);
    db.banks := db.banks[bankId := bank.(syncProductResult := Some(SyncRecord(t, Paging(page, totalPages, totalProducts, syncError), syncedAt)))];
  }

  /** The products of one page, one after another. */
  method SyncPage(db: Store, items: seq<Product>, bankId: string, now: string, added: nat, updated: nat)
    returns (added': nat, updated': nat)
    modifies db
    ensures Tally(db.products, added', updated') == SyncItems(Tally(old(db.products), added, updated), items, bankId, now)
    ensures db.banks == old(db.banks) && db.aggregates == old(db.aggregates)
  {
    ghost var final := SyncItems(Tally(db.products, added, updated), items, bankId, now);
    added', updated' := added, updated;
    var j := 0;
    while j < |items|
      invariant 0 <= j <= |items|
      invariant db.banks == old(db.banks) && db.aggregates == old(db.aggregates)
      invariant SyncItems(Tally(db.products, added', updated'), items[j..], bankId, now) == final
    {
      assert items[j..][0] == items[j] && items[j..][1..] == items[j + 1..];
      var p := items[j];
      if p.productId in db.products {
        var storedProduct := db.products[p.productId];
        if p.lastUpdated != storedProduct.lastUpdated {
          db.products := db.products[p.productId := Flag(storedProduct)];
          updated' := updated' + 1;
        }
      } else {
        db.products := db.products[p.productId := Stamp(p, bankId, now)];
        added' := added' + 1;
      }
      j := j + 1;
    }
  }

  // ---------------------------------------------------------------------
  // What a run does to the products collection
  // ---------------------------------------------------------------------

  /** Processing two stretches of items is processing them joined. */
  lemma {:induction false} SyncItemsAppend(t: Tally, a: seq<Product>, b: seq<Product>, bankId: string, now: string)
    decreases |a|
    ensures SyncItems(t, a + b, bankId, now) == SyncItems(SyncItems(t, a, bankId, now), b, bankId, now)
  {
    if a == [] {
      assert a + b == b;
    } else {
      assert (a + b)[0] == a[0] && (a + b)[1..] == a[1..] + b;
      SyncItemsAppend(SyncItem(t, a[0], bankId, now), a[1..], b, bankId, now);
    }
  }

  /** The items of every page the run fetches, in order. */
  function Fetched(pg: Paging, api: ProductsApi, e: Endpoint, pageSize: nat, bound: int): seq<Product>
    requires PagesBounded(api, bound) && pg.totalPages <= bound
    decreases bound - pg.page
  {
    if pg.error.Some? || pg.page > pg.totalPages then []
    else
      match api(e, pg.page, Some(pageSize))
      case Err(_) => []
      case Ok(response) =>
        response.products + Fetched(Paging(pg.page + 1, response.totalPages, response.totalRecords, None), api, e, pageSize, bound)
  }

  /**
    Which pages a run requests and how it ends never depend on the store, and
    the store ends as if all fetched items formed one page.
   */
  lemma {:induction false} SyncPagesIsSyncOfFetched(t: Tally, t': Tally, pg: Paging, api: ProductsApi, e: Endpoint,
                                                   pageSize: nat, bankId: string, now: string, bound: int)
    requires PagesBounded(api, bound) && pg.totalPages <= bound
    decreases bound - pg.page
    ensures SyncPages(t, pg, api, e, pageSize, bankId, now, bound).0 == SyncItems(t, Fetched(pg, api, e, pageSize, bound), bankId, now)
    ensures SyncPages(t, pg, api, e, pageSize, bankId, now, bound).1 == SyncPages(t', pg, api, e, pageSize, bankId, now, bound).1
  {
    if pg.error.None? && pg.page <= pg.totalPages {
      var res := api(e, pg.page, Some(pageSize));
      if res.Ok? {
        var response := res.value;
        var next := Paging(pg.page + 1, response.totalPages, response.totalRecords, None);
        var t1 := SyncItems(t, response.products, bankId, now);
        SyncPagesIsSyncOfFetched(t1, SyncItems(t', response.products, bankId, now), next, api, e, pageSize, bankId, now, bound);
        SyncItemsAppend(t, response.products, Fetched(next, api, e, pageSize, bound), bankId, now);
      }
    }
  }

  /**
    A stored product stays put: it keeps its `lastUpdated` and at most gets
    flagged; every product keeps its document; every item gets one.
   */
  lemma {:induction false} SyncItemsKeepsStored(t: Tally, items: seq<Product>, bankId: string, now: string, id: string)
    decreases |items|
    requires id in t.products
    ensures var r := SyncItems(t, items, bankId, now).products;
      id in r && (r[id] == t.products[id] || r[id] == Flag(t.products[id]))
  {
    if items != [] {
      var t1 := SyncItem(t, items[0], bankId, now);
      SyncItemsKeepsStored(t1, items[1..], bankId, now, id);
      FlagIdempotent(t.products[id]);
    }
  }

  lemma {:induction false} SyncItemsGrows(t: Tally, items: seq<Product>, bankId: string, now: string)
    decreases |items|
    ensures var r := SyncItems(t, items, bankId, now);
      && t.products.Keys <= r.products.Keys
      && (forall i :: 0 <= i < |items| ==> items[i].productId in r.products)
      && r.added == t.added + |r.products.Keys| - |t.products.Keys|
      && r.updated >= t.updated
  {
    if items != [] {
      var t1 := SyncItem(t, items[0], bankId, now);
      SyncItemsGrows(t1, items[1..], bankId, now);
      if items[0].productId !in t.products {
        assert t1.products.Keys == t.products.Keys + {items[0].productId};
      }
      assert forall i :: 1 <= i < |items| ==> items[i] == items[1..][i - 1];
    }
  }

  /** After `items` ran: every item has a document, current or flagged for a detail refresh. */
  ghost predicate Settled(products: map<string, Product>, items: seq<Product>)
  {
    forall i :: 0 <= i < |items| ==>
      var id := items[i].productId;
      id in products && (products[id].lastUpdated == items[i].lastUpdated || Flag(products[id]) == products[id])
  }

  lemma {:induction false} SyncItemsSettles(t: Tally, items: seq<Product>, bankId: string, now: string)
    decreases |items|
    ensures Settled(SyncItems(t, items, bankId, now).products, items)
  {
    if items != [] {
      var p := items[0];
      var t1 := SyncItem(t, p, bankId, now);
      var r := SyncItems(t1, items[1..], bankId, now).products;
      SyncItemsSettles(t1, items[1..], bankId, now);
      SyncItemsKeepsStored(t1, items[1..], bankId, now, p.productId);
      FlagIdempotent(t1.products[p.productId]);
      assert forall i :: 1 <= i < |items| ==> items[i] == items[1..][i - 1];
    }
  }

  /** Items that have all settled change nothing and add nothing. */
  lemma {:induction false} SettledItemsAreNoop(t: Tally, items: seq<Product>, all: seq<Product>, bankId: string, now: string)
    decreases |items|
    requires Settled(t.products, all) && forall p :: p in items ==> p in all
    ensures SyncItems(t, items, bankId, now).products == t.products
    ensures SyncItems(t, items, bankId, now).added == t.added
  {
    if items != [] {
      assert items[0] in items;
      var t1 := SyncItem(t, items[0], bankId, now);
      assert t1.products == t.products && t1.added == t.added;
      SettledItemsAreNoop(t1, items[1..], all, bankId, now);
    }
  }

  /**
    Running the same sync again with the same provider answers requests the
    same pages, ends the same way, adds nothing and writes no document that
    differs from the first run's.
   */
  lemma SecondSyncChangesNothing(products: map<string, Product>, api: ProductsApi, e: Endpoint, pageSize: nat,
                                 bankId: string, now: string, now': string, bound: int)
    requires PagesBounded(api, bound)
    ensures var (t1, pg1) := SyncPages(Tally(products, 0, 0), Start, api, e, pageSize, bankId, now, bound);
      var (t2, pg2) := SyncPages(Tally(t1.products, 0, 0), Start, api, e, pageSize, bankId, now', bound);
      t2.products == t1.products && t2.added == 0 && pg2 == pg1
  {
    var items := Fetched(Start, api, e, pageSize, bound);
    var t1 := SyncPages(Tally(products, 0, 0), Start, api, e, pageSize, bankId, now, bound).0;
    SyncPagesIsSyncOfFetched(Tally(products, 0, 0), Tally(t1.products, 0, 0), Start, api, e, pageSize, bankId, now, bound);
    SyncItemsSettles(Tally(products, 0, 0), items, bankId, now);
    SyncPagesIsSyncOfFetched(Tally(t1.products, 0, 0), Tally(products, 0, 0), Start, api, e, pageSize, bankId, now', bound);
    SettledItemsAreNoop(Tally(t1.products, 0, 0), items, items, bankId, now');
    // The second run's paging does not depend on its timestamp either.
    SyncPagesIgnoresTime(Tally(t1.products, 0, 0), Start, api, e, pageSize, bankId, now, now', bound);
  }

  lemma {:induction false} SyncPagesIgnoresTime(t: Tally, pg: Paging, api: ProductsApi, e: Endpoint, pageSize: nat,
                                               bankId: string, now: string, now': string, bound: int)
    requires PagesBounded(api, bound) && pg.totalPages <= bound
    decreases bound - pg.page
    ensures SyncPages(t, pg, api, e, pageSize, bankId, now, bound).1 == SyncPages(t, pg, api, e, pageSize, bankId, now', bound).1
  {
    if pg.error.None? && pg.page <= pg.totalPages {
      var res := api(e, pg.page, Some(pageSize));
      if res.Ok? {
        var next := Paging(pg.page + 1, res.value.totalPages, res.value.totalRecords, None);
        SyncPagesIsSyncOfFetched(SyncItems(t, res.value.products, bankId, now), SyncItems(t, res.value.products, bankId, now'),
                                 next, api, e, pageSize, bankId, now, bound);
        SyncPagesIgnoresTime(SyncItems(t, res.value.products, bankId, now'), next, api, e, pageSize, bankId, now, now', bound);
      }
    }
  }

  /**
    The flag branch keeps the stored `lastUpdated`: a product that changed at
    the provider is counted as updated again by every later run until its
    document is replaced.
   */
  lemma ChangedProductStaysStale(t: Tally, p: Product, bankId: string, now: string)
    requires p.productId in t.products && p.lastUpdated != t.products[p.productId].lastUpdated
    ensures var t1 := SyncItem(t, p, bankId, now);
      && t1.products[p.productId] == Flag(t.products[p.productId])
      && t1.products[p.productId].lastUpdated != p.lastUpdated
      && SyncItem(t1, p, bankId, now).updated == t.updated + 2
      && SyncItem(t1, p, bankId, now).products == t1.products
  {
    FlagIdempotent(t.products[p.productId]);
  }

  /**
    Over a whole run, the added count is the number of new product documents,
    every fetched item has a document, and no document disappears.
   */
  lemma SyncCountsNewDocuments(products: map<string, Product>, api: ProductsApi, e: Endpoint, pageSize: nat,
                               bankId: string, now: string, bound: int)
    requires PagesBounded(api, bound)
    ensures var t := SyncPages(Tally(products, 0, 0), Start, api, e, pageSize, bankId, now, bound).0;
      var items := Fetched(Start, api, e, pageSize, bound);
      && products.Keys <= t.products.Keys
      && (forall i :: 0 <= i < |items| ==> items[i].productId in t.products)
      && t.added == |t.products.Keys| - |products.Keys|
  {
    SyncPagesIsSyncOfFetched(Tally(products, 0, 0), Tally(products, 0, 0), Start, api, e, pageSize, bankId, now, bound);
    SyncItemsGrows(Tally(products, 0, 0), Fetched(Start, api, e, pageSize, bound), bankId, now);
  }

  /** The bank record keeps every other bank field; its status is "error" exactly for a truthy caught error. */
  lemma BankRecordOfRun(products: map<string, Product>, banks: map<string, Bank>, bankId: string, api: ProductsApi,
                        pageSize: nat, now: string, syncedAt: string, bound: int)
    requires PagesBounded(api, bound) && bankId in banks
    ensures var (_, banks') := SyncBank(products, banks, bankId, api, pageSize, now, syncedAt, bound);
      var (t, pg) := SyncPages(Tally(products, 0, 0), Start, api, EndpointOf(banks[bankId]), pageSize, bankId, now, bound);
      && banks'.Keys == banks.Keys
      && (forall b :: b in banks && b != bankId ==> banks'[b] == banks[b])
      && banks'[bankId].(syncProductResult := banks[bankId].syncProductResult) == banks[bankId]
      && banks'[bankId].syncProductResult.Some?
      && banks'[bankId].syncProductResult.value.error == pg.error
      && (banks'[bankId].syncProductResult.value.status == "error" <==> pg.error.Some? && Truthy(pg.error.value))
  {
  }

  /**
    A run over a list of banks stamps a sync result on every listed bank that
    has a record, changes no other field of its record, and leaves the records
    of unlisted banks alone; no bank record is created or removed.
   */
  lemma {:induction false} SyncBanksStampsListed(products: map<string, Product>, banks: map<string, Bank>, bankIds: seq<string>,
                                                 api: ProductsApi, pageSize: nat, now: string, syncedAt: string, bound: int)
    requires PagesBounded(api, bound)
    ensures var (_, banks') := SyncBanks(products, banks, bankIds, api, pageSize, now, syncedAt, bound);
      && banks'.Keys == banks.Keys
      && (forall b :: b in banks && b !in bankIds ==> banks'[b] == banks[b])
      && (forall b :: b in banks && b in bankIds ==>
            banks'[b].syncProductResult.Some? && banks'[b].(syncProductResult := banks[b].syncProductResult) == banks[b])
    decreases |bankIds|
  {
    if bankIds != [] {
      var (products1, banks1) := SyncBank(products, banks, bankIds[0], api, pageSize, now, syncedAt, bound);
      if bankIds[0] in banks {
        BankRecordOfRun(products, banks, bankIds[0], api, pageSize, now, syncedAt, bound);
      }
      SyncBanksStampsListed(products1, banks1, bankIds[1..], api, pageSize, now, syncedAt, bound);
      forall b | b in bankIds
        ensures b == bankIds[0] || b in bankIds[1..]
      {
        var k :| 0 <= k < |bankIds| && bankIds[k] == b;
        if k > 0 { assert bankIds[1..][k - 1] == b; }
      }
    }
  }
}
