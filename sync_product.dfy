/**
  lib/syncProduct.js: the older product sync of one bank. It stores the
  provider items verbatim, writes no bank record, and lets the function
  reject when the caught error has no `response`.
 */
module LegacySync {
  import opened Wrappers
  import opened Docs
  import opened Firestore
  import opened Provider

  /** The loop variables `page` and `totalPages`, and the caught error, if any. */
  datatype LegacyPaging = LegacyPaging(page: int, totalPages: int, error: Option<FetchError>)

  const LegacyStart: LegacyPaging := LegacyPaging(1, 1, None)

  /** One provider item: a new or changed product is overwritten with the item itself. */
  function LegacyItem(products: map<string, Product>, p: Product): map<string, Product>
  {
    if p.productId in products then
      var storedProduct := products[p.productId];
      if p.lastUpdated != storedProduct.lastUpdated then products[p.productId := p] else products
    else
      products[p.productId := p]
  }

  function LegacyItems(products: map<string, Product>, items: seq<Product>): map<string, Product>
    decreases |items|
  {
    if items == [] then products else LegacyItems(LegacyItem(products, items[0]), items[1..])
  }

  /** The rest of the page loop; requests carry no `page-size` parameter. */
  function LegacyPages(products: map<string, Product>, pg: LegacyPaging, api: ProductsApi, e: Endpoint, bound: int)
    : (map<string, Product>, LegacyPaging)
    requires PagesBounded(api, bound) && pg.totalPages <= bound
    decreases bound - pg.page
  {
    if pg.error.Some? || pg.page > pg.totalPages then (products, pg)
    else
      match api(e, pg.page, None)
      case Err(failure) => (products, pg.(error := Some(failure)))
      case Ok(response) =>
        LegacyPages(LegacyItems(products, response.products), LegacyPaging(pg.page + 1, response.totalPages, None), api, e, bound)
  }

  /**
    The products collection after `syncProductForBank(db, bankId)`, and
    whether the call rejects: the catch block reads `error.response.data`,
    which throws when the caught error has no response.
   */
  function LegacySyncResult(products: map<string, Product>, banks: map<string, Bank>, bankId: string, api: ProductsApi, bound: int)
    : (map<string, Product>, bool)
    requires PagesBounded(api, bound)
  {
    if bankId !in banks then (products, false)
    else
      var (products', pg) := LegacyPages(products, LegacyStart, api, EndpointOf(banks[bankId]), bound);
      (products', pg.error.Some? && pg.error.value.response.None?)
  }

  /** `syncProductForBank(db, bankId)` of lib/syncProduct.js. */
  method LegacySyncProductForBank(db: Store, bankId: string, api: ProductsApi, ghost bound: int) returns (rejected: bool)
    requires PagesBounded(api, bound)
    modifies db
    ensures (db.products, rejected) == LegacySyncResult(old(db.products), old(db.banks), bankId, api, bound)
    ensures db.banks == old(db.banks) && db.aggregates == old(db.aggregates)
  {
    rejected := false;
    if bankId !in db.banks {
      return;
    }
    var endpoint := EndpointOf(db.banks[bankId]);
    ghost var final := LegacyPages(db.products, LegacyStart, api, endpoint, bound);
    var page, totalPages := 1, 1;
    var caught: Option<FetchError> := None;
    while page <= totalPages && caught.None?
      invariant 1 <= page && totalPages <= bound
      invariant db.banks == old(db.banks) && db.aggregates == old(db.aggregates)
      invariant LegacyPages(db.products, LegacyPaging(page, totalPages, caught), api, endpoint, bound) == final
      decreases bound - page, if caught.None? then 1 else 0
    {
      var response := api(endpoint, page, None);
      if response.Err? {
        caught := Some(response.error);
      } else {
        totalPages := response.value.totalPages;
        LegacySyncPage(db, response.value.products);
        page := page + 1;
      }
    }
    rejected := caught.Some? && caught.value.response.None?;
  }

  method LegacySyncPage(db: Store, items: seq<Product>)
    modifies db
    ensures db.products == LegacyItems(old(db.products), items)
    ensures db.banks == old(db.banks) && db.aggregates == old(db.aggregates)
  {
    ghost var final := LegacyItems(db.products, items);
    var j := 0;
    while j < |items|
      invariant 0 <= j <= |items|
      invariant db.banks == old(db.banks) && db.aggregates == old(db.aggregates)
      invariant LegacyItems(db.products, items[j..]) == final
    {
      assert items[j..][0] == items[j] && items[j..][1..] == items[j + 1..];
      var p := items[j];
      if p.productId in db.products {
        var storedProduct := db.products[p.productId];
        if p.lastUpdated != storedProduct.lastUpdated {
          db.products := db.products[p.productId := p];
        }
      } else {
        db.products := db.products[p.productId := p];
      }
      j := j + 1;
    }
  }

  // ---------------------------------------------------------------------
  // Properties
  // ---------------------------------------------------------------------

  /** No two items share a product id. */
  predicate DistinctProductIds(items: seq<Product>)
  {
    forall i, j :: 0 <= i < j < |items| ==> items[i].productId != items[j].productId
  }

  /** What one item leaves in its document: the stored product if it has the same version, the item otherwise. */
  function Decided(products: map<string, Product>, p: Product): (r: Product)
    ensures r.lastUpdated == p.lastUpdated
    ensures r == p || (p.productId in products && r == products[p.productId])
  {
    if p.productId in products && products[p.productId].lastUpdated == p.lastUpdated then products[p.productId] else p
  }

  /** A document no item names is left as it is, and no document appears without an item. */
  lemma {:induction false} LegacyItemsOther(products: map<string, Product>, items: seq<Product>, k: string)
    decreases |items|
    requires forall i :: 0 <= i < |items| ==> items[i].productId != k
    ensures var r := LegacyItems(products, items);
      (k in r <==> k in products) && (k in products ==> r[k] == products[k])
  {
    if items != [] {
      assert forall i :: 0 <= i < |items[1..]| ==> items[1..][i] == items[i + 1];
      LegacyItemsOther(LegacyItem(products, items[0]), items[1..], k);
    }
  }

  /**
    With distinct ids, every item's document ends as `Decided`, so it holds
    the item's own `lastUpdated`.
   */
  lemma {:induction false} LegacyItemsAt(products: map<string, Product>, items: seq<Product>, i: nat)
    decreases |items|
    requires DistinctProductIds(items) && i < |items|
    ensures var r := LegacyItems(products, items);
      items[i].productId in r && r[items[i].productId] == Decided(products, items[i])
  {
    var m1 := LegacyItem(products, items[0]);
    var rest := items[1..];
    assert forall j :: 0 <= j < |rest| ==> rest[j] == items[j + 1];
    if i == 0 {
      LegacyItemsOther(m1, rest, items[0].productId);
    } else {
      LegacyItemsAt(m1, rest, i - 1);
      assert items[i].productId != items[0].productId;
    }
  }

  /** With distinct ids, every item's document ends with the item's own version: the legacy sync stays current. */
  lemma LegacyPageIsCurrent(products: map<string, Product>, items: seq<Product>)
    requires DistinctProductIds(items)
    ensures var r := LegacyItems(products, items);
      forall i :: 0 <= i < |items| ==> items[i].productId in r && r[items[i].productId].lastUpdated == items[i].lastUpdated
  {
    forall i | 0 <= i < |items|
      ensures items[i].productId in LegacyItems(products, items)
      ensures LegacyItems(products, items)[items[i].productId].lastUpdated == items[i].lastUpdated
    {
      LegacyItemsAt(products, items, i);
    }
  }

  /** With distinct ids, processing a page twice leaves what processing it once leaves. */
  lemma LegacyPageIdempotent(products: map<string, Product>, items: seq<Product>)
    requires DistinctProductIds(items)
    ensures LegacyItems(LegacyItems(products, items), items) == LegacyItems(products, items)
  {
    var r := LegacyItems(products, items);
    var r2 := LegacyItems(r, items);
    forall k ensures (k in r2 <==> k in r) && (k in r ==> r2[k] == r[k])
    {
      if i :| 0 <= i < |items| && items[i].productId == k {
        LegacyItemsAt(products, items, i);
        LegacyItemsAt(r, items, i);
      } else {
        LegacyItemsOther(r, items, k);
      }
    }
    assert r2.Keys == r.Keys;
  }
}
