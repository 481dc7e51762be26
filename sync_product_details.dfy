/**
  lib/syncProductDetails.js: every product flagged with `meta.hasDetail ==
  false` is replaced by its detail payload from its bank's API, with a merged
  `meta`; a failure for one product is recorded and does not stop the others.
 */
module ProductDetails {
  import opened Wrappers
  import opened Docs
  import opened Firestore
  import opened Provider
  import opened Utils

  /** `[totalPeriodicFee, feeCalculationWarnings]` */
  datatype FeeCalculation = FeeCalculation(totalPeriodicFee: Value, warnings: seq<string>)

  /**
    `getTotalPeriodicFee(productDetails.fees)`. lib/utils.js does not define
    it, so it is a parameter; `Err` stands for any throw, including the
    TypeError of calling an undefined function or destructuring its result.
   */
  type FeeCalculator = Option<seq<Record>> -> Result<FeeCalculation, string>

  /** What was thrown inside the `try` for one product. */
  datatype DetailFailure =
    | MissingBankId                   // `db.collection("banks").doc(undefined)`
    | FetchFailed(error: FetchError)  // the detail request or reading `response.data.data`
    | FeeFailed(message: string)      // the fee calculation

  /** An entry of `syncErrors`: the product, its `meta.bank`, and the error. */
  datatype DetailError = DetailError(productId: string, bank: Option<string>, cause: DetailFailure)

  /** How one selected product ended. */
  datatype Outcome =
    | NoBank                                    // the bank record does not exist
    | Enriched(doc: Product, detailId: string)  // written; `detailId` is pushed onto `syncSuccesses`
    | Failed(error: DetailError)                // pushed onto `syncErrors`

  /** `meta.hasDetail == false`, the query filter. */
  predicate IsPending(p: Product)
  {
    p.meta.Some? && p.meta.value.hasDetail == Some(false)
  }

  /** The documents the query `where("meta.hasDetail", "==", false)` selects. */
  function Pending(products: map<string, Product>): (r: map<string, Product>)
    ensures forall id :: id in r <==> id in products && IsPending(products[id])
    ensures forall id :: id in r ==> r[id] == products[id]
  {
    map id | id in products && IsPending(products[id]) :: products[id]
  }

  /** The written document: the detail payload with the old `meta` overlaid with the sync's results. */
  function EnrichedDoc(product: Product, detail: Product, fee: FeeCalculation, now: string): (r: Product)
    requires IsPending(product)
    ensures r.(meta := detail.meta) == detail
    ensures r.meta.Some? && !IsPending(r)
    ensures r.meta.value.hasDetail == Some(true) && r.meta.value.updated == Some(now)
    ensures r.meta.value.categoryType == Some(ParseCategoryType(detail.productCategory))
    ensures r.meta.value.totalPeriodicFee == Some(fee.totalPeriodicFee) && r.meta.value.warnings == Some(fee.warnings)
    ensures r.meta.value.(updated := product.meta.value.updated, hasDetail := product.meta.value.hasDetail,
                          categoryType := product.meta.value.categoryType,
                          totalPeriodicFee := product.meta.value.totalPeriodicFee,
                          warnings := product.meta.value.warnings) == product.meta.value
  {
    var meta := product.meta.value;
    detail.(meta := Some(meta.(updated := Some(now), hasDetail := Some(true),
                               categoryType := Some(ParseCategoryType(detail.productCategory)),
                               totalPeriodicFee := Some(fee.totalPeriodicFee), warnings := Some(fee.warnings))))
  }

  /** The body of the `try` for one selected product. */
  function EnrichOne(banks: map<string, Bank>, product: Product, api: DetailsApi, fees: FeeCalculator, now: string): Outcome
    requires IsPending(product)
  {
    var bankId := product.meta.value.bank;
    if bankId.None? then Failed(DetailError(product.productId, bankId, MissingBankId))
    else if bankId.value !in banks then NoBank
    else
      match api(EndpointOf(banks[bankId.value]), product.productId)
      case Err(failure) => Failed(DetailError(product.productId, bankId, FetchFailed(failure)))
      case Ok(detail) =>
        match fees(detail.fees)
        case Err(message) => Failed(DetailError(product.productId, bankId, FeeFailed(message)))
        case Ok(fee) => Enriched(EnrichedDoc(product, detail, fee, now), detail.productId)
  }

  /** The products collection, `syncSuccesses` and `syncErrors` after the selected documents `docs`. */
  datatype Summary = Summary(products: map<string, Product>, successes: seq<string>, errors: seq<DetailError>)

  /** The rest of the selected documents, one after another. */
  function EnrichAll(s: Summary, docs: seq<(string, Product)>, banks: map<string, Bank>, api: DetailsApi,
                     fees: FeeCalculator, now: string): Summary
    requires forall i :: 0 <= i < |docs| ==> IsPending(docs[i].1)
    decreases |docs|
  {
    if docs == [] then s
    else
      var next := match EnrichOne(banks, docs[0].1, api, fees, now)
        case NoBank => s
        case Enriched(doc, detailId) => Summary(s.products[docs[0].0 := doc], s.successes + [detailId], s.errors)
        case Failed(error) => s.(errors := s.errors + [error]);
      EnrichAll(next, docs[1..], banks, api, fees, now)
  }

  /**
    `syncProductDetails(db)` over `snapshot`, the query result; the logged
    `syncSuccesses` and `syncErrors` are returned.
   */
  method SyncProductDetails(db: Store, snapshot: seq<(string, Product)>, api: DetailsApi, fees: FeeCalculator, now: string)
    returns (successes: seq<string>, errors: seq<DetailError>)
    requires IsSnapshot(snapshot, Pending(db.products))
    modifies db
    ensures forall i :: 0 <= i < |snapshot| ==> IsPending(snapshot[i].1)
    ensures Summary(db.products, successes, errors) == EnrichAll(Summary(old(db.products), [], []), snapshot, old(db.banks), api, fees, now)
    ensures db.banks == old(db.banks) && db.aggregates == old(db.aggregates)
  {
    assert forall i :: 0 <= i < |snapshot| ==> IsPending(snapshot[i].1);
    if |snapshot| == 0 {
      return [], [];
    }
    successes, errors := EnrichDocuments(db, snapshot, api, fees, now);
  }

  /** The loop over the selected documents. */
  method EnrichDocuments(db: Store, docs: seq<(string, Product)>, api: DetailsApi, fees: FeeCalculator, now: string)
    returns (successes: seq<string>, errors: seq<DetailError>)
    requires forall i :: 0 <= i < |docs| ==> IsPending(docs[i].1)
    modifies db
    ensures Summary(db.products, successes, errors) == EnrichAll(Summary(old(db.products), [], []), docs, old(db.banks), api, fees, now)
    ensures db.banks == old(db.banks) && db.aggregates == old(db.aggregates)
  {
    ghost var final := EnrichAll(Summary(db.products, [], []), docs, db.banks, api, fees, now);
    successes, errors := [], [];
    var i := 0;
    while i < |docs|
      invariant 0 <= i <= |docs|
      invariant db.banks == old(db.banks) && db.aggregates == old(db.aggregates)
      invariant EnrichAll(Summary(db.products, successes, errors), docs[i..], db.banks, api, fees, now) == final
    {
      assert docs[i..][0] == docs[i] && docs[i..][1..] == docs[i + 1..];
      var (docId, product) := docs[i];
      var bankId := product.meta.value.bank;
      if bankId.None? {
        errors := errors + [DetailError(product.productId, bankId, MissingBankId)];
      } else if bankId.value in db.banks {
        var bank := db.banks[bankId.value];
        var response := api(EndpointOf(bank), product.productId);
        if response.Err? {
          errors := errors + [DetailError(product.productId, bankId, FetchFailed(response.error))];
        } else {
          var productDetails := response.value;
          var fee := fees(productDetails.fees);
          if fee.Err? {
            errors := errors + [DetailError(product.productId, bankId, FeeFailed(fee.error))];
          } else {
            db.products := db.products[docId := EnrichedDoc(product, productDetails, fee.value, now)];
            successes := successes + [productDetails.productId];
          }
        }
      }
      i := i + 1;
    }
  }

  // ---------------------------------------------------------------------
  // Properties
  // ---------------------------------------------------------------------

  /** The outcome of document `i` of `docs`. */
  function OutcomeOf(docs: seq<(string, Product)>, i: nat, banks: map<string, Bank>, api: DetailsApi, fees: FeeCalculator, now: string): Outcome
    requires i < |docs| && IsPending(docs[i].1)
  {
    EnrichOne(banks, docs[i].1, api, fees, now)
  }

  /** How many of `docs` found no bank record. */
  function Skipped(docs: seq<(string, Product)>, banks: map<string, Bank>, api: DetailsApi, fees: FeeCalculator, now: string): nat
    requires forall i :: 0 <= i < |docs| ==> IsPending(docs[i].1)
    decreases |docs|
  {
    if docs == [] then 0
    else (if EnrichOne(banks, docs[0].1, api, fees, now).NoBank? then 1 else 0) + Skipped(docs[1..], banks, api, fees, now)
  }

  /** Every selected product is a success, an error or skipped, exactly one of them. */
  lemma {:induction false} EveryDocumentAccounted(s: Summary, docs: seq<(string, Product)>, banks: map<string, Bank>,
                                                  api: DetailsApi, fees: FeeCalculator, now: string)
    requires forall i :: 0 <= i < |docs| ==> IsPending(docs[i].1)
    decreases |docs|
    ensures var r := EnrichAll(s, docs, banks, api, fees, now);
      |r.successes| - |s.successes| + |r.errors| - |s.errors| + Skipped(docs, banks, api, fees, now) == |docs|
      && |s.successes| <= |r.successes| && |s.errors| <= |r.errors|
  {
    if docs != [] {
      var next := match EnrichOne(banks, docs[0].1, api, fees, now)
        case NoBank => s
        case Enriched(doc, detailId) => Summary(s.products[docs[0].0 := doc], s.successes + [detailId], s.errors)
        case Failed(error) => s.(errors := s.errors + [error]);
      EveryDocumentAccounted(next, docs[1..], banks, api, fees, now);
    }
  }

  /** A document the selection does not name keeps its contents. */
  lemma {:induction false} UnselectedUntouched(s: Summary, docs: seq<(string, Product)>, banks: map<string, Bank>,
                                               api: DetailsApi, fees: FeeCalculator, now: string, k: string)
    requires forall i :: 0 <= i < |docs| ==> IsPending(docs[i].1)
    requires forall i :: 0 <= i < |docs| ==> docs[i].0 != k
    decreases |docs|
    ensures var r := EnrichAll(s, docs, banks, api, fees, now).products;
      (k in r <==> k in s.products) && (k in s.products ==> r[k] == s.products[k])
  {
    if docs != [] {
      var next := match EnrichOne(banks, docs[0].1, api, fees, now)
        case NoBank => s
        case Enriched(doc, detailId) => Summary(s.products[docs[0].0 := doc], s.successes + [detailId], s.errors)
        case Failed(error) => s.(errors := s.errors + [error]);
      assert forall i :: 0 <= i < |docs[1..]| ==> docs[1..][i] == docs[i + 1];
      UnselectedUntouched(next, docs[1..], banks, api, fees, now, k);
    }
  }

  /**
    With distinct ids, document `i` ends as its outcome says: replaced by
    the enriched payload, or unchanged after a failure or a missing bank.
   */
  lemma {:induction false} EachDocumentItsOutcome(s: Summary, docs: seq<(string, Product)>, banks: map<string, Bank>,
                                                  api: DetailsApi, fees: FeeCalculator, now: string, i: nat)
    requires forall j :: 0 <= j < |docs| ==> IsPending(docs[j].1)
    requires DistinctIds(docs) && i < |docs| && docs[i].0 in s.products
    decreases |docs|
    ensures var r := EnrichAll(s, docs, banks, api, fees, now).products;
      var outcome := OutcomeOf(docs, i, banks, api, fees, now);
      docs[i].0 in r && r[docs[i].0] == (if outcome.Enriched? then outcome.doc else s.products[docs[i].0])
  {
    var next := match EnrichOne(banks, docs[0].1, api, fees, now)
      case NoBank => s
      case Enriched(doc, detailId) => Summary(s.products[docs[0].0 := doc], s.successes + [detailId], s.errors)
      case Failed(error) => s.(errors := s.errors + [error]);
    var rest := docs[1..];
    assert forall j :: 0 <= j < |rest| ==> rest[j] == docs[j + 1];
    if i == 0 {
      UnselectedUntouched(next, rest, banks, api, fees, now, docs[0].0);
    } else {
      assert docs[i].0 != docs[0].0;
      EachDocumentItsOutcome(next, rest, banks, api, fees, now, i - 1);
    }
  }

  /** When every selected product succeeded, each got its outcome `Enriched`. */
  lemma {:induction false} AllSucceeded(s: Summary, docs: seq<(string, Product)>, banks: map<string, Bank>,
                                        api: DetailsApi, fees: FeeCalculator, now: string)
    requires forall i :: 0 <= i < |docs| ==> IsPending(docs[i].1)
    requires |EnrichAll(s, docs, banks, api, fees, now).successes| == |s.successes| + |docs|
    decreases |docs|
    ensures forall i :: 0 <= i < |docs| ==> OutcomeOf(docs, i, banks, api, fees, now).Enriched?
  {
    if docs != [] {
      var outcome := EnrichOne(banks, docs[0].1, api, fees, now);
      var next := match outcome
        case NoBank => s
        case Enriched(doc, detailId) => Summary(s.products[docs[0].0 := doc], s.successes + [detailId], s.errors)
        case Failed(error) => s.(errors := s.errors + [error]);
      var rest := docs[1..];
      assert EnrichAll(s, docs, banks, api, fees, now) == EnrichAll(next, rest, banks, api, fees, now);
      EveryDocumentAccounted(next, rest, banks, api, fees, now);
      assert outcome.Enriched?;
      AllSucceeded(next, rest, banks, api, fees, now);
      forall i | 1 <= i < |docs|
        ensures OutcomeOf(docs, i, banks, api, fees, now).Enriched?
      {
        assert docs[i] == rest[i - 1];
        assert OutcomeOf(rest, i - 1, banks, api, fees, now).Enriched?;
      }
    }
  }

  /**
    After a run in which every selected product succeeded, no product is
    pending any more, so the next run selects nothing and writes nothing.
   */
  lemma FullSuccessLeavesNothingPending(products: map<string, Product>, docs: seq<(string, Product)>, banks: map<string, Bank>,
                                        api: DetailsApi, fees: FeeCalculator, now: string)
    requires IsSnapshot(docs, Pending(products))
    requires forall i :: 0 <= i < |docs| ==> IsPending(docs[i].1)
    requires |EnrichAll(Summary(products, [], []), docs, banks, api, fees, now).successes| == |docs|
    ensures Pending(EnrichAll(Summary(products, [], []), docs, banks, api, fees, now).products) == map[]
  {
    var r := EnrichAll(Summary(products, [], []), docs, banks, api, fees, now).products;
    AllSucceeded(Summary(products, [], []), docs, banks, api, fees, now);
    forall k | k in r
      ensures !IsPending(r[k])
    {
      if i :| 0 <= i < |docs| && docs[i].0 == k {
        EachDocumentItsOutcome(Summary(products, [], []), docs, banks, api, fees, now, i);
      } else {
        UnselectedUntouched(Summary(products, [], []), docs, banks, api, fees, now, k);
        assert k !in Pending(products);
      }
    }
  }

  /** A product that is not pending is never touched. */
  lemma DetailedProductsUntouched(products: map<string, Product>, docs: seq<(string, Product)>, banks: map<string, Bank>,
                                  api: DetailsApi, fees: FeeCalculator, now: string, k: string)
    requires IsSnapshot(docs, Pending(products))
    requires forall i :: 0 <= i < |docs| ==> IsPending(docs[i].1)
    requires k in products && !IsPending(products[k])
    ensures var r := EnrichAll(Summary(products, [], []), docs, banks, api, fees, now).products;
      k in r && r[k] == products[k]
  {
    assert forall i :: 0 <= i < |docs| ==> docs[i].0 != k;
    UnselectedUntouched(Summary(products, [], []), docs, banks, api, fees, now, k);
  }

  /** When the fee calculation always throws, no document is written and no success is logged. */
  lemma {:induction false} FailingFeeWritesNothing(s: Summary, docs: seq<(string, Product)>, banks: map<string, Bank>,
                                                   api: DetailsApi, fees: FeeCalculator, now: string)
    requires forall i :: 0 <= i < |docs| ==> IsPending(docs[i].1)
    requires forall f :: fees(f).Err?
    decreases |docs|
    ensures EnrichAll(s, docs, banks, api, fees, now).products == s.products
    ensures EnrichAll(s, docs, banks, api, fees, now).successes == s.successes
  {
    if docs != [] {
      var outcome := EnrichOne(banks, docs[0].1, api, fees, now);
      assert !outcome.Enriched?;
      var next := if outcome.NoBank? then s else s.(errors := s.errors + [outcome.error]);
      FailingFeeWritesNothing(next, docs[1..], banks, api, fees, now);
    }
  }
}
