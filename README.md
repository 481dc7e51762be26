# bank-oranges products sync, modelled in Dafny

This is a model of the Firebase functions of `firebase/products-sync/functions`, with proofs about it. Those functions keep a Firestore copy of the banking products that each bank's Open Banking product API publishes. They do four jobs:

- **Product sync** (`syncProductForBank`, and `syncProductForMultipleBanks` over a list of banks):
  - walks the provider's paginated product list;
  - inserts new products with a fresh `meta` block;
  - sets `meta.hasDetail` to false on a stored product whose `lastUpdated` changed;
  - stamps the bank record with the outcome of the run.
- **Legacy product sync** (`lib/syncProduct.js`): an older sync of one bank. It overwrites changed products with the provider item. It writes no bank record. Its catch block can itself throw.
- **Detail sync** (`syncProductDetails`) handles every product with `meta.hasDetail == false`:
  - fetches the product's detail payload;
  - stores that payload, with the old `meta` merged with the new detail state, the Deposit/Lending classification and the fee result;
  - records an error per product without stopping the others.
- **Rollups** (`aggregate` and `aggregateMany`, called from the scheduled functions of `index.js`):
  - count the products per brand, category, eligibility type, feature type and constraint type;
  - store the counts in rollup documents (buckets);
  - in each bucket, a `sources` ledger lists the products already counted, so one product is counted at most once per bucket;
  - the single-key variant also marks each product with `meta.aggregated[target]`.

The Firestore database is a `Firestore.Store` object with the three collections as map fields. Each exported function is a method taking the store `db`, proved against a specification function:

- `Aggregate.Pass`
- `AggregateMany.ScanMany`
- `SyncProducts.SyncBanks`
- `LegacySync.LegacySyncResult`
- `ProductDetails.EnrichAll`

The lemmas prove the source's promises about these specification functions.

The rollup collections are created by their first document write, as Firestore has no empty collections (`Firestore.Stored`).

Nothing in the modelled code ever creates `meta.aggregated`, so `aggregate` as written throws a `TypeError` on the first product a sync stored (see "## Findings"):

- `Aggregate.Pass` keeps that behaviour. It returns `Err(MissingAggregated(docId))` and keeps the writes made before that point.
- `Aggregate.IntendedPass` is the corrected pass. It reads a missing `meta` or `meta.aggregated` as `{}`, and its marker write creates the map.
- The single-key rollup invariants are proved for both.

## Model

| member | source | states |
|---|---|---|
| Utils.FindIndex | firebase/products-sync/functions/lib/utils.js:10 | the index of the first match, or -1 exactly when the value is absent |
| Utils.ParseCategoryType | firebase/products-sync/functions/lib/utils.js:1-11 | the result is "Deposit" or "Lending", and "Deposit" exactly when the category is one of the four deposit categories |
| Utils.CaseVariantIsLending | firebase/products-sync/functions/lib/utils.js:9-11 | comparison is exact: a case variant of a deposit category is classed as Lending |
| Provider.Recorded | firebase/products-sync/functions/lib/syncProductForBank.js:93 | the recorded error is the response body when the caught error has a response, and the thrown error itself otherwise |
| Firestore.Stored | firebase/products-sync/functions/lib/aggregate.js:40-51 | after the rollup collection is given its buckets, it holds exactly those, every other collection is unchanged, and writing back what is there changes nothing |
| Firestore.StoredTwice | firebase/products-sync/functions/lib/aggregate.js:40-51 | two successive writes of a growing collection are the last write |
| Ledger.ContributeEffect | firebase/products-sync/functions/lib/aggregate.js:34-52 | a bucket that already lists the source is unchanged; an existing bucket gets its fold overlaid and the source appended; a missing bucket is seeded with ledger `[id]`; other buckets are kept; ledgers only grow and stay duplicate-free |
| Ledger.GrowsTransitive | firebase/products-sync/functions/lib/aggregate.js:43 | ledger growth composes over successive writes |
| Ledger.ContributedStays | firebase/products-sync/functions/lib/aggregate.js:38 | once a source is in a bucket's ledger it stays there |
| Aggregate.Mark | firebase/products-sync/functions/lib/aggregate.js:54-60 | the written-back product is marked for the target; every other property and every other `aggregated` entry is unchanged |
| Aggregate.StepEffect | firebase/products-sync/functions/lib/aggregate.js:26-63 | a product without `meta.aggregated` stops the pass; a marked one changes nothing and is not counted; an unmarked one is counted, marked, and recorded in its bucket's ledger |
| Aggregate.RunAggregate | firebase/products-sync/functions/lib/aggregate.js:12-67 | the target collection, the products and the result are those of `Pass` over the snapshot; the target collection exists afterwards only if it existed or a bucket was written; banks and other collections are unchanged |
| Aggregate.VisitDocuments | firebase/products-sync/functions/lib/aggregate.js:25-64 | the `for` loop computes `Pass` over the snapshot and touches only the target collection, creating it only by a bucket write |
| Aggregate.AggregateDocument | firebase/products-sync/functions/lib/aggregate.js:26-63 | one loop iteration writes exactly what `Step` describes |
| Aggregate.ScanKeepsLedgerValid | firebase/products-sync/functions/lib/aggregate.js:38-51 | no ledger ever lists a source twice |
| Aggregate.ScanCountsUnmarked | firebase/products-sync/functions/lib/aggregate.js:28-62 | the pass finishes exactly when every product has `meta.aggregated`, and then `aggregatedDocs` is the number of unmarked products, including those whose fold the ledger skipped |
| Aggregate.ScanSkipsMarked | firebase/products-sync/functions/lib/aggregate.js:28 | over products all marked for the target, the pass reads and writes nothing and counts zero |
| Aggregate.ScanTouchesOnlySelected | firebase/products-sync/functions/lib/aggregate.js:30-31 | a bucket that no product's key selects is unchanged |
| Aggregate.ScanKeepsMarks | firebase/products-sync/functions/lib/aggregate.js:54-60 | a marked product stays marked |
| Aggregate.ScanKeepsIds | firebase/products-sync/functions/lib/aggregate.js:54 | the pass adds and removes no product documents |
| Aggregate.ScanMarksAll | firebase/products-sync/functions/lib/aggregate.js:54-60 | after a pass that finished, every product of the snapshot is marked |
| Aggregate.SecondPassChangesNothing | firebase/products-sync/functions/lib/aggregate.js:28 | a second pass after one that finished writes nothing and counts zero |
| Aggregate.ScanRecordsContributions | firebase/products-sync/functions/lib/aggregate.js:38-51 | after a pass that finished, every product unmarked at scan time is in its bucket's ledger |
| Aggregate.ScanKeepsLedgerGrows | firebase/products-sync/functions/lib/aggregate.js:43-50 | buckets are never removed and their ledgers only grow |
| Aggregate.ScanOverRecordedIsNoop | firebase/products-sync/functions/lib/aggregate.js:38 | when every unmarked product is already in its bucket's ledger, no bucket changes |
| Aggregate.WithMarkers | firebase/products-sync/functions/lib/aggregate.js:28 | the corrected read of a document: it always has markers, they are the document's own or none, nothing else changes, and it is marked for exactly the targets the document is |
| Aggregate.UnmarkedWithMarkers | firebase/products-sync/functions/lib/aggregate.js:28 | reading missing markers as empty leaves the same documents unmarked |
| Aggregate.IntendedPassCountsUnmarked | firebase/products-sync/functions/lib/aggregate.js:25-64 | the corrected pass never stops, and counts exactly the products not yet marked for the target |
| Aggregate.IntendedPassKeepsLedgerValid | firebase/products-sync/functions/lib/aggregate.js:38-51 | the corrected pass keeps every ledger free of duplicates |
| Aggregate.IntendedPassMarksAll | firebase/products-sync/functions/lib/aggregate.js:54-60 | after the corrected pass over a snapshot, every product is marked and none was added |
| Aggregate.IntendedSecondPassChangesNothing | firebase/products-sync/functions/lib/aggregate.js:28 | a second corrected pass after the first writes nothing and counts zero |
| Aggregate.LostMarkersDoNotDoubleCount | firebase/products-sync/functions/lib/aggregate.js:37-38 | even with the marker writes lost, re-running over the same snapshot changes no bucket |
| AggregateMany.VisitKeyEffect | firebase/products-sync/functions/lib/aggregateMany.js:32-54 | one key: a bucket that lists the source is unchanged; an existing bucket gets the fold of the bucket, the product and the selected element overlaid, with the source appended; a missing one is the seed of the product and the element with ledger `[id]`; other buckets are kept |
| AggregateMany.RunAggregateMany | firebase/products-sync/functions/lib/aggregateMany.js:13-57 | the target collection becomes `ScanMany` of the snapshot, and exists afterwards only if it existed or a bucket was written; products and banks are unchanged (no marker) |
| AggregateMany.VisitDocuments | firebase/products-sync/functions/lib/aggregateMany.js:26-56 | the outer loop computes `ScanMany` and touches only the target collection |
| AggregateMany.AggregateKeys | firebase/products-sync/functions/lib/aggregateMany.js:31-55 | the inner loop over the selected keys computes `VisitKeys` |
| AggregateMany.AggregateKey | firebase/products-sync/functions/lib/aggregateMany.js:32-54 | one key writes exactly `VisitKey` |
| AggregateMany.VisitKeysBuckets | firebase/products-sync/functions/lib/aggregateMany.js:31-54 | the buckets after one product are the old ones plus one per selected key |
| AggregateMany.VisitKeysLedgers | firebase/products-sync/functions/lib/aggregateMany.js:40-52 | a bucket's ledger after one product is its old ledger plus the product id exactly when its key was selected and the id was not yet listed; a repeated key adds the id once |
| AggregateMany.VisitKeysOnlySelected | firebase/products-sync/functions/lib/aggregateMany.js:31-32 | a bucket whose key was not selected is unchanged |
| AggregateMany.VisitKeysKeepsLedger | firebase/products-sync/functions/lib/aggregateMany.js:40-53 | ledgers stay duplicate-free and only grow over one product |
| AggregateMany.ScanManyKeepsLedger | firebase/products-sync/functions/lib/aggregateMany.js:26-56 | ledgers stay duplicate-free and only grow over a pass |
| AggregateMany.CoveredStays | firebase/products-sync/functions/lib/aggregateMany.js:40 | a product recorded in all its buckets stays recorded as ledgers grow |
| AggregateMany.ScanManyCovers | firebase/products-sync/functions/lib/aggregateMany.js:31-54 | after a pass, every product of the snapshot is in the ledger of every bucket it selects |
| AggregateMany.ScanManyOverCoveredIsNoop | firebase/products-sync/functions/lib/aggregateMany.js:40 | over products already recorded in all their buckets, the pass changes nothing |
| AggregateMany.VisitKeysNoop | firebase/products-sync/functions/lib/aggregateMany.js:40 | a product already recorded in every selected bucket changes nothing |
| AggregateMany.RerunChangesNothing | firebase/products-sync/functions/lib/aggregateMany.js:39-40 | running the pass twice over the same snapshot gives the buckets of running it once |
| Rollups.Kinds | firebase/products-sync/functions/index.js:115 | the key selector gives one key per entry, in list order, each the entry's type |
| Rollups.FindKind | firebase/products-sync/functions/index.js:113 | the element selector finds nothing exactly when no entry has the key, otherwise the first entry with it |
| Rollups.SelectedKeysFindTheirEntry | firebase/products-sync/functions/index.js:113-115 | every key the key selector returns finds an entry of that type |
| Rollups.ContributeKeepsCounts | firebase/products-sync/functions/index.js:75-76 | a counting fold and seed keep `productCount` equal to the ledger length |
| Rollups.ContributeKeepsStamps | firebase/products-sync/functions/index.js:76 | a seed that names the bucket after its key, with a fold that leaves the name alone, keeps every bucket so named |
| Rollups.SingleKeyJobsCount | firebase/products-sync/functions/index.js:69-99 | the brand and category jobs count up from one, name each bucket after its key, and the category job stamps the bucket's Deposit/Lending type |
| Rollups.ScanKeepsCounts | firebase/products-sync/functions/lib/aggregate.js:25-64 | a counting job keeps `productCount` equal to the ledger length over a pass |
| Rollups.ScanKeepsStamps | firebase/products-sync/functions/lib/aggregate.js:25-64 | a stamping job keeps its stamp over a pass |
| Rollups.BrandsPassInvariant | firebase/products-sync/functions/index.js:69-77 | after any brand pass, every brand bucket counts its distinct sources and is named after its brand |
| Rollups.CategoriesPassInvariant | firebase/products-sync/functions/index.js:87-99 | after any category pass, every bucket counts its distinct sources, is named after its category and carries that category's type |
| Rollups.CountJobCounts | firebase/products-sync/functions/index.js:116-122 | the fan-out fold adds one and the seed starts at one, whatever the element |
| Rollups.FanOutJobsCount | firebase/products-sync/functions/index.js:109-171 | the eligibility, feature and constraint jobs all count, as written and as intended |
| Rollups.IntendedJobStamps | firebase/products-sync/functions/index.js:119-122 | the corrected seed names every bucket after its key |
| Rollups.VisitKeysKeepCounts | firebase/products-sync/functions/lib/aggregateMany.js:31-54 | a counting fan-out job keeps the counts over one product |
| Rollups.ScanManyKeepsCounts | firebase/products-sync/functions/lib/aggregateMany.js:26-56 | a counting fan-out job keeps `productCount` equal to the ledger length over a pass |
| Rollups.VisitKeysKeepStamps | firebase/products-sync/functions/lib/aggregateMany.js:31-54 | a stamping fan-out job keeps its stamp over one product |
| Rollups.ScanManyKeepsStamps | firebase/products-sync/functions/lib/aggregateMany.js:26-56 | a stamping fan-out job keeps its stamp over a pass |
| Rollups.EligibilityPassInvariant | firebase/products-sync/functions/index.js:109-123 | after any eligibility pass, every bucket counts its distinct sources |
| Rollups.FeaturesPassInvariant | firebase/products-sync/functions/index.js:133-147 | after any feature pass, every bucket counts its distinct sources |
| Rollups.ConstraintsPassInvariant | firebase/products-sync/functions/index.js:157-171 | after any constraint pass, every bucket counts its distinct sources |
| Rollups.IntendedEligibilityPassInvariant | firebase/products-sync/functions/index.js:109-123 | with the corrected seed, every bucket also stays named after its eligibility type |
| Rollups.SyncedProductStopsPass | firebase/products-sync/functions/lib/aggregate.js:28 | a product as the bank sync stores it, with no `meta.aggregated`, stops a single-key pass with nothing written for it |
| Rollups.SyncedProductIsCounted | firebase/products-sync/functions/lib/aggregate.js:28-62 | the corrected brand pass counts such a product once, marks it, keeps the rest of its `meta`, and records it in its brand's ledger |
| Rollups.IntendedSingleKeyPassInvariants | firebase/products-sync/functions/index.js:69-99 | the corrected brand and category passes never stop and keep the counts, the names and the category types |
| Rollups.SeedIgnoresElement | firebase/products-sync/functions/lib/aggregateMany.js:49 | the as-written seed gets the product in its one parameter, so it ignores the element and reads the product's own top-level type property |
| Rollups.FirstPassOverOneKey | firebase/products-sync/functions/lib/aggregateMany.js:48-53 | a first pass over one product with one key is exactly one seeded bucket with ledger `[productId]` |
| Rollups.UnnamedEligibilityBucket | firebase/products-sync/functions/index.js:119-122 | a product with one BUSINESS eligibility entry seeds a BUSINESS bucket whose name is undefined; the corrected seed names it BUSINESS |
| Text.Digit | firebase/products-sync/functions/lib/syncProductForBank.js:101 | a digit character |
| Text.NatToString | firebase/products-sync/functions/lib/syncProductForBank.js:101 | a non-empty string of digits without a leading zero |
| Text.IntToString | firebase/products-sync/functions/lib/syncProductForBank.js:101 | a non-empty rendering that starts with a minus sign exactly for negative numbers |
| Text.NatToStringRoundTrip | firebase/products-sync/functions/lib/syncProductForBank.js:101 | reading the rendered digits back gives the number |
| SyncProducts.Flag | firebase/products-sync/functions/lib/syncProductForBank.js:62-69 | the stored product is written back with only `meta.hasDetail` set to false |
| SyncProducts.FlagIdempotent | firebase/products-sync/functions/lib/syncProductForBank.js:63-69 | flagging twice is flagging once |
| SyncProducts.SyncRecord | firebase/products-sync/functions/lib/syncProductForBank.js:96-103 | the bank record's status is "error" exactly for a truthy caught error, otherwise the success text with the counters; the error field is the recorded error |
| SyncProducts.SyncProductForMultipleBanks | firebase/products-sync/functions/lib/syncProductForBank.js:10-14 | products and banks become `SyncBanks` over the bank ids in order; rollups are unchanged |
| SyncProducts.SyncBatch | firebase/products-sync/functions/index.js:22-38 | a scheduled batch runs `SyncBanks` over its bank ids with the default page size of 100; rollups are unchanged |
| SyncProducts.SyncBanksStampsListed | firebase/products-sync/functions/lib/syncProductForBank.js:10-14 | every listed bank with a record gets a sync result and no other change, unlisted banks keep their records, and no bank record appears or disappears |
| SyncProducts.SyncProductForBank | firebase/products-sync/functions/lib/syncProductForBank.js:22-108 | products and banks become `SyncBank`; nothing is written when the bank record is missing |
| SyncProducts.SyncPage | firebase/products-sync/functions/lib/syncProductForBank.js:53-84 | one page updates products and both counters as `SyncItems` does |
| SyncProducts.SyncItemsAppend | firebase/products-sync/functions/lib/syncProductForBank.js:42-89 | the items of two pages are processed as if they formed one page |
| SyncProducts.SyncPagesIsSyncOfFetched | firebase/products-sync/functions/lib/syncProductForBank.js:42-48 | the pages requested and how the loop ends do not depend on the store, and the store ends as if all fetched items formed one page |
| SyncProducts.SyncItemsKeepsStored | firebase/products-sync/functions/lib/syncProductForBank.js:59-71 | a stored product keeps its document, unchanged or flagged |
| SyncProducts.SyncItemsGrows | firebase/products-sync/functions/lib/syncProductForBank.js:70-82 | no document disappears, every item gets a document, and `totalProductAdded` grows by the number of new documents |
| SyncProducts.SyncItemsSettles | firebase/products-sync/functions/lib/syncProductForBank.js:59-83 | after a page, every item has a document that is current or flagged |
| SyncProducts.SettledItemsAreNoop | firebase/products-sync/functions/lib/syncProductForBank.js:59-62 | items that already have their documents add nothing and change nothing |
| SyncProducts.SecondSyncChangesNothing | firebase/products-sync/functions/lib/syncProductForBank.js:42-89 | with the same provider answers, a second run ends the same way, adds nothing and leaves the products as the first run left them |
| SyncProducts.SyncPagesIgnoresTime | firebase/products-sync/functions/lib/syncProductForBank.js:42-89 | the clock does not influence pagination or the outcome |
| SyncProducts.ChangedProductStaysStale | firebase/products-sync/functions/lib/syncProductForBank.js:62-70 | the flag branch keeps the stored `lastUpdated`, so the same changed item is counted as updated again by the next run |
| SyncProducts.SyncCountsNewDocuments | firebase/products-sync/functions/lib/syncProductForBank.js:28-89 | over a whole run, `totalProductAdded` is the number of new documents, and every fetched item has one |
| SyncProducts.BankRecordOfRun | firebase/products-sync/functions/lib/syncProductForBank.js:96-104 | the bank record keeps all its other fields; only `syncProductResult` is set, with status "error" exactly for a truthy error |
| LegacySync.LegacySyncProductForBank | firebase/products-sync/functions/lib/syncProduct.js:9-70 | products become `LegacySyncResult`; banks and rollups are unchanged (no bank record); the call rejects exactly when the caught error has no response |
| LegacySync.LegacySyncPage | firebase/products-sync/functions/lib/syncProduct.js:35-55 | one page overwrites new and changed products with the provider item |
| LegacySync.Decided | firebase/products-sync/functions/lib/syncProduct.js:41-54 | the product left for an item has the item's version: the item itself, or the stored product when the versions are equal |
| LegacySync.LegacyItemsOther | firebase/products-sync/functions/lib/syncProduct.js:37-38 | a document that no item names is unchanged, and no document appears without an item |
| LegacySync.LegacyItemsAt | firebase/products-sync/functions/lib/syncProduct.js:41-54 | with distinct ids, each item's document ends as `Decided` |
| LegacySync.LegacyPageIsCurrent | firebase/products-sync/functions/lib/syncProduct.js:44-52 | with distinct ids, every item's document ends with the item's `lastUpdated` |
| LegacySync.LegacyPageIdempotent | firebase/products-sync/functions/lib/syncProduct.js:41-54 | with distinct ids, processing a page twice is processing it once |
| ProductDetails.Pending | firebase/products-sync/functions/lib/syncProductDetails.js:13-14 | exactly the products with `meta.hasDetail == false`, with their data |
| ProductDetails.EnrichedDoc | firebase/products-sync/functions/lib/syncProductDetails.js:45-55 | the written document is the detail payload with the old `meta`, where `updated`, `hasDetail: true`, the category type, the fee and the warnings are set and every other meta property, `aggregated` included, is kept |
| ProductDetails.SyncProductDetails | firebase/products-sync/functions/lib/syncProductDetails.js:10-71 | products, `syncSuccesses` and `syncErrors` are those of `EnrichAll` over the selected products; banks and rollups are unchanged; an empty selection writes nothing |
| ProductDetails.EnrichDocuments | firebase/products-sync/functions/lib/syncProductDetails.js:24-64 | the per-product loop computes `EnrichAll` |
| ProductDetails.EveryDocumentAccounted | firebase/products-sync/functions/lib/syncProductDetails.js:31-63 | every selected product is exactly one of a success, an error or a missing-bank skip |
| ProductDetails.UnselectedUntouched | firebase/products-sync/functions/lib/syncProductDetails.js:45 | a document that is not in the selection is unchanged |
| ProductDetails.EachDocumentItsOutcome | firebase/products-sync/functions/lib/syncProductDetails.js:27-63 | each selected product ends as its enriched document after a success, and unchanged after a failure or a missing bank |
| ProductDetails.AllSucceeded | firebase/products-sync/functions/lib/syncProductDetails.js:56 | as many successes as selected products means every product succeeded |
| ProductDetails.FullSuccessLeavesNothingPending | firebase/products-sync/functions/lib/syncProductDetails.js:13-50 | after an all-success run no product is pending, so the next run selects nothing |
| ProductDetails.DetailedProductsUntouched | firebase/products-sync/functions/lib/syncProductDetails.js:13-14 | a product that is not pending is never written |
| ProductDetails.FailingFeeWritesNothing | firebase/products-sync/functions/lib/syncProductDetails.js:42-62 | when the fee calculation always throws, nothing is written and no success is logged |

## Left out

- Scheduling (`functions.pubsub.schedule`), regions and the initialisation of `db`: these are configuration. The scheduled jobs are modelled by their arguments. The two detail runs are the same call: `index.js:47` passes only `db`, and the "sequential" argument that `index.js:59` adds is not a parameter of `syncProductDetails`.
- Axios, HTTP and the global `x-v` and `Accept` headers: a provider request is a function parameter (`ProductsApi`, `DetailsApi`) of the endpoint, page and page size, or of the product id.
- `Promise.all` over one page or over the selection is modelled as processing in list order. When one page holds the same product id twice, the concurrent reads can see each other's writes in a different order.
- Clocks: `new Date().toISOString()` is a parameter. `created` and `updated` of one new product read the clock separately and get the same value here.
- Logging (`console`, `functions.logger`): only the logged counters are modelled.
- Firestore's refusal to store `undefined` values and invalid document paths. An `undefined` property is stored here as `Undefined`; `doc(undefined)` is modelled as the thrown `MissingBankId`.
- Firestore read and write failures, other than the missing-bank case.
- `getTotalPeriodicFee` is not part of this model; lib/utils.js does not define it. It is the `FeeCalculator` parameter, which may fail.
- Number width: counters and page numbers are unbounded integers, and `productCount` arithmetic is JavaScript `+ 1` on unbounded integers (`PlusOne`).
- The order of query snapshots is Firestore's and unknown: it is a parameter, related to the collection by `IsSnapshot`.
- `SyncProducts.SyncProductForBank`, `SyncProducts.SyncProductForMultipleBanks` and `LegacySync.LegacySyncProductForBank` require a bound on the `totalPages` the provider reports (`PagesBounded`). Without one the source's page loop need not end.
- Entries without a type field, and list entries that are not objects: every entry has a `kind`.
- `ProductDetails.SyncProductDetails` returns the `syncSuccesses` and `syncErrors` it logs; the source returns nothing and keeps them internal.
- The order of `syncErrors` and `syncSuccesses`, which under `Promise.all` follows completion order: it is the selection order here.
- LegacySync.LegacySyncProductForBank: a failure of the bank lookup itself is not modelled; only provider request failures reach the catch block.
- A rollup document without a `sources` list, on which `targetDocument.sources.indexOf` (lib/aggregate.js:38, lib/aggregateMany.js:40) throws a TypeError: every `Bucket` has a ledger. The modelled code only ever writes buckets with `sources`.
- SyncProducts.SecondSyncChangesNothing: does not promise that a rerun reports zero updated products. A product the first run flagged keeps its stored `lastUpdated`, so the rerun counts it as updated again (`SyncProducts.ChangedProductStaysStale`).

## Findings

| source | as written | input that shows it | evidently intended | confidence | as-written member | corrected member |
|---|---|---|---|---|---|---|
| firebase/products-sync/functions/index.js:119-122 (also 143-146, 167-170), with firebase/products-sync/functions/lib/aggregateMany.js:49 | the seed lambda takes one parameter, `element`, but `aggregateMany` calls `seedFunction(sourceDocument, sourceElement)`, so `element` is the product and `name` reads the product's top-level `eligibilityType` (or `featureType`, `constraintType`), which products do not have | a first eligibility pass over one product whose `eligibility` holds one entry of type BUSINESS | the new bucket is named after the entry, BUSINESS | not executed | Rollups.UnnamedEligibilityBucket | Rollups.IntendedEligibilityPassInvariant |
| firebase/products-sync/functions/lib/aggregate.js:28 | the marker check reads `sourceDocument.meta.aggregated[targetCollection]` unguarded, but the bank sync stores new products with a `meta` that has no `aggregated` (lib/syncProductForBank.js:75-80), the detail sync keeps that `meta`, and the legacy sync stores no `meta` at all, so the lookup throws a TypeError | a brand pass over one product as the bank sync stored it | a missing marker map reads as `{}`: the product is counted, recorded in its brand's bucket and marked | not executed | Rollups.SyncedProductStopsPass | Rollups.SyncedProductIsCounted |
