/**
  index.js: the five rollup jobs, as the selectors, folds and seeds the
  scheduled functions pass to `aggregate` and `aggregateMany`, and what the
  rollup collections look like after any number of their passes.
 */
module Rollups {
  import opened Wrappers
  import opened Docs
  import opened Utils
  import opened Ledger
  import opened Aggregate
  import opened AggregateMany
  import SyncProducts

  // ---------------------------------------------------------------------
  // The selectors, folds and seeds of index.js
  // ---------------------------------------------------------------------

  /** `(doc) => doc.productId`, the source id of every job. */
  function ProductId(doc: Product): string
  {
    doc.productId
  }

  /** `(aggregate, doc) => ({productCount: aggregate.productCount + 1})` */
  function CountFold(aggregate: Bucket, doc: Product): Record
  {
    map["productCount" := PlusOne(Get(aggregate.fields, "productCount"))]
  }

  /** `(doc) => ({productCount: 1, name: doc.brand})` */
  function BrandSeed(doc: Product): Record
  {
    map["productCount" := Num(1), "name" := Str(doc.brand)]
  }

  /** `(doc) => ({productCount: 1, name: doc.productCategory, type: parseCategoryType(doc.productCategory)})` */
  function CategorySeed(doc: Product): Record
  {
    map["productCount" := Num(1), "name" := Str(doc.productCategory),
        "type" := Str(ParseCategoryType(doc.productCategory))]
  }

  /** count_product_brands: one bucket per brand. */
  const Brands: Aggregation := Aggregation(ProductId, "productBrands", (doc: Product) => doc.brand, CountFold, BrandSeed)

  /** count_product_categories: one bucket per product category. */
  const Categories: Aggregation := Aggregation(ProductId, "productCategories", (doc: Product) => doc.productCategory, CountFold, CategorySeed)

  /** `list || []` */
  function OrEmpty(entries: Option<seq<Entry>>): seq<Entry>
  {
    if entries.Some? then entries.value else []
  }

  /** `entries.map((x) => x.<type field>)`: the type of every entry, in list order. */
  function Kinds(entries: seq<Entry>): (r: seq<string>)
    ensures |r| == |entries|
    ensures forall i :: 0 <= i < |entries| ==> r[i] == entries[i].kind
  {
    if entries == [] then [] else [entries[0].kind] + Kinds(entries[1..])
  }

  /** `entries.find((e) => e.<type field> === key)`: the first entry of type `key`. */
  function FindKind(entries: seq<Entry>, key: string): (r: Option<Entry>)
    ensures r.None? <==> forall i :: 0 <= i < |entries| ==> entries[i].kind != key
    ensures r.Some? ==> exists i :: 0 <= i < |entries| && entries[i] == r.value && entries[i].kind == key &&
                                 forall j :: 0 <= j < i ==> entries[j].kind != key
  {
    if entries == [] then None
    else if entries[0].kind == key then Some(entries[0])
    else
      var r := FindKind(entries[1..], key);
      assert r.Some? ==> exists i :: 0 <= i < |entries| - 1 && entries[1..][i] == r.value && entries[1..][i].kind == key &&
                                   forall j :: 0 <= j < i ==> entries[1..][j].kind != key;
      r
  }

  /** Every key the key selector gives back finds its own entry. */
  lemma SelectedKeysFindTheirEntry(entries: seq<Entry>, key: string)
    requires key in Kinds(entries)
    ensures FindKind(entries, key).Some? && FindKind(entries, key).value.kind == key
  {
    var i :| 0 <= i < |entries| && Kinds(entries)[i] == key;
    assert entries[i].kind == key;
  }

  /** `(aggregate, element) => ({productCount: aggregate.productCount + 1})`, called with the source document second. */
  function CountFoldMany(aggregate: Bucket, sourceDocument: Product, sourceElement: Option<Entry>): Record
  {
    map["productCount" := PlusOne(Get(aggregate.fields, "productCount"))]
  }

  /**
    `(element) => ({productCount: 1, name: element.<typeField>})`. The lambda
    takes one parameter while `aggregateMany` passes the source document
    first, so `element` is the product and `name` reads the product's own
    top-level `<typeField>` property.
   */
  function TypeSeed(typeField: string): (Product, Option<Entry>) -> Record
  {
    (sourceDocument: Product, sourceElement: Option<Entry>) =>
      map["productCount" := Num(1), "name" := Get(sourceDocument.other, typeField)]
  }

  /** The fan-out job over the entry list `list` of a product, whose entries carry their type in `typeField`. */
  function CountJob(list: Product -> Option<seq<Entry>>, typeField: string, target: string): FanOut
  {
    FanOut(ProductId,
           (doc, targetDocId) => FindKind(OrEmpty(list(doc)), targetDocId),
           target,
           doc => Kinds(OrEmpty(list(doc))),
           CountFoldMany,
           TypeSeed(typeField))
  }

  /** count_product_eligibility */
  const Eligibility: FanOut := CountJob((p: Product) => p.eligibility, "eligibilityType", "productEligibility")
  /** count_product_features */
  const Features: FanOut := CountJob((p: Product) => p.features, "featureType", "productFeatures")
  /** count_product_constraints */
  const Constraints: FanOut := CountJob((p: Product) => p.constraints, "constraintType", "productConstraints")

  /** The seed the job evidently means: named after the entry that was found for the bucket. */
  function ElementSeed(sourceDocument: Product, sourceElement: Option<Entry>): Record
  {
    map["productCount" := Num(1), "name" := if sourceElement.Some? then Str(sourceElement.value.kind) else Undefined]
  }

  /** `CountJob` with `ElementSeed` in place of the as-written seed. */
  function IntendedCountJob(list: Product -> Option<seq<Entry>>, target: string): FanOut
  {
    CountJob(list, "", target).(seedFunction := ElementSeed)
  }

  const IntendedEligibility: FanOut := IntendedCountJob((p: Product) => p.eligibility, "productEligibility")
  const IntendedFeatures: FanOut := IntendedCountJob((p: Product) => p.features, "productFeatures")
  const IntendedConstraints: FanOut := IntendedCountJob((p: Product) => p.constraints, "productConstraints")

  // ---------------------------------------------------------------------
  // Bucket invariants
  // ---------------------------------------------------------------------

  /** Every bucket counts exactly the sources its ledger lists. */
  predicate CountsSources(c: map<string, Bucket>)
  {
    forall k :: k in c ==> Get(c[k].fields, "productCount") == Num(|c[k].sources|)
  }

  /** Every bucket `k` carries `value(k)` in its property `field`. */
  ghost predicate Stamped(c: map<string, Bucket>, field: string, value: string -> Value)
  {
    forall k :: k in c ==> Get(c[k].fields, field) == value(k)
  }

  /** A fold that adds one to `productCount` and a seed that starts it at one. */
  ghost predicate CountsUp(fold: Bucket -> Record, seed: Record)
  {
    && (forall b :: Get(fold(b), "productCount") == PlusOne(Get(b.fields, "productCount")))
    && Get(seed, "productCount") == Num(1)
  }

  /** A fold that leaves `field` alone and a seed for bucket `key` that sets it to `v`. */
  ghost predicate StampsUp(fold: Bucket -> Record, seed: Record, field: string, v: Value)
  {
    && field != "sources"
    && (forall b :: field !in fold(b))
    && Get(seed, field) == v
  }

  lemma ContributeKeepsCounts(c: map<string, Bucket>, key: string, id: string, fold: Bucket -> Record, seed: Record)
    requires CountsSources(c) && CountsUp(fold, seed)
    ensures CountsSources(Contribute(c, key, id, fold, seed))
  {
    var r := Contribute(c, key, id, fold, seed);
    if key in c && id !in c[key].sources {
      var b := c[key];
      assert Get(r[key].fields, "productCount") == Get(fold(b), "productCount") == PlusOne(Num(|b.sources|));
      assert |r[key].sources| == |b.sources| + 1;
    }
  }

  lemma ContributeKeepsStamps(c: map<string, Bucket>, key: string, id: string, fold: Bucket -> Record, seed: Record,
                              field: string, value: string -> Value)
    requires Stamped(c, field, value) && StampsUp(fold, seed, field, value(key))
    ensures Stamped(Contribute(c, key, id, fold, seed), field, value)
  {
    ContributeEffect(c, key, id, fold, seed);
    if key in c && id !in c[key].sources {
      assert field !in fold(c[key]);
    }
  }

  // ---------------------------------------------------------------------
  // The single-key jobs
  // ---------------------------------------------------------------------

  /** The job's fold adds one to `productCount` and its seed starts at one. */
  ghost predicate CountingJob(agg: Aggregation)
  {
    && (forall b, doc :: Get(agg.aggregateFunction(b, doc), "productCount") == PlusOne(Get(b.fields, "productCount")))
    && (forall doc :: Get(agg.seedFunction(doc), "productCount") == Num(1))
  }

  /** The job's seed sets `field` to `value` of the bucket's key and its fold never touches it. */
  ghost predicate StampingJob(agg: Aggregation, field: string, value: string -> Value)
  {
    && field != "sources"
    && (forall b, doc :: field !in agg.aggregateFunction(b, doc))
    && (forall doc :: Get(agg.seedFunction(doc), field) == value(agg.targetDocIdSelector(doc)))
  }

  /** count_product_brands and count_product_categories count, and name each bucket after its key. */
  lemma SingleKeyJobsCount()
    ensures CountingJob(Brands) && CountingJob(Categories)
    ensures StampingJob(Brands, "name", k => Str(k)) && StampingJob(Categories, "name", k => Str(k))
    ensures StampingJob(Categories, "type", k => Str(ParseCategoryType(k)))
  {
    forall b, doc ensures Brands.aggregateFunction(b, doc) == CountFold(b, doc) == Categories.aggregateFunction(b, doc) {
    }
    forall doc ensures Brands.seedFunction(doc) == BrandSeed(doc) && Categories.seedFunction(doc) == CategorySeed(doc) {
    }
  }

  lemma {:induction false} ScanKeepsCounts(run: Run, docs: seq<(string, Product)>, agg: Aggregation)
    decreases |docs|
    requires CountingJob(agg) && CountsSources(run.buckets)
    ensures CountsSources(Scan(run, docs, agg).buckets)
  {
    if docs != [] && run.error.None? {
      var doc := docs[0].1;
      if HasMarkers(doc) && !IsMarked(doc, agg.targetCollection) {
        assert CountsUp(b => agg.aggregateFunction(b, doc), agg.seedFunction(doc));
        ContributeKeepsCounts(run.buckets, agg.targetDocIdSelector(doc), agg.sourceDocIdSelector(doc),
                              b => agg.aggregateFunction(b, doc), agg.seedFunction(doc));
      }
      ScanKeepsCounts(Step(run, docs[0].0, doc, agg), docs[1..], agg);
    }
  }

  lemma {:induction false} ScanKeepsStamps(run: Run, docs: seq<(string, Product)>, agg: Aggregation, field: string, value: string -> Value)
    decreases |docs|
    requires StampingJob(agg, field, value) && Stamped(run.buckets, field, value)
    ensures Stamped(Scan(run, docs, agg).buckets, field, value)
  {
    if docs != [] && run.error.None? {
      var doc := docs[0].1;
      if HasMarkers(doc) && !IsMarked(doc, agg.targetCollection) {
        assert StampsUp(b => agg.aggregateFunction(b, doc), agg.seedFunction(doc), field, value(agg.targetDocIdSelector(doc)));
        ContributeKeepsStamps(run.buckets, agg.targetDocIdSelector(doc), agg.sourceDocIdSelector(doc),
                              b => agg.aggregateFunction(b, doc), agg.seedFunction(doc), field, value);
      }
      ScanKeepsStamps(Step(run, docs[0].0, doc, agg), docs[1..], agg, field, value);
    }
  }

  /**
    After any pass of count_product_brands over a collection whose buckets
    count their sources, every brand bucket still has `productCount ==
    |sources|`, is named after its brand, and lists no product twice.
   */
  lemma BrandsPassInvariant(buckets: map<string, Bucket>, products: map<string, Product>, docs: seq<(string, Product)>)
    requires CountsSources(buckets) && Stamped(buckets, "name", k => Str(k)) && LedgerValid(buckets)
    ensures var r := Pass(buckets, products, docs, Brands).buckets;
      CountsSources(r) && Stamped(r, "name", k => Str(k)) && LedgerValid(r)
  {
    SingleKeyJobsCount();
    ScanKeepsCounts(Run(buckets, products, 0, None), docs, Brands);
    ScanKeepsStamps(Run(buckets, products, 0, None), docs, Brands, "name", k => Str(k));
    ScanKeepsLedgerValid(Run(buckets, products, 0, None), docs, Brands);
  }

  /**
    The same for count_product_categories, whose buckets also carry the
    Deposit/Lending classification of their category.
   */
  lemma CategoriesPassInvariant(buckets: map<string, Bucket>, products: map<string, Product>, docs: seq<(string, Product)>)
    requires CountsSources(buckets) && Stamped(buckets, "name", k => Str(k)) && LedgerValid(buckets)
    requires Stamped(buckets, "type", k => Str(ParseCategoryType(k)))
    ensures var r := Pass(buckets, products, docs, Categories).buckets;
      && CountsSources(r) && Stamped(r, "name", k => Str(k)) && LedgerValid(r)
      && Stamped(r, "type", k => Str(ParseCategoryType(k)))
  {
    SingleKeyJobsCount();
    ScanKeepsCounts(Run(buckets, products, 0, None), docs, Categories);
    ScanKeepsStamps(Run(buckets, products, 0, None), docs, Categories, "name", k => Str(k));
    ScanKeepsStamps(Run(buckets, products, 0, None), docs, Categories, "type", k => Str(ParseCategoryType(k)));
    ScanKeepsLedgerValid(Run(buckets, products, 0, None), docs, Categories);
  }

  // ---------------------------------------------------------------------
  // The fan-out jobs
  // ---------------------------------------------------------------------

  /** The job's fold adds one to `productCount` and its seed starts at one, whatever the element. */
  ghost predicate CountingFanOut(agg: FanOut)
  {
    && (forall b, doc, element :: Get(agg.aggregateFunction(b, doc, element), "productCount") == PlusOne(Get(b.fields, "productCount")))
    && (forall doc, element :: Get(agg.seedFunction(doc, element), "productCount") == Num(1))
  }

  /** For every key the job selects, the seed sets `field` to `value` of that key and the fold never touches it. */
  ghost predicate StampingFanOut(agg: FanOut, field: string, value: string -> Value)
  {
    && field != "sources"
    && (forall b, doc, element :: field !in agg.aggregateFunction(b, doc, element))
    && (forall doc, key :: key in agg.targetDocIdsSelector(doc) ==>
          Get(agg.seedFunction(doc, agg.sourceDocElementSelector(doc, key)), field) == value(key))
  }

  /** A fan-out counting job counts its sources, with the as-written seed and with the intended one. */
  lemma CountJobCounts(list: Product -> Option<seq<Entry>>, typeField: string, target: string)
    ensures CountingFanOut(CountJob(list, typeField, target)) && CountingFanOut(IntendedCountJob(list, target))
  {
    var agg, fixed := CountJob(list, typeField, target), IntendedCountJob(list, target);
    forall b, doc, element
      ensures agg.aggregateFunction(b, doc, element) == CountFoldMany(b, doc, element) == fixed.aggregateFunction(b, doc, element)
    {
    }
    forall doc, element
      ensures agg.seedFunction(doc, element) == TypeSeed(typeField)(doc, element) && fixed.seedFunction(doc, element) == ElementSeed(doc, element)
    {
    }
  }

  /** All six fan-out jobs, as written and as intended, count their sources. */
  lemma FanOutJobsCount()
    ensures CountingFanOut(Eligibility) && CountingFanOut(Features) && CountingFanOut(Constraints)
    ensures CountingFanOut(IntendedEligibility) && CountingFanOut(IntendedFeatures) && CountingFanOut(IntendedConstraints)
  {
    CountJobCounts((p: Product) => p.eligibility, "eligibilityType", "productEligibility");
    CountJobCounts((p: Product) => p.features, "featureType", "productFeatures");
    CountJobCounts((p: Product) => p.constraints, "constraintType", "productConstraints");
  }

  /** The intended fan-out seed names every bucket after its key. */
  lemma IntendedJobStamps(list: Product -> Option<seq<Entry>>, target: string)
    ensures StampingFanOut(IntendedCountJob(list, target), "name", k => Str(k))
  {
    var agg := IntendedCountJob(list, target);
    forall doc, key | key in agg.targetDocIdsSelector(doc)
      ensures Get(agg.seedFunction(doc, agg.sourceDocElementSelector(doc, key)), "name") == Str(key)
    {
      SelectedKeysFindTheirEntry(OrEmpty(list(doc)), key);
    }
    forall b, doc, element ensures agg.aggregateFunction(b, doc, element) == CountFoldMany(b, doc, element) {
    }
  }

  lemma {:induction false} VisitKeysKeepCounts(c: map<string, Bucket>, doc: Product, id: string, keys: seq<string>, agg: FanOut)
    decreases |keys|
    requires CountingFanOut(agg) && CountsSources(c)
    ensures CountsSources(VisitKeys(c, doc, id, keys, agg))
  {
    if keys != [] {
      var element := agg.sourceDocElementSelector(doc, keys[0]);
      assert CountsUp(b => agg.aggregateFunction(b, doc, element), agg.seedFunction(doc, element));
      ContributeKeepsCounts(c, keys[0], id, b => agg.aggregateFunction(b, doc, element), agg.seedFunction(doc, element));
      VisitKeysKeepCounts(VisitKey(c, doc, id, keys[0], agg), doc, id, keys[1..], agg);
    }
  }

  lemma {:induction false} ScanManyKeepsCounts(c: map<string, Bucket>, docs: seq<(string, Product)>, agg: FanOut)
    decreases |docs|
    requires CountingFanOut(agg) && CountsSources(c)
    ensures CountsSources(ScanMany(c, docs, agg))
  {
    if docs != [] {
      var doc := docs[0].1;
      VisitKeysKeepCounts(c, doc, agg.sourceDocIdSelector(doc), agg.targetDocIdsSelector(doc), agg);
      ScanManyKeepsCounts(VisitKeys(c, doc, agg.sourceDocIdSelector(doc), agg.targetDocIdsSelector(doc), agg), docs[1..], agg);
    }
  }

  /** `keys` are all among the keys the job selects for `doc`. */
  lemma {:induction false} VisitKeysKeepStamps(c: map<string, Bucket>, doc: Product, id: string, keys: seq<string>, agg: FanOut,
                                               field: string, value: string -> Value)
    decreases |keys|
    requires StampingFanOut(agg, field, value) && Stamped(c, field, value)
    requires forall k :: k in keys ==> k in agg.targetDocIdsSelector(doc)
    ensures Stamped(VisitKeys(c, doc, id, keys, agg), field, value)
  {
    if keys != [] {
      var element := agg.sourceDocElementSelector(doc, keys[0]);
      assert keys[0] in keys;
      assert StampsUp(b => agg.aggregateFunction(b, doc, element), agg.seedFunction(doc, element), field, value(keys[0]));
      ContributeKeepsStamps(c, keys[0], id, b => agg.aggregateFunction(b, doc, element), agg.seedFunction(doc, element), field, value);
      VisitKeysKeepStamps(VisitKey(c, doc, id, keys[0], agg), doc, id, keys[1..], agg, field, value);
    }
  }

  lemma {:induction false} ScanManyKeepsStamps(c: map<string, Bucket>, docs: seq<(string, Product)>, agg: FanOut,
                                               field: string, value: string -> Value)
    decreases |docs|
    requires StampingFanOut(agg, field, value) && Stamped(c, field, value)
    ensures Stamped(ScanMany(c, docs, agg), field, value)
  {
    if docs != [] {
      var doc := docs[0].1;
      VisitKeysKeepStamps(c, doc, agg.sourceDocIdSelector(doc), agg.targetDocIdsSelector(doc), agg, field, value);
      ScanManyKeepsStamps(VisitKeys(c, doc, agg.sourceDocIdSelector(doc), agg.targetDocIdsSelector(doc), agg), docs[1..], agg, field, value);
    }
  }

  /**
    After any pass of count_product_eligibility over buckets that count their sources, every bucket still has
    `productCount == |sources|` and lists no product twice.
   */
  lemma EligibilityPassInvariant(c: map<string, Bucket>, docs: seq<(string, Product)>)
    requires CountsSources(c) && LedgerValid(c)
    ensures var r := ScanMany(c, docs, Eligibility);
      CountsSources(r) && LedgerValid(r)
  {
    FanOutJobsCount();
    ScanManyKeepsCounts(c, docs, Eligibility);
    ScanManyKeepsLedger(c, docs, Eligibility);
  }

  /** The same invariant for count_product_features. */
  lemma FeaturesPassInvariant(c: map<string, Bucket>, docs: seq<(string, Product)>)
    requires CountsSources(c) && LedgerValid(c)
    ensures var r := ScanMany(c, docs, Features);
      CountsSources(r) && LedgerValid(r)
  {
    FanOutJobsCount();
    ScanManyKeepsCounts(c, docs, Features);
    ScanManyKeepsLedger(c, docs, Features);
  }

  /** The same invariant for count_product_constraints. */
  lemma ConstraintsPassInvariant(c: map<string, Bucket>, docs: seq<(string, Product)>)
    requires CountsSources(c) && LedgerValid(c)
    ensures var r := ScanMany(c, docs, Constraints);
      CountsSources(r) && LedgerValid(r)
  {
    FanOutJobsCount();
    ScanManyKeepsCounts(c, docs, Constraints);
    ScanManyKeepsLedger(c, docs, Constraints);
  }

  /**
    With the intended seed, the eligibility pass also keeps every bucket named
    after its key.
   */
  lemma IntendedEligibilityPassInvariant(c: map<string, Bucket>, docs: seq<(string, Product)>)
    requires CountsSources(c) && LedgerValid(c) && Stamped(c, "name", k => Str(k))
    ensures var r := ScanMany(c, docs, IntendedEligibility);
      CountsSources(r) && LedgerValid(r) && Stamped(r, "name", k => Str(k))
  {
    FanOutJobsCount();
    IntendedJobStamps((p: Product) => p.eligibility, "productEligibility");
    ScanManyKeepsCounts(c, docs, IntendedEligibility);
    ScanManyKeepsLedger(c, docs, IntendedEligibility);
    ScanManyKeepsStamps(c, docs, IntendedEligibility, "name", k => Str(k));
  }

  /**
    No core function writes `meta.aggregated`, so a product as a bank sync
    first stores it stops every single-key pass that reaches it, before any
    bucket or marker is written for it.
   */
  lemma SyncedProductStopsPass(run: Run, docId: string, p: Product, bankId: string, now: string,
                               rest: seq<(string, Product)>, agg: Aggregation)
    requires run.error.None?
    ensures var r := Scan(run, [(docId, SyncProducts.Stamp(p, bankId, now))] + rest, agg);
      r == run.(error := Some(MissingAggregated(docId)))
  {
    var docs := [(docId, SyncProducts.Stamp(p, bankId, now))] + rest;
    assert docs[0] == (docId, SyncProducts.Stamp(p, bankId, now));
  }

  /**
    The corrected pass counts the same freshly synced product: it is marked
    for the target, keeps the rest of the `meta` the sync gave it, and is
    recorded in the bucket of its brand.
   */
  lemma SyncedProductIsCounted(buckets: map<string, Bucket>, products: map<string, Product>, docId: string, p: Product,
                               bankId: string, now: string)
    ensures var doc := SyncProducts.Stamp(p, bankId, now);
      var r := IntendedPass(buckets, products, [(docId, doc)], Brands);
      && r.error.None? && r.aggregatedDocs == 1
      && docId in r.products && IsMarked(r.products[docId], Brands.targetCollection)
      && r.products[docId].(meta := doc.meta) == doc
      && r.products[docId].meta.value.(aggregated := None) == doc.meta.value
      && Contributed(r.buckets, p.brand, p.productId)
  {
    var doc := SyncProducts.Stamp(p, bankId, now);
    var docs := [(docId, doc)];
    var filled := WithAllMarkers(docs);
    assert filled[0] == (docId, WithMarkers(doc)) && filled[1..] == [];
    var filledDoc := WithMarkers(doc);
    var start := Run(buckets, products, 0, None);
    assert !IsMarked(filledDoc, Brands.targetCollection);
    StepEffect(start, docId, filledDoc, Brands);
    var step := Step(start, docId, filledDoc, Brands);
    assert Pass(buckets, products, filled, Brands) == Scan(step, [], Brands) == step;
    assert filledDoc.brand == p.brand && filledDoc.productId == p.productId;
  }

  /**
    The corrected brand and category passes keep the same invariants as the
    passes as written, while no longer stopping at freshly synced products.
   */
  lemma IntendedSingleKeyPassInvariants(buckets: map<string, Bucket>, products: map<string, Product>, docs: seq<(string, Product)>)
    requires CountsSources(buckets) && Stamped(buckets, "name", k => Str(k)) && LedgerValid(buckets)
    ensures var r := IntendedPass(buckets, products, docs, Brands);
      r.error.None? && CountsSources(r.buckets) && Stamped(r.buckets, "name", k => Str(k)) && LedgerValid(r.buckets)
    ensures Stamped(buckets, "type", k => Str(ParseCategoryType(k))) ==>
      var r := IntendedPass(buckets, products, docs, Categories);
      && r.error.None? && CountsSources(r.buckets) && Stamped(r.buckets, "name", k => Str(k)) && LedgerValid(r.buckets)
      && Stamped(r.buckets, "type", k => Str(ParseCategoryType(k)))
  {
    IntendedPassCountsUnmarked(buckets, products, docs, Brands);
    IntendedPassCountsUnmarked(buckets, products, docs, Categories);
    BrandsPassInvariant(buckets, products, WithAllMarkers(docs));
    if Stamped(buckets, "type", k => Str(ParseCategoryType(k))) {
      CategoriesPassInvariant(buckets, products, WithAllMarkers(docs));
    }
  }

  /** The as-written seed does not look at the element it is given. */
  lemma SeedIgnoresElement(typeField: string, doc: Product, e1: Option<Entry>, e2: Option<Entry>)
    ensures TypeSeed(typeField)(doc, e1) == TypeSeed(typeField)(doc, e2)
    ensures Get(TypeSeed(typeField)(doc, e1), "name") == Get(doc.other, typeField)
  {
  }

  /** A first pass over one product with a single key seeds exactly that bucket. */
  lemma FirstPassOverOneKey(agg: FanOut, docId: string, p: Product, key: string)
    requires agg.targetDocIdsSelector(p) == [key]
    ensures ScanMany(map[], [(docId, p)], agg) ==
              map[key := Bucket(Overlay(map[], agg.seedFunction(p, agg.sourceDocElementSelector(p, key))), [agg.sourceDocIdSelector(p)])]
  {
    var keys := agg.targetDocIdsSelector(p);
    assert keys[1..] == [];
    assert [(docId, p)][1..] == [];
    var c := VisitKey(map[], p, agg.sourceDocIdSelector(p), key, agg);
    assert VisitKeys(map[], p, agg.sourceDocIdSelector(p), keys, agg) == VisitKeys(c, p, agg.sourceDocIdSelector(p), [], agg);
  }

  /**
    A product with one "BUSINESS" eligibility entry and no top-level
    `eligibilityType` seeds the "BUSINESS" bucket with an undefined name,
    where the intended seed names it "BUSINESS".
   */
  lemma UnnamedEligibilityBucket()
    ensures var p := Product("p1", "2023-01-01", "CBA", "TERM_DEPOSITS", Some([Entry("BUSINESS", map[])]),
                             None, None, None, map[], None);
      && "BUSINESS" in ScanMany(map[], [("p1", p)], Eligibility)
      && Get(ScanMany(map[], [("p1", p)], Eligibility)["BUSINESS"].fields, "name") == Undefined
      && "BUSINESS" in ScanMany(map[], [("p1", p)], IntendedEligibility)
      && Get(ScanMany(map[], [("p1", p)], IntendedEligibility)["BUSINESS"].fields, "name") == Str("BUSINESS")
  {
    var entries := [Entry("BUSINESS", map[])];
    var p := Product("p1", "2023-01-01", "CBA", "TERM_DEPOSITS", Some(entries), None, None, None, map[], None);
    assert entries[1..] == [];
    assert Kinds(entries) == ["BUSINESS"];
    assert FindKind(entries, "BUSINESS") == Some(entries[0]);
    assert OrEmpty(p.eligibility) == entries;
    assert Eligibility.targetDocIdsSelector(p) == ["BUSINESS"];
    assert IntendedEligibility.targetDocIdsSelector(p) == ["BUSINESS"];
    assert IntendedEligibility.sourceDocElementSelector(p, "BUSINESS") == Some(entries[0]);
    FirstPassOverOneKey(Eligibility, "p1", p, "BUSINESS");
    FirstPassOverOneKey(IntendedEligibility, "p1", p, "BUSINESS");
    assert Get(Eligibility.seedFunction(p, Some(entries[0])), "name") == Undefined;
    assert Get(IntendedEligibility.seedFunction(p, Some(entries[0])), "name") == Str("BUSINESS");
  }
}
