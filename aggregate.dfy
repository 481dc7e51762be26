/**
  lib/aggregate.js: the single-key aggregation pass. Every product whose
  `meta.aggregated[targetCollection]` is not set is folded into the one bucket
  its key selects (at most once, by the bucket's `sources` ledger) and is then
  marked as aggregated for that collection.
 */
module Aggregate {
  import opened Wrappers
  import opened Docs
  import opened Ledger
  import opened Firestore

  /** The arguments of `aggregate` after `db` and the source collection, which is always "products". */
  datatype Aggregation = Aggregation(
    sourceDocIdSelector: Product -> string,
    targetCollection: string,
    targetDocIdSelector: Product -> string,
    aggregateFunction: (Bucket, Product) -> Record,
    seedFunction: Product -> Record)

  /** The TypeError of `sourceDocument.meta.aggregated[...]` when `meta` or `meta.aggregated` is missing. */
  datatype AggregateError = MissingMeta(docId: string) | MissingAggregated(docId: string)

  /**
    How far a pass has got: the target collection, the products collection,
    the `aggregatedDocs` counter, and the error that stopped the pass, if any.
   */
  datatype Run = Run(
    buckets: map<string, Bucket>,
    products: map<string, Product>,
    aggregatedDocs: nat,
    error: Option<AggregateError>)

  /** The document can be asked for its markers without a TypeError. */
  predicate HasMarkers(doc: Product)
  {
    doc.meta.Some? && doc.meta.value.aggregated.Some?
  }

  /** `sourceDocument.meta.aggregated[target]` is truthy. */
  predicate IsMarked(doc: Product, target: string)
  {
    HasMarkers(doc) && target in doc.meta.value.aggregated.value && doc.meta.value.aggregated.value[target]
  }

  /** The document written back once it has been aggregated into `target`. */
  function Mark(doc: Product, target: string): (r: Product)
    requires HasMarkers(doc)
    ensures IsMarked(r, target)
    ensures r.(meta := doc.meta) == doc
    ensures r.meta.value.(aggregated := doc.meta.value.aggregated) == doc.meta.value
    ensures r.meta.value.aggregated.value - {target} == doc.meta.value.aggregated.value - {target}
  {
    var m := doc.meta.value;
    doc.(meta := Some(m.(aggregated := Some(m.aggregated.value[target := true]))))
  }

  /** One iteration of the `for` loop over the source snapshot. */
  function Step(run: Run, docId: string, doc: Product, agg: Aggregation): Run
    requires run.error.None?
  {
    if !HasMarkers(doc) then
      run.(error := Some(if doc.meta.None? then MissingMeta(docId) else MissingAggregated(docId)))
    else if IsMarked(doc, agg.targetCollection) then
      run
    else
      Run(Contribute(run.buckets, agg.targetDocIdSelector(doc), agg.sourceDocIdSelector(doc),
                     b => agg.aggregateFunction(b, doc), agg.seedFunction(doc)),
          run.products[docId := Mark(doc, agg.targetCollection)],
          run.aggregatedDocs + 1,
          None)
  }

  /**
    One source document: the pass stops at a document without markers; a
    marked document changes nothing; an unmarked one is counted, marked, and
    recorded in the ledger of the bucket its key selects.
   */
  lemma StepEffect(run: Run, docId: string, doc: Product, agg: Aggregation)
    requires run.error.None?
    ensures var r := Step(run, docId, doc, agg);
            && (r.error.Some? <==> !HasMarkers(doc))
            && (r.error.Some? || IsMarked(doc, agg.targetCollection) ==>
                  r.buckets == run.buckets && r.products == run.products && r.aggregatedDocs == run.aggregatedDocs)
            && (r.error.None? && !IsMarked(doc, agg.targetCollection) ==>
                  && r.aggregatedDocs == run.aggregatedDocs + 1
                  && r.products == run.products[docId := Mark(doc, agg.targetCollection)]
                  && Contributed(r.buckets, agg.targetDocIdSelector(doc), agg.sourceDocIdSelector(doc)))
            && Grows(run.buckets, r.buckets)
            && (LedgerValid(run.buckets) ==> LedgerValid(r.buckets))
  {
    ContributeEffect(run.buckets, agg.targetDocIdSelector(doc), agg.sourceDocIdSelector(doc),
                     b => agg.aggregateFunction(b, doc), agg.seedFunction(doc));
  }

  /** The rest of the loop, from `run`, over the documents `docs` still to visit. */
  function Scan(run: Run, docs: seq<(string, Product)>, agg: Aggregation): Run
    decreases |docs|
  {
    if docs == [] || run.error.Some? then run
    else Scan(Step(run, docs[0].0, docs[0].1, agg), docs[1..], agg)
  }

  /** A whole pass over `docs`, a snapshot of `products`, starting from the target collection `buckets`. */
  function Pass(buckets: map<string, Bucket>, products: map<string, Product>, docs: seq<(string, Product)>, agg: Aggregation): Run
  {
    Scan(Run(buckets, products, 0, None), docs, agg)
  }

  /** `aggregate(db, "products", ...)`; `Ok(n)` is the logged `aggregatedDocs`, `Err` the rejection. */
  method RunAggregate(db: Store, snapshot: seq<(string, Product)>, agg: Aggregation) returns (result: Result<nat, AggregateError>)
    requires IsSnapshot(snapshot, db.products)
    modifies db
    ensures var r := Pass(old(db.Collection(agg.targetCollection)), old(db.products), snapshot, agg);
            && db.aggregates == Stored(old(db.aggregates), agg.targetCollection, r.buckets)
            && db.products == r.products
            && db.banks == old(db.banks)
            && result == (if r.error.Some? then Err(r.error.value) else Ok(r.aggregatedDocs))
  {
    result := VisitDocuments(db, snapshot, agg);
  }

  /** The `for` loop of `aggregate`, over the documents `snapshot` in order. */
  method VisitDocuments(db: Store, snapshot: seq<(string, Product)>, agg: Aggregation) returns (result: Result<nat, AggregateError>)
    modifies db
    ensures var r := Pass(old(db.Collection(agg.targetCollection)), old(db.products), snapshot, agg);
            && db.aggregates == Stored(old(db.aggregates), agg.targetCollection, r.buckets)
            && db.products == r.products
            && db.banks == old(db.banks)
            && result == (if r.error.Some? then Err(r.error.value) else Ok(r.aggregatedDocs))
  {
    var target := agg.targetCollection;
    ghost var final := Pass(db.Collection(target), db.products, snapshot, agg);
    ghost var start := db.aggregates;
    var aggregatedDocs := 0;
    var error: Option<AggregateError> := None;
    ghost var run := Run(db.Collection(target), db.products, 0, None);
    var i := 0;
    while i < |snapshot| && error.None?
      invariant 0 <= i <= |snapshot|
      invariant db.banks == old(db.banks)
      invariant db.aggregates == Stored(start, target, run.buckets)
      invariant db.products == run.products && aggregatedDocs == run.aggregatedDocs && error == run.error
      invariant Scan(run, snapshot[i..], agg) == final
    {
      assert snapshot[i..][0] == snapshot[i] && snapshot[i..][1..] == snapshot[i + 1..];
      aggregatedDocs, error := AggregateDocument(db, snapshot[i].0, snapshot[i].1, agg, aggregatedDocs);
      ghost var next := Step(run, snapshot[i].0, snapshot[i].1, agg);
      StepEffect(run, snapshot[i].0, snapshot[i].1, agg);
      StoredTwice(start, target, run.buckets, next.buckets);
      run := next;
      i := i + 1;
    }
    result := if error.Some? then Err(error.value) else Ok(aggregatedDocs);
  }

  /** The body of the loop for one source document. */
  method AggregateDocument(db: Store, docId: string, sourceDocument: Product, agg: Aggregation, aggregatedDocs: nat)
    returns (count: nat, error: Option<AggregateError>)
    modifies db
    ensures var next := Step(Run(old(db.Collection(agg.targetCollection)), old(db.products), aggregatedDocs, None), docId, sourceDocument, agg);
            && db.aggregates == Stored(old(db.aggregates), agg.targetCollection, next.buckets)
            && db.products == next.products
            && db.banks == old(db.banks)
            && count == next.aggregatedDocs && error == next.error
  {
    var target := agg.targetCollection;
    count, error := aggregatedDocs, None;
    if sourceDocument.meta.None? {
      error := Some(MissingMeta(docId));
      return;
    }
    if sourceDocument.meta.value.aggregated.None? {
      error := Some(MissingAggregated(docId));
      return;
    }
    var flags := sourceDocument.meta.value.aggregated.value;
    if target in flags && flags[target] {
      return;
    }
    var sourceDocId := agg.sourceDocIdSelector(sourceDocument);
    var targetDocId := agg.targetDocIdSelector(sourceDocument);
    var targets := db.Collection(target);
    if targetDocId in targets {
      var targetDocument := targets[targetDocId];
      // Only aggregate if sourceDocId is not yet in the ledger
      if sourceDocId !in targetDocument.sources {
        var aggregate := agg.aggregateFunction(targetDocument, sourceDocument);
        db.aggregates := db.aggregates[target := targets[targetDocId :=
          Bucket(Overlay(targetDocument.fields, aggregate), targetDocument.sources + [sourceDocId])]];
      }
    } else {
      var seed := agg.seedFunction(sourceDocument);
      db.aggregates := db.aggregates[target := targets[targetDocId := Bucket(Overlay(map[], seed), [sourceDocId])]];
    }
    db.products := db.products[docId := Mark(sourceDocument, target)];
    count := count + 1;
  }

  /** The number of documents of `docs` not yet marked for `target`. */
  function Unmarked(docs: seq<(string, Product)>, target: string): nat
  {
    if docs == [] then 0
    else (if IsMarked(docs[0].1, target) then 0 else 1) + Unmarked(docs[1..], target)
  }

  /** Each pass keeps every ledger free of duplicates. */
  lemma {:induction false} ScanKeepsLedgerValid(run: Run, docs: seq<(string, Product)>, agg: Aggregation)
    requires LedgerValid(run.buckets)
    ensures LedgerValid(Scan(run, docs, agg).buckets)
    decreases |docs|
  {
    if docs != [] && run.error.None? {
      ScanKeepsLedgerValid(Step(run, docs[0].0, docs[0].1, agg), docs[1..], agg);
    }
  }

  /**
    The pass stops exactly at a document without `meta.aggregated`; when it
    does not stop, `aggregatedDocs` counts the documents unmarked at scan time,
    including those whose fold the ledger skipped.
   */
  lemma {:induction false} ScanCountsUnmarked(run: Run, docs: seq<(string, Product)>, agg: Aggregation)
    requires run.error.None?
    ensures Scan(run, docs, agg).error.None? <==> forall i :: 0 <= i < |docs| ==> HasMarkers(docs[i].1)
    ensures Scan(run, docs, agg).error.None? ==>
              Scan(run, docs, agg).aggregatedDocs == run.aggregatedDocs + Unmarked(docs, agg.targetCollection)
    decreases |docs|
  {
    if docs != [] {
      var next := Step(run, docs[0].0, docs[0].1, agg);
      if next.error.None? {
        ScanCountsUnmarked(next, docs[1..], agg);
        assert forall i :: 1 <= i < |docs| ==> docs[i] == docs[1..][i - 1];
      }
    }
  }

  /** Documents already marked for the target are skipped entirely: no bucket, marker or count changes. */
  lemma {:induction false} ScanSkipsMarked(run: Run, docs: seq<(string, Product)>, agg: Aggregation)
    requires forall i :: 0 <= i < |docs| ==> IsMarked(docs[i].1, agg.targetCollection)
    ensures Scan(run, docs, agg) == run
    decreases |docs|
  {
    if docs != [] && run.error.None? {
      ScanSkipsMarked(run, docs[1..], agg);
    }
  }

  /** Buckets no visited document selects are untouched. */
  lemma {:induction false} ScanTouchesOnlySelected(run: Run, docs: seq<(string, Product)>, agg: Aggregation, k: string)
    requires k in run.buckets
    requires forall i :: 0 <= i < |docs| ==> agg.targetDocIdSelector(docs[i].1) != k
    ensures k in Scan(run, docs, agg).buckets && Scan(run, docs, agg).buckets[k] == run.buckets[k]
    decreases |docs|
  {
    if docs != [] && run.error.None? {
      ScanTouchesOnlySelected(Step(run, docs[0].0, docs[0].1, agg), docs[1..], agg, k);
    }
  }

  /** A marker, once set, stays set, and no product document disappears. */
  lemma {:induction false} ScanKeepsMarks(run: Run, docs: seq<(string, Product)>, agg: Aggregation, id: string)
    requires id in run.products && IsMarked(run.products[id], agg.targetCollection)
    ensures id in Scan(run, docs, agg).products && IsMarked(Scan(run, docs, agg).products[id], agg.targetCollection)
    decreases |docs|
  {
    if docs != [] && run.error.None? {
      ScanKeepsMarks(Step(run, docs[0].0, docs[0].1, agg), docs[1..], agg, id);
    }
  }

  /** A pass over a snapshot writes only documents of that snapshot. */
  lemma {:induction false} ScanKeepsIds(run: Run, docs: seq<(string, Product)>, agg: Aggregation)
    requires forall i :: 0 <= i < |docs| ==> docs[i].0 in run.products
    ensures Scan(run, docs, agg).products.Keys == run.products.Keys
    decreases |docs|
  {
    if docs != [] && run.error.None? {
      ScanKeepsIds(Step(run, docs[0].0, docs[0].1, agg), docs[1..], agg);
    }
  }

  /** After a pass that did not stop, every visited document is marked for the target. */
  lemma {:induction false} ScanMarksAll(run: Run, docs: seq<(string, Product)>, agg: Aggregation)
    requires run.error.None? && DistinctIds(docs)
    requires forall i :: 0 <= i < |docs| ==>
               docs[i].0 in run.products && (IsMarked(docs[i].1, agg.targetCollection) ==> IsMarked(run.products[docs[i].0], agg.targetCollection))
    requires Scan(run, docs, agg).error.None?
    ensures forall i :: 0 <= i < |docs| ==>
              docs[i].0 in Scan(run, docs, agg).products && IsMarked(Scan(run, docs, agg).products[docs[i].0], agg.targetCollection)
    decreases |docs|
  {
    if docs != [] {
      var (id, doc) := docs[0];
      var next := Step(run, id, doc, agg);
      assert IsMarked(next.products[id], agg.targetCollection);
      assert forall i :: 1 <= i < |docs| ==> docs[i] == docs[1..][i - 1] && docs[i].0 != id;
      ScanMarksAll(next, docs[1..], agg);
      ScanKeepsMarks(next, docs[1..], agg, id);
    }
  }

  /** A second pass over the same products, after a first pass that did not stop, changes nothing. */
  lemma SecondPassChangesNothing(buckets: map<string, Bucket>, products: map<string, Product>,
                                 docs: seq<(string, Product)>, docs2: seq<(string, Product)>, agg: Aggregation)
    requires IsSnapshot(docs, products)
    requires Pass(buckets, products, docs, agg).error.None?
    requires IsSnapshot(docs2, Pass(buckets, products, docs, agg).products)
    ensures var r1 := Pass(buckets, products, docs, agg);
            Pass(r1.buckets, r1.products, docs2, agg) == Run(r1.buckets, r1.products, 0, None)
  {
    var r1 := Pass(buckets, products, docs, agg);
    var start := Run(buckets, products, 0, None);
    ScanKeepsIds(start, docs, agg);
    ScanMarksAll(start, docs, agg);
    forall i | 0 <= i < |docs2|
      ensures IsMarked(docs2[i].1, agg.targetCollection)
    {
      var id := docs2[i].0;
      assert id in products;
      var j :| 0 <= j < |docs| && docs[j].0 == id;
    }
    ScanSkipsMarked(Run(r1.buckets, r1.products, 0, None), docs2, agg);
  }

  /** After a pass that did not stop, every document that was unmarked has contributed to its bucket. */
  lemma {:induction false} ScanRecordsContributions(run: Run, docs: seq<(string, Product)>, agg: Aggregation)
    requires run.error.None? && Scan(run, docs, agg).error.None?
    ensures forall i :: 0 <= i < |docs| && !IsMarked(docs[i].1, agg.targetCollection) ==>
              Contributed(Scan(run, docs, agg).buckets, agg.targetDocIdSelector(docs[i].1), agg.sourceDocIdSelector(docs[i].1))
    decreases |docs|
  {
    if docs != [] {
      var doc := docs[0].1;
      var next := Step(run, docs[0].0, doc, agg);
      var last := Scan(next, docs[1..], agg);
      ScanRecordsContributions(next, docs[1..], agg);
      ScanKeepsLedgerGrows(next, docs[1..], agg);
      if !IsMarked(doc, agg.targetCollection) {
        ContributedStays(next.buckets, last.buckets, agg.targetDocIdSelector(doc), agg.sourceDocIdSelector(doc));
      }
      assert forall i :: 1 <= i < |docs| ==> docs[i] == docs[1..][i - 1];
    }
  }

  /** Growth of the target collection over a pass, without the ledger invariant. */
  lemma {:induction false} ScanKeepsLedgerGrows(run: Run, docs: seq<(string, Product)>, agg: Aggregation)
    ensures Grows(run.buckets, Scan(run, docs, agg).buckets)
    decreases |docs|
  {
    if docs != [] && run.error.None? {
      var next := Step(run, docs[0].0, docs[0].1, agg);
      ScanKeepsLedgerGrows(next, docs[1..], agg);
      GrowsTransitive(run.buckets, next.buckets, Scan(next, docs[1..], agg).buckets);
    }
  }

  /** When every unmarked document has already contributed, a pass leaves the target collection as it is. */
  lemma {:induction false} ScanOverRecordedIsNoop(run: Run, docs: seq<(string, Product)>, agg: Aggregation)
    requires forall i :: 0 <= i < |docs| && !IsMarked(docs[i].1, agg.targetCollection) ==>
               Contributed(run.buckets, agg.targetDocIdSelector(docs[i].1), agg.sourceDocIdSelector(docs[i].1))
    ensures Scan(run, docs, agg).buckets == run.buckets
    decreases |docs|
  {
    if docs != [] && run.error.None? {
      var next := Step(run, docs[0].0, docs[0].1, agg);
      assert next.buckets == run.buckets;
      assert forall i :: 1 <= i < |docs| ==> docs[i] == docs[1..][i - 1];
      ScanOverRecordedIsNoop(next, docs[1..], agg);
    }
  }

  /**
    The ledger alone prevents double counting: if the marker writes of a pass
    were lost and the pass ran again over the same snapshot, no bucket would change.
   */
  lemma LostMarkersDoNotDoubleCount(buckets: map<string, Bucket>, products: map<string, Product>,
                                    products2: map<string, Product>, docs: seq<(string, Product)>, agg: Aggregation)
    requires Pass(buckets, products, docs, agg).error.None?
    ensures var r1 := Pass(buckets, products, docs, agg);
            Pass(r1.buckets, products2, docs, agg).buckets == r1.buckets
  {
    var r1 := Pass(buckets, products, docs, agg);
    ScanRecordsContributions(Run(buckets, products, 0, None), docs, agg);
    ScanOverRecordedIsNoop(Run(r1.buckets, products2, 0, None), docs, agg);
  }

  // ---------------------------------------------------------------------
  // The pass as evidently intended
  // ---------------------------------------------------------------------

  /** `sourceDocument.meta?.aggregated ?? {}`: missing markers read as none. */
  function Markers(doc: Product): map<string, bool>
  {
    if HasMarkers(doc) then doc.meta.value.aggregated.value else map[]
  }

  /**
    The document as the corrected pass reads it: a missing `meta` or
    `meta.aggregated` is taken as empty, so neither the marker check nor the
    marker write throws. A document that has its markers is read as it is.
   */
  function WithMarkers(doc: Product): (r: Product)
    ensures HasMarkers(r) && r.meta.value.aggregated.value == Markers(doc)
    ensures r.(meta := doc.meta) == doc
    ensures doc.meta.Some? ==> r.meta.value.(aggregated := doc.meta.value.aggregated) == doc.meta.value
    ensures HasMarkers(doc) ==> r == doc
    ensures forall target :: IsMarked(r, target) <==> IsMarked(doc, target)
  {
    var m := if doc.meta.Some? then doc.meta.value else EmptyMeta;
    doc.(meta := Some(m.(aggregated := Some(Markers(doc)))))
  }

  /** The snapshot as the corrected pass reads it. */
  function WithAllMarkers(docs: seq<(string, Product)>): (r: seq<(string, Product)>)
    ensures |r| == |docs|
    ensures forall i :: 0 <= i < |docs| ==> r[i] == (docs[i].0, WithMarkers(docs[i].1))
  {
    seq(|docs|, i requires 0 <= i < |docs| => (docs[i].0, WithMarkers(docs[i].1)))
  }

  /**
    The corrected `aggregate`: the marker check of aggregate.js:28 and the
    marker write of :54-60 treat a missing `meta` or `meta.aggregated` as `{}`.
   */
  function IntendedPass(buckets: map<string, Bucket>, products: map<string, Product>, docs: seq<(string, Product)>,
                        agg: Aggregation): Run
  {
    Pass(buckets, products, WithAllMarkers(docs), agg)
  }

  /** Filling in empty markers marks nothing: the same documents are unmarked. */
  lemma {:induction false} UnmarkedWithMarkers(docs: seq<(string, Product)>, target: string)
    decreases |docs|
    ensures Unmarked(WithAllMarkers(docs), target) == Unmarked(docs, target)
  {
    if docs != [] {
      UnmarkedWithMarkers(docs[1..], target);
      assert WithAllMarkers(docs)[1..] == WithAllMarkers(docs[1..]);
    }
  }

  /** The corrected pass never stops, and counts exactly the documents not yet marked for the target. */
  lemma IntendedPassCountsUnmarked(buckets: map<string, Bucket>, products: map<string, Product>,
                                   docs: seq<(string, Product)>, agg: Aggregation)
    ensures var r := IntendedPass(buckets, products, docs, agg);
      r.error.None? && r.aggregatedDocs == Unmarked(docs, agg.targetCollection)
  {
    ScanCountsUnmarked(Run(buckets, products, 0, None), WithAllMarkers(docs), agg);
    UnmarkedWithMarkers(docs, agg.targetCollection);
  }

  /** The corrected pass keeps every ledger free of duplicates. */
  lemma IntendedPassKeepsLedgerValid(buckets: map<string, Bucket>, products: map<string, Product>,
                                     docs: seq<(string, Product)>, agg: Aggregation)
    requires LedgerValid(buckets)
    ensures LedgerValid(IntendedPass(buckets, products, docs, agg).buckets)
  {
    ScanKeepsLedgerValid(Run(buckets, products, 0, None), WithAllMarkers(docs), agg);
  }

  /** After the corrected pass over a snapshot, every product is marked for the target, and none was added. */
  lemma IntendedPassMarksAll(buckets: map<string, Bucket>, products: map<string, Product>,
                             docs: seq<(string, Product)>, agg: Aggregation)
    requires IsSnapshot(docs, products)
    ensures var r := IntendedPass(buckets, products, docs, agg);
      && r.products.Keys == products.Keys
      && forall id :: id in products ==> IsMarked(r.products[id], agg.targetCollection)
  {
    var filled := WithAllMarkers(docs);
    var start := Run(buckets, products, 0, None);
    IntendedPassCountsUnmarked(buckets, products, docs, agg);
    ScanKeepsIds(start, filled, agg);
    ScanMarksAll(start, filled, agg);
    var r := IntendedPass(buckets, products, docs, agg);
    forall id | id in products
      ensures IsMarked(r.products[id], agg.targetCollection)
    {
      var i :| 0 <= i < |docs| && docs[i].0 == id;
      assert filled[i].0 == id;
    }
  }

  /** A second corrected pass over the products the first one left writes nothing and counts zero. */
  lemma IntendedSecondPassChangesNothing(buckets: map<string, Bucket>, products: map<string, Product>,
                                         docs: seq<(string, Product)>, docs2: seq<(string, Product)>, agg: Aggregation)
    requires IsSnapshot(docs, products)
    requires IsSnapshot(docs2, IntendedPass(buckets, products, docs, agg).products)
    ensures var r1 := IntendedPass(buckets, products, docs, agg);
            IntendedPass(r1.buckets, r1.products, docs2, agg) == Run(r1.buckets, r1.products, 0, None)
  {
    var r1 := IntendedPass(buckets, products, docs, agg);
    IntendedPassMarksAll(buckets, products, docs, agg);
    var filled := WithAllMarkers(docs2);
    forall i | 0 <= i < |filled|
      ensures IsMarked(filled[i].1, agg.targetCollection)
    {
      assert docs2[i].0 in products;
    }
    ScanSkipsMarked(Run(r1.buckets, r1.products, 0, None), filled, agg);
  }
}
