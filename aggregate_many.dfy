/**
  lib/aggregateMany.js: the fan-out aggregation pass. Every product is folded
  into each bucket of the list of keys its selector returns, at most once per
  bucket by the bucket's `sources` ledger. No marker is read or written.
 */
module AggregateMany {
  import opened Wrappers
  import opened Docs
  import opened Ledger
  import opened Firestore

  /**
    The arguments of `aggregateMany` after `db` and the source collection,
    which is always "products". The fold and the seed receive the source
    DOCUMENT before the element, in the order of aggregateMany.js:41 and :49.
   */
  datatype FanOut = FanOut(
    sourceDocIdSelector: Product -> string,
    sourceDocElementSelector: (Product, string) -> Option<Entry>,
    targetCollection: string,
    targetDocIdsSelector: Product -> seq<string>,
    aggregateFunction: (Bucket, Product, Option<Entry>) -> Record,
    seedFunction: (Product, Option<Entry>) -> Record)

  /** The inner loop body: source `doc`, whose id is `id`, meets bucket `key`. */
  function VisitKey(c: map<string, Bucket>, doc: Product, id: string, key: string, agg: FanOut): map<string, Bucket>
  {
    var element := agg.sourceDocElementSelector(doc, key);
    Contribute(c, key, id, b => agg.aggregateFunction(b, doc, element), agg.seedFunction(doc, element))
  }

  /**
    `ContributeEffect` for one key of the fan-out: the fold and the seed get
    the source document first and the element second.
   */
  lemma VisitKeyEffect(c: map<string, Bucket>, doc: Product, id: string, key: string, agg: FanOut)
    ensures var r := VisitKey(c, doc, id, key, agg);
      var element := agg.sourceDocElementSelector(doc, key);
      && r.Keys == c.Keys + {key}
      && (forall k :: k in c && k != key ==> r[k] == c[k])
      && Contributed(r, key, id)
      && (Contributed(c, key, id) ==> r == c)
      && (key in c && !Contributed(c, key, id) ==> r[key].sources == c[key].sources + [id])
      && (key !in c ==> r[key].sources == [id])
      && (key in c && !Contributed(c, key, id) ==>
            r[key] == Bucket(Overlay(c[key].fields, agg.aggregateFunction(c[key], doc, element)), c[key].sources + [id]))
      && (key !in c ==> r[key] == Bucket(Overlay(map[], agg.seedFunction(doc, element)), [id]))
      && Grows(c, r)
      && (LedgerValid(c) ==> LedgerValid(r))
  {
    var element := agg.sourceDocElementSelector(doc, key);
    ContributeEffect(c, key, id, b => agg.aggregateFunction(b, doc, element), agg.seedFunction(doc, element));
  }

  /** The rest of the inner loop over the keys `keys` still to visit. */
  function VisitKeys(c: map<string, Bucket>, doc: Product, id: string, keys: seq<string>, agg: FanOut): map<string, Bucket>
    decreases |keys|
  {
    if keys == [] then c
    else VisitKeys(VisitKey(c, doc, id, keys[0], agg), doc, id, keys[1..], agg)
  }

  /** The rest of the outer loop over the source documents `docs` still to visit. */
  function ScanMany(c: map<string, Bucket>, docs: seq<(string, Product)>, agg: FanOut): map<string, Bucket>
    decreases |docs|
  {
    if docs == [] then c
    else
      var doc := docs[0].1;
      ScanMany(VisitKeys(c, doc, agg.sourceDocIdSelector(doc), agg.targetDocIdsSelector(doc), agg), docs[1..], agg)
  }

  /** `aggregateMany(db, "products", ...)` over the snapshot `snapshot` of the products collection. */
  method RunAggregateMany(db: Store, snapshot: seq<(string, Product)>, agg: FanOut)
    requires IsSnapshot(snapshot, db.products)
    modifies db
    ensures db.aggregates == Stored(old(db.aggregates), agg.targetCollection, ScanMany(old(db.Collection(agg.targetCollection)), snapshot, agg))
    ensures db.products == old(db.products) && db.banks == old(db.banks)
  {
    VisitDocuments(db, snapshot, agg);
  }

  /** The outer loop of `aggregateMany`, over the documents `snapshot` in order. */
  method VisitDocuments(db: Store, snapshot: seq<(string, Product)>, agg: FanOut)
    modifies db
    ensures db.aggregates == Stored(old(db.aggregates), agg.targetCollection, ScanMany(old(db.Collection(agg.targetCollection)), snapshot, agg))
    ensures db.products == old(db.products) && db.banks == old(db.banks)
  {
    var target := agg.targetCollection;
    ghost var final := ScanMany(db.Collection(target), snapshot, agg);
    ghost var start := db.aggregates;
    ghost var current := db.Collection(target);
    var i := 0;
    while i < |snapshot|
      invariant 0 <= i <= |snapshot|
      invariant db.products == old(db.products) && db.banks == old(db.banks)
      invariant db.aggregates == Stored(start, target, current)
      invariant ScanMany(current, snapshot[i..], agg) == final
    {
      assert snapshot[i..][0] == snapshot[i] && snapshot[i..][1..] == snapshot[i + 1..];
      var sourceDocument := snapshot[i].1;
      var sourceDocId := agg.sourceDocIdSelector(sourceDocument);
      var targetDocIds := agg.targetDocIdsSelector(sourceDocument);
      AggregateKeys(db, sourceDocument, sourceDocId, targetDocIds, agg);
      ghost var next := VisitKeys(current, sourceDocument, sourceDocId, targetDocIds, agg);
      VisitKeysKeepsLedger(current, sourceDocument, sourceDocId, targetDocIds, agg);
      StoredTwice(start, target, current, next);
      current := next;
      i := i + 1;
    }
  }

  /** The inner loop: source `sourceDocument` meets each bucket of `targetDocIds` in turn. */
  method AggregateKeys(db: Store, sourceDocument: Product, sourceDocId: string, targetDocIds: seq<string>, agg: FanOut)
    modifies db
    ensures db.aggregates == Stored(old(db.aggregates), agg.targetCollection,
              VisitKeys(old(db.Collection(agg.targetCollection)), sourceDocument, sourceDocId, targetDocIds, agg))
    ensures db.products == old(db.products) && db.banks == old(db.banks)
  {
    var target := agg.targetCollection;
    ghost var visited := VisitKeys(db.Collection(target), sourceDocument, sourceDocId, targetDocIds, agg);
    ghost var current := db.Collection(target);
    var j := 0;
    while j < |targetDocIds|
      invariant 0 <= j <= |targetDocIds|
      invariant db.products == old(db.products) && db.banks == old(db.banks)
      invariant db.aggregates == Stored(old(db.aggregates), target, current)
      invariant VisitKeys(current, sourceDocument, sourceDocId, targetDocIds[j..], agg) == visited
    {
      assert targetDocIds[j..][0] == targetDocIds[j] && targetDocIds[j..][1..] == targetDocIds[j + 1..];
      AggregateKey(db, sourceDocument, sourceDocId, targetDocIds[j], agg);
      ghost var next := VisitKey(current, sourceDocument, sourceDocId, targetDocIds[j], agg);
      VisitKeyEffect(current, sourceDocument, sourceDocId, targetDocIds[j], agg);
      StoredTwice(old(db.aggregates), target, current, next);
      current := next;
      j := j + 1;
    }
  }

  /** The body of the inner loop: read bucket `targetDocId`, then fold or seed unless the ledger lists the source. */
  method AggregateKey(db: Store, sourceDocument: Product, sourceDocId: string, targetDocId: string, agg: FanOut)
    modifies db
    ensures db.aggregates == Stored(old(db.aggregates), agg.targetCollection,
              VisitKey(old(db.Collection(agg.targetCollection)), sourceDocument, sourceDocId, targetDocId, agg))
    ensures db.products == old(db.products) && db.banks == old(db.banks)
  {
    var target := agg.targetCollection;
    var targets := db.Collection(target);
    var sourceElement := agg.sourceDocElementSelector(sourceDocument, targetDocId);
    if targetDocId in targets {
      var targetDocument := targets[targetDocId];
      // Only aggregate if sourceDocId is not yet in the ledger
      if sourceDocId !in targetDocument.sources {
        var aggregate := agg.aggregateFunction(targetDocument, sourceDocument, sourceElement);
        db.aggregates := db.aggregates[target := targets[targetDocId :=
          Bucket(Overlay(targetDocument.fields, aggregate), targetDocument.sources + [sourceDocId])]];
      }
    } else {
      var seed := agg.seedFunction(sourceDocument, sourceElement);
      db.aggregates := db.aggregates[target := targets[targetDocId := Bucket(Overlay(map[], seed), [sourceDocId])]];
    }
  }

  /** The inner loop leaves a bucket for every key of `keys`, and no other new one. */
  lemma {:induction false} VisitKeysBuckets(c: map<string, Bucket>, doc: Product, id: string, keys: seq<string>, agg: FanOut)
    decreases |keys|
    ensures VisitKeys(c, doc, id, keys, agg).Keys == c.Keys + set k | k in keys
  {
    if keys != [] {
      VisitKeyEffect(c, doc, id, keys[0], agg);
      VisitKeysBuckets(VisitKey(c, doc, id, keys[0], agg), doc, id, keys[1..], agg);
      assert forall k :: k in keys <==> k == keys[0] || k in keys[1..];
    }
  }

  /**
    What the inner loop does to the ledgers: a bucket gains `id` exactly once
    when one of `keys` selects it and it did not list `id` before, and keeps
    its ledger otherwise; so a key repeated in `keys` contributes only once.
   */
  lemma {:induction false} VisitKeysLedgers(c: map<string, Bucket>, doc: Product, id: string, keys: seq<string>, agg: FanOut)
    decreases |keys|
    ensures forall k :: k in VisitKeys(c, doc, id, keys, agg) ==>
              VisitKeys(c, doc, id, keys, agg)[k].sources ==
                (if k in c then c[k].sources else []) + (if k in keys && !Contributed(c, k, id) then [id] else [])
  {
    if keys != [] {
      var c1 := VisitKey(c, doc, id, keys[0], agg);
      var r := VisitKeys(c1, doc, id, keys[1..], agg);
      VisitKeyEffect(c, doc, id, keys[0], agg);
      VisitKeysLedgers(c1, doc, id, keys[1..], agg);
      forall k | k in r
        ensures r[k].sources == (if k in c then c[k].sources else []) + (if k in keys && !Contributed(c, k, id) then [id] else [])
      {
        assert k in keys <==> k == keys[0] || k in keys[1..];
        if k == keys[0] {
          assert Contributed(c1, k, id);
        } else {
          assert (k in c1 <==> k in c) && (k in c ==> c1[k] == c[k]);
        }
      }
    }
  }

  /** A bucket no key selects keeps all its properties. */
  lemma {:induction false} VisitKeysOnlySelected(c: map<string, Bucket>, doc: Product, id: string, keys: seq<string>, agg: FanOut, k: string)
    decreases |keys|
    requires k in c && k !in keys
    ensures k in VisitKeys(c, doc, id, keys, agg) && VisitKeys(c, doc, id, keys, agg)[k] == c[k]
  {
    if keys != [] {
      VisitKeysOnlySelected(VisitKey(c, doc, id, keys[0], agg), doc, id, keys[1..], agg, k);
    }
  }

  /** The inner loop keeps the ledgers free of duplicates and only appends to them. */
  lemma {:induction false} VisitKeysKeepsLedger(c: map<string, Bucket>, doc: Product, id: string, keys: seq<string>, agg: FanOut)
    decreases |keys|
    ensures LedgerValid(c) ==> LedgerValid(VisitKeys(c, doc, id, keys, agg))
    ensures Grows(c, VisitKeys(c, doc, id, keys, agg))
  {
    if keys != [] {
      var c1 := VisitKey(c, doc, id, keys[0], agg);
      VisitKeysKeepsLedger(c1, doc, id, keys[1..], agg);
      GrowsTransitive(c, c1, VisitKeys(c1, doc, id, keys[1..], agg));
    }
  }

  /** A whole pass keeps the ledgers free of duplicates and only appends to them. */
  lemma {:induction false} ScanManyKeepsLedger(c: map<string, Bucket>, docs: seq<(string, Product)>, agg: FanOut)
    decreases |docs|
    ensures LedgerValid(c) ==> LedgerValid(ScanMany(c, docs, agg))
    ensures Grows(c, ScanMany(c, docs, agg))
  {
    if docs != [] {
      var doc := docs[0].1;
      var c1 := VisitKeys(c, doc, agg.sourceDocIdSelector(doc), agg.targetDocIdsSelector(doc), agg);
      VisitKeysKeepsLedger(c, doc, agg.sourceDocIdSelector(doc), agg.targetDocIdsSelector(doc), agg);
      ScanManyKeepsLedger(c1, docs[1..], agg);
      GrowsTransitive(c, c1, ScanMany(c1, docs[1..], agg));
    }
  }

  /** Every key of the source document has recorded the source in its ledger. */
  ghost predicate Covered(c: map<string, Bucket>, doc: Product, agg: FanOut)
  {
    forall k :: k in agg.targetDocIdsSelector(doc) ==> Contributed(c, k, agg.sourceDocIdSelector(doc))
  }

  lemma CoveredStays(c: map<string, Bucket>, c': map<string, Bucket>, doc: Product, agg: FanOut)
    requires Covered(c, doc, agg) && Grows(c, c')
    ensures Covered(c', doc, agg)
  {
    forall k | k in agg.targetDocIdsSelector(doc)
      ensures Contributed(c', k, agg.sourceDocIdSelector(doc))
    {
      ContributedStays(c, c', k, agg.sourceDocIdSelector(doc));
    }
  }

  /** After a pass, every visited document has contributed to each of its buckets. */
  lemma {:induction false} ScanManyCovers(c: map<string, Bucket>, docs: seq<(string, Product)>, agg: FanOut)
    decreases |docs|
    ensures forall i :: 0 <= i < |docs| ==> Covered(ScanMany(c, docs, agg), docs[i].1, agg)
  {
    if docs != [] {
      var doc := docs[0].1;
      var keys := agg.targetDocIdsSelector(doc);
      var c1 := VisitKeys(c, doc, agg.sourceDocIdSelector(doc), keys, agg);
      var last := ScanMany(c1, docs[1..], agg);
      VisitKeysBuckets(c, doc, agg.sourceDocIdSelector(doc), keys, agg);
      VisitKeysLedgers(c, doc, agg.sourceDocIdSelector(doc), keys, agg);
      assert Covered(c1, doc, agg);
      ScanManyKeepsLedger(c1, docs[1..], agg);
      CoveredStays(c1, last, doc, agg);
      ScanManyCovers(c1, docs[1..], agg);
      assert forall i :: 1 <= i < |docs| ==> docs[i] == docs[1..][i - 1];
    }
  }

  /** A pass over documents that have all contributed already changes nothing. */
  lemma {:induction false} ScanManyOverCoveredIsNoop(c: map<string, Bucket>, docs: seq<(string, Product)>, agg: FanOut)
    decreases |docs|
    requires forall i :: 0 <= i < |docs| ==> Covered(c, docs[i].1, agg)
    ensures ScanMany(c, docs, agg) == c
  {
    if docs != [] {
      var doc := docs[0].1;
      var id := agg.sourceDocIdSelector(doc);
      var keys := agg.targetDocIdsSelector(doc);
      VisitKeysNoop(c, doc, id, keys, agg);
      assert forall i :: 1 <= i < |docs| ==> docs[i] == docs[1..][i - 1];
      ScanManyOverCoveredIsNoop(c, docs[1..], agg);
    }
  }

  lemma {:induction false} VisitKeysNoop(c: map<string, Bucket>, doc: Product, id: string, keys: seq<string>, agg: FanOut)
    decreases |keys|
    requires forall k :: k in keys ==> Contributed(c, k, id)
    ensures VisitKeys(c, doc, id, keys, agg) == c
  {
    if keys != [] {
      assert keys[0] in keys;
      VisitKeysNoop(c, doc, id, keys[1..], agg);
    }
  }

  /** Re-running the pass over unchanged sources leaves every bucket as the first pass left it. */
  lemma RerunChangesNothing(c: map<string, Bucket>, docs: seq<(string, Product)>, agg: FanOut)
    ensures ScanMany(ScanMany(c, docs, agg), docs, agg) == ScanMany(c, docs, agg)
  {
    ScanManyCovers(c, docs, agg);
    ScanManyOverCoveredIsNoop(ScanMany(c, docs, agg), docs, agg);
  }
}
