/**
  The read-check-fold-append step that lib/aggregate.js and lib/aggregateMany.js
  both perform on one rollup bucket: the `sources` list of a bucket is the
  ledger of the source ids already folded into it.
 */
module Ledger {
  import opened Docs

  /** No source id occurs twice in a ledger. */
  predicate NoDup(s: seq<string>)
  {
    forall i, j :: 0 <= i < j < |s| ==> s[i] != s[j]
  }

  /** The ledger invariant of a whole rollup collection. */
  predicate LedgerValid(c: map<string, Bucket>)
  {
    forall k :: k in c ==> NoDup(c[k].sources)
  }

  /** Source `id` has contributed to bucket `key`: the bucket exists and lists `id`. */
  predicate Contributed(c: map<string, Bucket>, key: string, id: string)
  {
    key in c && id in c[key].sources
  }

  /** Every bucket of `c` is still in `c'`, whose ledger extends the old one. */
  predicate Grows(c: map<string, Bucket>, c': map<string, Bucket>)
  {
    forall k :: k in c ==> k in c' && c[k].sources <= c'[k].sources
  }

  /** `{...fields, ...patch, sources: ...}` without the `sources` property itself. */
  function Overlay(fields: Record, patch: Record): Record
  {
    (fields + patch) - {"sources"}
  }

  /**
    Folds source `id` into bucket `key` of collection `c`: an existing bucket
    that does not list `id` is overlaid with `fold(bucket)` and gets `id`
    appended; an existing bucket that lists `id` is left as it is; a missing
    bucket becomes `seed` with `sources = [id]`.
   */
  function Contribute(c: map<string, Bucket>, key: string, id: string, fold: Bucket -> Record, seed: Record): map<string, Bucket>
  {
    if key in c then
      var target := c[key];
      if id in target.sources then c
      else c[key := Bucket(Overlay(target.fields, fold(target)), target.sources + [id])]
    else
      c[key := Bucket(Overlay(map[], seed), [id])]
  }

  /**
    What one contribution does: bucket `key` exists afterwards and lists `id`,
    nothing else changes, a bucket that already listed `id` is untouched, and
    the ledgers only grow and stay free of duplicates.
   */
  lemma ContributeEffect(c: map<string, Bucket>, key: string, id: string, fold: Bucket -> Record, seed: Record)
    ensures var r := Contribute(c, key, id, fold, seed);
      && r.Keys == c.Keys + {key}
      && (forall k :: k in c && k != key ==> r[k] == c[k])
      && Contributed(r, key, id)
      && (Contributed(c, key, id) ==> r == c)
      && (key in c && id !in c[key].sources ==>
            r[key] == Bucket(Overlay(c[key].fields, fold(c[key])), c[key].sources + [id]))
      && (key !in c ==> r[key] == Bucket(Overlay(map[], seed), [id]))
      && Grows(c, r)
      && (LedgerValid(c) ==> LedgerValid(r))
  {
  }

  lemma GrowsTransitive(c1: map<string, Bucket>, c2: map<string, Bucket>, c3: map<string, Bucket>)
    requires Grows(c1, c2) && Grows(c2, c3)
    ensures Grows(c1, c3)
  {
  }

  /** A contribution, once recorded, survives any growth of the collection. */
  lemma ContributedStays(c: map<string, Bucket>, c': map<string, Bucket>, key: string, id: string)
    requires Contributed(c, key, id) && Grows(c, c')
    ensures Contributed(c', key, id)
  {
    var s, s' := c[key].sources, c'[key].sources;
    var i :| 0 <= i < |s| && s[i] == id;
    assert s'[i] == id;
  }
}
