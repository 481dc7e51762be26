/** The Firestore database the functions receive as `db`, as three in-memory collections. */
module Firestore {
  import opened Docs

  class Store {
    /** The `products` collection, by document id. */
    var products: map<string, Product>
    /** The `banks` collection, by bank id. */
    var banks: map<string, Bank>
    /** The rollup collections, by collection name and then by bucket id. */
    var aggregates: map<string, map<string, Bucket>>

    constructor (products: map<string, Product>, banks: map<string, Bank>, aggregates: map<string, map<string, Bucket>>)
      ensures this.products == products && this.banks == banks && this.aggregates == aggregates
    {
      this.products := products;
      this.banks := banks;
      this.aggregates := aggregates;
    }

    /** `db.collection(name)` of the rollup collections. */
    function Collection(name: string): map<string, Bucket>
      reads this
    {
      CollectionOf(aggregates, name)
    }
  }

  /** Collection `name` of the rollup collections `a`: a collection nobody has written to is empty. */
  function CollectionOf(a: map<string, map<string, Bucket>>, name: string): map<string, Bucket>
  {
    if name in a then a[name] else map[]
  }

  /**
    The rollup collections once collection `name` holds `c`. Firestore has no
    empty collections: one is created by its first document write, so a pass
    that writes nothing to an absent collection leaves `a` as it was.
   */
  function Stored(a: map<string, map<string, Bucket>>, name: string, c: map<string, Bucket>): (r: map<string, map<string, Bucket>>)
    ensures CollectionOf(r, name) == c
    ensures forall n :: n != name ==> (n in r <==> n in a) && (n in a ==> r[n] == a[n])
    ensures c == CollectionOf(a, name) ==> r == a
  {
    if name !in a && c == map[] then a else a[name := c]
  }

  /** Two successive states of one collection, the second with at least the buckets of the first. */
  lemma StoredTwice(a: map<string, map<string, Bucket>>, name: string, c1: map<string, Bucket>, c2: map<string, Bucket>)
    requires c1.Keys <= c2.Keys
    ensures Stored(Stored(a, name, c1), name, c2) == Stored(a, name, c2)
  {
    if c1 != map[] {
      var k :| k in c1;
      assert k in c2;
    }
  }

  /** No document id occurs twice in a query result. */
  predicate DistinctIds<T>(docs: seq<(string, T)>)
  {
    forall i, j :: 0 <= i < j < |docs| ==> docs[i].0 != docs[j].0
  }

  /**
    `docs` is a query snapshot of `m`: each document of `m` exactly once, as
    (document id, data) pairs, in the order the store returns them.
   */
  predicate IsSnapshot<T(==)>(docs: seq<(string, T)>, m: map<string, T>)
  {
    && DistinctIds(docs)
    && (forall i :: 0 <= i < |docs| ==> docs[i].0 in m && m[docs[i].0] == docs[i].1)
    && (forall id :: id in m ==> exists i :: 0 <= i < |docs| && docs[i].0 == id)
  }
}

/** What the provider's API gives back to the functions; the HTTP transport itself is not modelled. */
module Provider {
  import opened Wrappers
  import opened Docs

  /** What a request to a bank's API depends on: the base URL and the `x-v` version header. */
  datatype Endpoint = Endpoint(apiBaseUrl: string, xv: string)

  function EndpointOf(bank: Bank): Endpoint
  {
    Endpoint(bank.apiBaseUrl, bank.xv)
  }

  /** A failed request or an unusable response: `error.response.data` when there is a response. */
  datatype FetchError = FetchError(response: Option<string>, message: string)

  /** `error.response ? error.response.data : error` */
  function Recorded(e: FetchError): (r: ErrorValue)
    ensures e.response.Some? ==> r == ResponseData(e.response.value)
    ensures e.response.None? ==> r == Thrown(e.message)
  {
    if e.response.Some? then ResponseData(e.response.value) else Thrown(e.message)
  }

  /** The `data.data.products`, `meta.totalPages` and `meta.totalRecords` of one list response. */
  datatype ProductPage = ProductPage(products: seq<Product>, totalPages: int, totalRecords: int)

  /**
    `GET {apiBaseUrl}/products?page={page}&page-size={pageSize}`, as answered
    during one run; `None` leaves the `page-size` parameter out.
   */
  type ProductsApi = (Endpoint, int, Option<nat>) -> Result<ProductPage, FetchError>

  /** `GET {apiBaseUrl}/products/{productId}`: the `data.data` detail payload. */
  type DetailsApi = (Endpoint, string) -> Result<Product, FetchError>

  /**
    The provider never reports more than `bound` pages. Pagination re-reads
    `totalPages` from every response and ends only under such a bound.
   */
  ghost predicate PagesBounded(api: ProductsApi, bound: int)
  {
    1 <= bound &&
    forall e, page, size :: api(e, page, size).Ok? ==> api(e, page, size).value.totalPages <= bound
  }
}
