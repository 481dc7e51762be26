/** Option and Result, for absent properties and for calls that may fail. */
module Wrappers {
  datatype Option<T> = None | Some(value: T)

  datatype Result<T, E> = Ok(value: T) | Err(error: E)
}

/**
  The documents of the Firestore collections `products`, `banks` and the rollup
  collections (`productBrands`, `productCategories`, `productEligibility`,
  `productFeatures`, `productConstraints`).
 */
module Docs {
  import opened Wrappers

  /** A scalar property value as JavaScript sees it; `Undefined` is a missing property. */
  datatype Value = Str(s: string) | Num(n: int) | Bool(b: bool) | Null | NaN | Undefined

  /** A plain object with scalar properties. */
  type Record = map<string, Value>

  /** `r[name]`, which is `undefined` when the property is missing. */
  function Get(r: Record, name: string): Value
  {
    if name in r then r[name] else Undefined
  }

  /** JavaScript's `v + 1`, with numbers as unbounded integers. */
  function PlusOne(v: Value): Value
  {
    match v
    case Num(n) => Num(n + 1)
    case Str(s) => Str(s + "1")
    case Bool(b) => Num(if b then 2 else 1)
    case Null => Num(1)
    case NaN => NaN
    case Undefined => NaN
  }

  /**
    One entry of a product's `eligibility`, `features` or `constraints` list;
    `kind` is its discriminator (`eligibilityType`, `featureType` or
    `constraintType`), `fields` the rest of the entry.
   */
  datatype Entry = Entry(kind: string, fields: Record)

  /**
    The engine-owned `meta` block of a product document; `categoryType` is
    its `type` property, the Deposit/Lending classification.
   */
  datatype Meta = Meta(
    bank: Option<string>,
    created: Option<string>,
    updated: Option<string>,
    hasDetail: Option<bool>,
    aggregated: Option<map<string, bool>>,
    categoryType: Option<string>,
    totalPeriodicFee: Option<Value>,
    warnings: Option<seq<string>>)

  /** The meta block with no property set, `{}`. */
  const EmptyMeta := Meta(None, None, None, None, None, None, None, None)

  /**
    A product document, also the shape of the provider's list entries and
    detail payloads. `other` holds every top-level property the functions do
    not name (among them a document's own `eligibilityType`, `featureType` or
    `constraintType`, if it has one).
   */
  datatype Product = Product(
    productId: string,
    lastUpdated: string,
    brand: string,
    productCategory: string,
    eligibility: Option<seq<Entry>>,
    features: Option<seq<Entry>>,
    constraints: Option<seq<Entry>>,
    fees: Option<seq<Record>>,
    other: Record,
    meta: Option<Meta>)

  /** A rollup document: its properties other than `sources`, and the `sources` ledger. */
  datatype Bucket = Bucket(fields: Record, sources: seq<string>)

  /** The value held in `syncError`: the provider's response body or the thrown error itself. */
  datatype ErrorValue = ResponseData(data: string) | Thrown(message: string)

  /** JavaScript truthiness of `syncError`: an empty response body is falsy. */
  predicate Truthy(e: ErrorValue)
  {
    match e
    case ResponseData(d) => d != ""
    case Thrown(_) => true
  }

  /** The `syncProductResult` property of a bank record. */
  datatype SyncResult = SyncResult(lastSyncedAt: string, status: string, error: Option<ErrorValue>)

  /** A document of the `banks` collection. */
  datatype Bank = Bank(xv: string, apiBaseUrl: string, other: Record, syncProductResult: Option<SyncResult>)
}
