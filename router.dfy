/** The external Inertia router, modelled only by what this adapter hands it
    and reads from it: the remember slots, and a log of each call made. */
module Router {
  import opened Base

  /** The submission verbs of the router (`Method`). */
  datatype Method = Get | Post | Put | Patch | Delete

  /** `preserveState`: a boolean or the string `'errors'`. */
  datatype PreserveState = PreserveFlag(on: bool) | PreserveErrors

  /** The options a form passes to `submit`; `other` stands for every
      option this code copies through without reading. */
  datatype FormOptions = FormOptions(preserveState: Option<PreserveState>, other: map<string, Value>)

  /** What the router receives when a form submits. `payload` is the
      positional data argument, `data` the options' data field. */
  datatype Submission = Submission(
    verb: Method,
    url: string,
    payload: Option<Data>,
    preserveState: PreserveState,
    other: map<string, Value>,
    data: Option<Data>)

  /** A link navigation: `router.visit(url, params)`. */
  datatype Visit = Visit(url: string, params: map<string, Value>)

  /** A link prefetch: `router.prefetch(url, params, { cacheFor })`. */
  datatype PrefetchRequest = PrefetchRequest(url: string, params: map<string, Value>, cacheFor: int)

  /** A cache flush: `router.flush(path, options)`. */
  datatype FlushRequest = FlushRequest(path: string, options: map<string, Value>)

  /** What a form writes to its remember slot. */
  datatype Snapshot = Snapshot(data: Data, errors: ErrorBag)

  /** An opaque cancel token handed out by the router. */
  type Token = nat

  class Router {
    /** The remember/restore key-value store. */
    var remembered: map<string, Snapshot>
    var submissions: seq<Submission>
    var visits: seq<Visit>
    var prefetches: seq<PrefetchRequest>
    /** Tokens whose `cancel()` was called. */
    var cancelled: seq<Token>
    var flushed: seq<FlushRequest>

    constructor (remembered: map<string, Snapshot>)
      ensures this.remembered == remembered
      ensures submissions == [] && visits == [] && prefetches == [] && cancelled == [] && flushed == []
    {
      this.remembered := remembered;
      submissions, visits, prefetches, cancelled, flushed := [], [], [], [], [];
    }
  }
}
