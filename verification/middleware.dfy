/** Header-injecting middleware around a base transport (`Chain`, `AddHeader` and the
    `internalRoundTripper` adapter). The only middleware the package builds is `AddHeader`, so a
    composed transport is a base transport under a stack of header setters. */
module Transport {
  import opened Wrappers
  import opened Http

  /** The transport at the bottom of a chain: `http.DefaultTransport`, or one a caller supplied. */
  datatype BaseTransport = DefaultTransport | Supplied(name: string)

  /** An `http.RoundTripper` as this package composes it: a base transport, or the
      `internalRoundTripper` that `AddHeader(key, value)` wraps around `next`. */
  datatype RoundTripper =
    | Base(base: BaseTransport)
    | HeaderSetter(key: string, value: string, next: RoundTripper)

  /** A `Middleware` value; `AddHeader(key, value)` is the only one. */
  datatype Middleware = AddHeader(key: string, value: string)

  /** Applying a middleware to a round tripper: `m(rt)`. */
  function Wrap(m: Middleware, rt: RoundTripper): RoundTripper
  {
    HeaderSetter(m.key, m.value, rt)
  }

  /** The base a chain starts from: a nil round tripper means the default transport. */
  function Start(rt: Option<RoundTripper>): RoundTripper
  {
    if rt.None? then Base(DefaultTransport) else rt.value
  }

  /** The base transport a round tripper finally hands requests to. */
  function BaseOf(rt: RoundTripper): BaseTransport
  {
    match rt
    case Base(b) => b
    case HeaderSetter(_, _, next) => BaseOf(next)
  }

  /** The number of header setters stacked on the base. */
  function Depth(rt: RoundTripper): nat
  {
    match rt
    case Base(_) => 0
    case HeaderSetter(_, _, next) => 1 + Depth(next)
  }

  /** `Chain(rt, middlewares...)`: a left fold, so the last middleware listed ends up outermost.
      With no middlewares the (defaulted) base comes back unchanged; a nil base always ends in
      the default transport; and every middleware adds exactly one layer. */
  function Chain(rt: Option<RoundTripper>, ms: seq<Middleware>): (r: RoundTripper)
    ensures |ms| == 0 ==> r == Start(rt)
    ensures BaseOf(r) == BaseOf(Start(rt))
    ensures rt.None? ==> BaseOf(r) == DefaultTransport
    ensures Depth(r) == Depth(Start(rt)) + |ms|
    decreases |ms|
  {
    if |ms| == 0 then Start(rt) else Wrap(ms[|ms| - 1], Chain(rt, ms[..|ms| - 1]))
  }

  /** The canonical keys the setters of `rt` write. */
  function SetterKeys(rt: RoundTripper): set<string>
  {
    match rt
    case Base(_) => {}
    case HeaderSetter(k, _, next) => {CanonicalKey(k)} + SetterKeys(next)
  }

  /** The request the base transport receives from `rt`: each setter, outermost first, sets its
      key on the request's header map; when that map is nil the setter writes into a fresh map
      of its own that is never attached, so the request passes on unchanged. Only the header
      map ever changes: it gains the setters' keys, and every other key keeps its values. */
  function Delivered(rt: RoundTripper, req: Request): (r: Request)
    ensures r == req.(header := r.header)
    ensures r.header.None? <==> req.header.None?
    ensures req.header.Some? ==> r.header.value.Keys == req.header.value.Keys + SetterKeys(rt)
    ensures req.header.Some? ==> forall k :: k in req.header.value && k !in SetterKeys(rt) ==>
      r.header.value[k] == req.header.value[k]
    ensures req.header.Some? && rt.HeaderSetter? && CanonicalKey(rt.key) !in SetterKeys(rt.next) ==>
      r.header.value[CanonicalKey(rt.key)] == [rt.value]
  {
    match rt
    case Base(_) => req
    case HeaderSetter(k, v, next) =>
      match req.header
      case None => Delivered(next, req)
      case Some(h) => Delivered(next, req.(header := Some(SetHeader(h, k, v))))
  }

  /** `rt.RoundTrip(req)` where the base transports behave as `wire` says. Whatever the wire
      replies, response or error, comes back untouched, and it is the reply to the request
      the setters prepared. */
  function RoundTrip(rt: RoundTripper, req: Request, wire: (BaseTransport, Request) -> Reply): (r: Reply)
    ensures r == wire(BaseOf(rt), Delivered(rt, req))
  {
    match rt
    case Base(b) => wire(b, req)
    case HeaderSetter(k, v, next) =>
      match req.header
      case None => RoundTrip(next, req, wire)
      case Some(h) => RoundTrip(next, req.(header := Some(SetHeader(h, k, v))), wire)
  }

  // ----- A reference for what a chain does to a header map -----

  /** The header map after every middleware of `ms` has set its key, in the order a request
      meets them: the last listed first, the first listed last. */
  function SetAll(h: Header, ms: seq<Middleware>): Header
    decreases |ms|
  {
    if |ms| == 0 then h else SetHeader(SetAll(h, ms[1..]), ms[0].key, ms[0].value)
  }

  /** A request as `SetAll` leaves it; a request without a header map is left alone. */
  function Stamp(req: Request, ms: seq<Middleware>): Request
  {
    match req.header
    case None => req
    case Some(h) => req.(header := Some(SetAll(h, ms)))
  }

  lemma {:induction false} SetAllSnoc(h: Header, ms: seq<Middleware>, m: Middleware)
    ensures SetAll(h, ms + [m]) == SetAll(SetHeader(h, m.key, m.value), ms)
    decreases |ms|
  {
    if |ms| > 0 {
      assert (ms + [m])[1..] == ms[1..] + [m];
      SetAllSnoc(h, ms[1..], m);
    }
  }

  /** What a chain delivers: the requests its own middlewares stamp, handed to the base. */
  lemma {:induction false} ChainDelivers(rt: Option<RoundTripper>, ms: seq<Middleware>, req: Request)
    ensures Delivered(Chain(rt, ms), req) == Delivered(Start(rt), Stamp(req, ms))
    decreases |ms|
  {
    if |ms| > 0 {
      var init, last := ms[..|ms| - 1], ms[|ms| - 1];
      assert ms == init + [last];
      match req.header
      case None =>
        ChainDelivers(rt, init, req);
      case Some(h) =>
        var req' := req.(header := Some(SetHeader(h, last.key, last.value)));
        ChainDelivers(rt, init, req');
        SetAllSnoc(h, init, last);
    }
  }

  /** Sending through a chain is sending the stamped request to the base, with the base's
      reply returned as it is. */
  lemma ChainRoundTrip(rt: Option<RoundTripper>, ms: seq<Middleware>, req: Request,
                       wire: (BaseTransport, Request) -> Reply)
    ensures RoundTrip(Chain(rt, ms), req, wire)
         == wire(BaseOf(Start(rt)), Delivered(Start(rt), Stamp(req, ms)))
  {
    ChainDelivers(rt, ms, req);
  }

  /** A request with a nil header map crosses any chain of setters unchanged. */
  lemma {:induction false} NilHeaderUntouched(rt: RoundTripper, req: Request)
    requires req.header.None?
    ensures Delivered(rt, req) == req
  {
    match rt
    case Base(_) =>
    case HeaderSetter(_, _, next) => NilHeaderUntouched(next, req);
  }

  /** The keys a list of middlewares sets, canonicalised. */
  function KeysOf(ms: seq<Middleware>): set<string>
  {
    set i | 0 <= i < |ms| :: CanonicalKey(ms[i].key)
  }

  /** For a key set more than once, the value of the earliest-listed middleware is the one
      that remains. */
  lemma {:induction false} FirstListedWins(h: Header, ms: seq<Middleware>, i: nat)
    requires i < |ms|
    requires forall j :: 0 <= j < i ==> CanonicalKey(ms[j].key) != CanonicalKey(ms[i].key)
    ensures CanonicalKey(ms[i].key) in SetAll(h, ms)
    ensures SetAll(h, ms)[CanonicalKey(ms[i].key)] == [ms[i].value]
    decreases i
  {
    if i > 0 {
      FirstListedWins(h, ms[1..], i - 1);
    }
  }

  /** A key no middleware sets keeps exactly what the request carried. */
  lemma {:induction false} UnsetKeysUntouched(h: Header, ms: seq<Middleware>, k: string)
    requires k !in KeysOf(ms)
    ensures k in SetAll(h, ms) <==> k in h
    ensures k in h ==> SetAll(h, ms)[k] == h[k]
    decreases |ms|
  {
    if |ms| > 0 {
      assert KeysOf(ms[1..]) <= KeysOf(ms) by {
        forall j | 0 <= j < |ms| - 1 ensures ms[1..][j] == ms[j + 1] { }
      }
      UnsetKeysUntouched(h, ms[1..], k);
    }
  }

  /** The keys after stamping are the request's own keys plus the middlewares' keys. */
  lemma {:induction false} SetAllKeys(h: Header, ms: seq<Middleware>)
    ensures SetAll(h, ms).Keys == h.Keys + KeysOf(ms)
    decreases |ms|
  {
    if |ms| > 0 {
      SetAllKeys(h, ms[1..]);
      assert KeysOf(ms) == {CanonicalKey(ms[0].key)} + KeysOf(ms[1..]) by {
        forall k | k in KeysOf(ms) ensures k in {CanonicalKey(ms[0].key)} + KeysOf(ms[1..]) {
          var j :| 0 <= j < |ms| && k == CanonicalKey(ms[j].key);
          if j > 0 { assert ms[1..][j - 1] == ms[j]; }
        }
        forall k | k in KeysOf(ms[1..]) ensures k in KeysOf(ms) {
          var j :| 0 <= j < |ms| - 1 && k == CanonicalKey(ms[1..][j].key);
          assert ms[1..][j] == ms[j + 1];
        }
      }
    }
  }

  /** No two middlewares of the list set the same key. */
  predicate DistinctKeys(ms: seq<Middleware>)
  {
    forall i, j :: 0 <= i < j < |ms| ==> CanonicalKey(ms[i].key) != CanonicalKey(ms[j].key)
  }

  /** With distinct keys every configured header arrives with its own value. */
  lemma EveryHeaderArrives(h: Header, ms: seq<Middleware>)
    requires DistinctKeys(ms)
    ensures forall i :: 0 <= i < |ms| ==>
      CanonicalKey(ms[i].key) in SetAll(h, ms) && SetAll(h, ms)[CanonicalKey(ms[i].key)] == [ms[i].value]
  {
    forall i | 0 <= i < |ms|
      ensures CanonicalKey(ms[i].key) in SetAll(h, ms)
      ensures SetAll(h, ms)[CanonicalKey(ms[i].key)] == [ms[i].value]
    {
      FirstListedWins(h, ms, i);
    }
  }

  /** With distinct keys the order of the list does not matter: any rearrangement of the same
      middlewares produces the same header map. */
  lemma OrderIrrelevantForDistinctKeys(h: Header, ms: seq<Middleware>, ns: seq<Middleware>)
    requires DistinctKeys(ms) && DistinctKeys(ns)
    requires multiset(ms) == multiset(ns)
    ensures SetAll(h, ms) == SetAll(h, ns)
  {
    var a, b := SetAll(h, ms), SetAll(h, ns);
    assert KeysOf(ms) == KeysOf(ns) by {
      forall k | k in KeysOf(ms) ensures k in KeysOf(ns) {
        var i :| 0 <= i < |ms| && k == CanonicalKey(ms[i].key);
        assert ms[i] in multiset(ns);
      }
      forall k | k in KeysOf(ns) ensures k in KeysOf(ms) {
        var i :| 0 <= i < |ns| && k == CanonicalKey(ns[i].key);
        assert ns[i] in multiset(ms);
      }
    }
    SetAllKeys(h, ms);
    SetAllKeys(h, ns);
    EveryHeaderArrives(h, ms);
    EveryHeaderArrives(h, ns);
    forall k | k in a.Keys ensures a[k] == b[k] {
      if k in KeysOf(ms) {
        var i :| 0 <= i < |ms| && k == CanonicalKey(ms[i].key);
        assert ms[i] in multiset(ns);
        var j :| 0 <= j < |ns| && ns[j] == ms[i];
      } else {
        UnsetKeysUntouched(h, ms, k);
        UnsetKeysUntouched(h, ns, k);
      }
    }
  }
}
