/** The evaluation cache in front of a backend: which answers it hands out, and when they are the
    backend's own. */
module MemCaches {
  import opened Wrappers
  import opened ChessRules
  import opened HashKeyedCaches

  /** What a backend says about a position: three numbers, and one for every move asked about. */
  datatype Answer = Answer(q: real, d: real, m: real, policy: seq<real>)

  /** A position to evaluate, its legal moves if they are passed, and whether the caller has room for
      the numbers of the moves. */
  datatype Request<P> = Request(position: P, moves: seq<Move>, room: bool)

  /** The backend behind the cache, and the hash of a position. */
  datatype Backend<!P> = Backend(hash: P -> nat, eval: (P, seq<Move>) -> Answer)

  /** A backend fills in one number for each move. */
  ghost predicate Fitting<P(!new)>(w: Backend<P>) {
    forall p, moves :: |w.eval(p, moves).policy| == |moves|
  }

  /** What the backend answers, as far as the caller has room for it. */
  function Answered<P>(w: Backend<P>, r: Request<P>): Answer {
    var a := w.eval(r.position, r.moves);
    a.(policy := if r.room then a.policy else [])
  }

  // ---------- cached values ----------

  /** The number of moves is kept in eight bits. */
  datatype CachedValue = CachedValue(q: real, d: real, m: real, numMoves: nat, policy: Option<seq<real>>)

  function Computed<P>(w: Backend<P>, r: Request<P>): CachedValue {
    var a := w.eval(r.position, r.moves);
    CachedValue(a.q, a.d, a.m, |r.moves| % 256, if r.moves == [] then None else Some(a.policy))
  }

  predicate Usable<P>(v: CachedValue, r: Request<P>) {
    r.moves == [] || (v.policy.Some? && v.numMoves == |r.moves|)
  }

  /** A value read out for a request. */
  function Read<P>(v: CachedValue, r: Request<P>): Answer {
    Answer(v.q, v.d, v.m,
           if r.room && v.policy.Some? && |r.moves| <= |v.policy.value| then v.policy.value[..|r.moves|] else [])
  }

  function Fetched<P>(w: Backend<P>, values: map<nat, CachedValue>, r: Request<P>): Option<Answer> {
    var key := w.hash(r.position);
    if key in values && Usable(values[key], r) then Some(Read(values[key], r)) else None
  }

  // ---------- runs ----------

  /** What the cache holds: values, their keys oldest first, and its capacity. */
  datatype Cache = Cache(values: map<nat, CachedValue>, order: seq<nat>, capacity: nat)

  ghost function Inserted(c: Cache, key: nat, v: CachedValue): Cache {
    if c.capacity == 0 || key in c.values then c
    else
      var order := Newest(c.order + [key], c.capacity);
      Cache(Only(c.values[key := v], order), order, c.capacity)
  }

  ghost function InsertedAll<P>(w: Backend<P>, c: Cache, rs: seq<Request<P>>): Cache {
    if rs == [] then c
    else
      var r := rs[|rs| - 1];
      Inserted(InsertedAll(w, c, rs[..|rs| - 1]), w.hash(r.position), Computed(w, r))
  }

  ghost function Resized(c: Cache, capacity: nat): Cache {
    var order := Newest(c.order, capacity);
    Cache(Only(c.values, order), order, capacity)
  }

  /** Calls on the cache and on its numbered computations. */
  datatype Op<P> = AddInput(computation: nat, request: Request<P>) | ComputeBlocking(computation: nat)
                 | GetCachedEvaluation(request: Request<P>) | ClearCache | SetCacheSize(capacity: nat)

  /** The calls so far, in the order in which they took effect. */
  datatype Run<P> = Start(capacity: nat) | Then(before: Run<P>, op: Op<P>)

  /** The cache, and the requests every computation still has to compute. */
  datatype State<P> = State(cache: Cache, pending: map<nat, seq<Request<P>>>)

  function PendingOf<P>(s: State<P>, computation: nat): seq<Request<P>> {
    if computation in s.pending then s.pending[computation] else []
  }

  ghost function Now<P>(w: Backend<P>, run: Run<P>): State<P> {
    match run
    case Start(capacity) => State(Cache(map[], [], capacity), map[])
    case Then(before, op) => After(w, Now(w, before), op)
  }

  ghost function After<P>(w: Backend<P>, s: State<P>, op: Op<P>): State<P> {
    match op
    case AddInput(c, r) =>
      if Fetched(w, s.cache.values, r).Some? then s else s.(pending := s.pending[c := PendingOf(s, c) + [r]])
    case ComputeBlocking(c) => State(InsertedAll(w, s.cache, PendingOf(s, c)), s.pending - {c})
    case GetCachedEvaluation(_) => s
    case ClearCache => s.(cache := Cache(map[], [], s.cache.capacity))
    case SetCacheSize(capacity) => s.(cache := Resized(s.cache, capacity))
  }

  /** An answer handed out. */
  datatype Delivery<P> = Delivery(request: Request<P>, answer: Answer)

  function Computations<P>(w: Backend<P>, rs: seq<Request<P>>): seq<Delivery<P>> {
    if rs == [] then [] else Computations(w, rs[..|rs| - 1]) + [Computation(w, rs[|rs| - 1])]
  }

  function Computation<P>(w: Backend<P>, r: Request<P>): Delivery<P> { Delivery(r, Read(Computed(w, r), r)) }

  lemma {:induction false} FromComputation<P>(w: Backend<P>, rs: seq<Request<P>>, d: Delivery<P>)
    requires d in Computations(w, rs)
    ensures d.request in rs && d == Computation(w, d.request)
  {
    var n := |rs| - 1;
    if d != Computation(w, rs[n]) { FromComputation(w, rs[..n], d); }
  }

  /** The answers a call hands out. */
  function Delivered<P>(w: Backend<P>, s: State<P>, op: Op<P>): seq<Delivery<P>> {
    match op
    case AddInput(_, r) => AtOnce(r, Fetched(w, s.cache.values, r))
    case GetCachedEvaluation(r) => AtOnce(r, Fetched(w, s.cache.values, r))
    case ComputeBlocking(c) => Computations(w, PendingOf(s, c))
    case _ => []
  }

  function AtOnce<P>(r: Request<P>, fetched: Option<Answer>): seq<Delivery<P>> {
    if fetched.Some? then [Delivery(r, fetched.value)] else []
  }

  ghost predicate Right<P>(w: Backend<P>, d: Delivery<P>) { d.answer == Answered(w, d.request) }

  /** Every answer handed out in the run was the backend's. */
  ghost predicate Transparent<P>(w: Backend<P>, run: Run<P>) {
    run.Then? ==>
      && Transparent(w, run.before)
      && forall d | d in Delivered(w, Now(w, run.before), run.op) :: Right(w, d)
  }

  // ---------- when answers may be shared ----------

  /** The run only makes requests of this kind. */
  ghost predicate Makes<P>(run: Run<P>, asked: Request<P> -> bool) {
    run.Then? ==>
      && Makes(run.before, asked)
      && (run.op.AddInput? || run.op.GetCachedEvaluation? ==> asked(run.op.request))
  }

  /** Once computed for the first request, a value is handed out for the second. */
  predicate Shares<P>(w: Backend<P>, first: Request<P>, second: Request<P>) {
    && w.hash(first.position) == w.hash(second.position)
    && (second.moves == [] || (first.moves != [] && |first.moves| % 256 == |second.moves|))
  }

  ghost predicate AgreeOn<P>(w: Backend<P>, asked: Request<P> -> bool, first: Request<P>, second: Request<P>) {
    asked(first) && asked(second) && Shares(w, first, second) ==>
        Read(Computed(w, first), second) == Answered(w, second)
  }

  /** Requests that share a value have the same answer. */
  ghost predicate Agreeing<P(!new)>(w: Backend<P>, asked: Request<P> -> bool) {
    forall first, second :: AgreeOn(w, asked, first, second)
  }

  /** v was computed for some request with this key. */
  ghost predicate Genuine<P(!new)>(w: Backend<P>, asked: Request<P> -> bool, key: nat, v: CachedValue) {
    exists r: Request<P> :: asked(r) && w.hash(r.position) == key && v == Computed(w, r)
  }

  ghost predicate AllGenuine<P(!new)>(w: Backend<P>, asked: Request<P> -> bool, values: map<nat, CachedValue>) {
    forall k | k in values :: Genuine(w, asked, k, values[k])
  }

  lemma InsertedGenuine<P(!new)>(w: Backend<P>, asked: Request<P> -> bool, c: Cache, r: Request<P>)
    requires AllGenuine(w, asked, c.values) && asked(r)
    ensures AllGenuine(w, asked, Inserted(c, w.hash(r.position), Computed(w, r)).values)
  {
    assert Genuine(w, asked, w.hash(r.position), Computed(w, r));
  }

  lemma {:induction false} InsertedAllGenuine<P(!new)>(w: Backend<P>, asked: Request<P> -> bool, c: Cache,
                                                rs: seq<Request<P>>)
    requires AllGenuine(w, asked, c.values) && forall i | 0 <= i < |rs| :: asked(rs[i])
    ensures AllGenuine(w, asked, InsertedAll(w, c, rs).values)
  {
    if rs != [] {
      InsertedAllGenuine(w, asked, c, rs[..|rs| - 1]);
      InsertedGenuine(w, asked, InsertedAll(w, c, rs[..|rs| - 1]), rs[|rs| - 1]);
    }
  }

  ghost predicate PendingAsked<P(!new)>(asked: Request<P> -> bool, s: State<P>) {
    forall c, i | c in s.pending && 0 <= i < |s.pending[c]| :: asked(s.pending[c][i])
  }

  /** In every run, every cached value is what the backend answered to some request with its key. */
  lemma {:induction false} CacheStaysGenuine<P(!new)>(w: Backend<P>, asked: Request<P> -> bool, run: Run<P>)
    requires Makes(run, asked)
    ensures AllGenuine(w, asked, Now(w, run).cache.values) && PendingAsked(asked, Now(w, run))
  {
    if run.Then? {
      CacheStaysGenuine(w, asked, run.before);
      if run.op.ComputeBlocking? {
        var s := Now(w, run.before);
        InsertedAllGenuine(w, asked, s.cache, PendingOf(s, run.op.computation));
      }
    }
  }

  lemma FetchedIsRight<P(!new)>(w: Backend<P>, asked: Request<P> -> bool, values: map<nat, CachedValue>, r: Request<P>)
    requires Fitting(w) && Agreeing(w, asked) && AllGenuine(w, asked, values) && asked(r) && Fetched(w, values, r).Some?
    ensures Fetched(w, values, r).value == Answered(w, r)
  {
    var key := w.hash(r.position);
    assert Genuine(w, asked, key, values[key]);
    var first: Request<P> :| asked(first) && w.hash(first.position) == key && values[key] == Computed(w, first);
    assert AgreeOn(w, asked, first, r);
  }

  lemma ComputedIsRight<P(!new)>(w: Backend<P>, r: Request<P>)
    requires Fitting(w)
    ensures Read(Computed(w, r), r) == Answered(w, r)
  {
    var a := w.eval(r.position, r.moves);
    assert a.policy[..|r.moves|] == a.policy;
  }

  lemma FetchedFits<P(!new)>(w: Backend<P>, asked: Request<P> -> bool, values: map<nat, CachedValue>, r: Request<P>)
    requires Fitting(w) && AllGenuine(w, asked, values) && Fetched(w, values, r).Some? && r.room
    ensures |Fetched(w, values, r).value.policy| == |r.moves|
  {
    assert Genuine(w, asked, w.hash(r.position), values[w.hash(r.position)]);
  }

  /** Whatever the backend, a caller with room gets a number for each move: a value computed without
      the moves is never handed out for a request with moves. */
  lemma PolicyFits<P(!new)>(w: Backend<P>, run: Run<P>, op: Op<P>, d: Delivery<P>)
    requires Fitting(w) && d in Delivered(w, Now(w, run), op) && d.request.room
    ensures |d.answer.policy| == |d.request.moves|
  {
    var s := Now(w, run);
    if op.ComputeBlocking? {
      FromComputation(w, PendingOf(s, op.computation), d);
    } else {
      MakesAny(run);
      CacheStaysGenuine(w, AnyRequest(), run);
      FetchedFits(w, AnyRequest(), s.cache.values, d.request);
    }
  }

  function AnyRequest<P>(): Request<P> -> bool { (r: Request<P>) => true }

  lemma {:induction false} MakesAny<P>(run: Run<P>)
    ensures Makes(run, AnyRequest())
  {
    if run.Then? { MakesAny(run.before); }
  }

  /** If requests that share a value have the same answer, the cache is transparent in every run. */
  lemma {:induction false} StaysTransparent<P(!new)>(w: Backend<P>, asked: Request<P> -> bool, run: Run<P>)
    requires Fitting(w) && Agreeing(w, asked) && Makes(run, asked)
    ensures Transparent(w, run)
  {
    if run.Then? {
      StaysTransparent(w, asked, run.before);
      CacheStaysGenuine(w, asked, run.before);
      var s := Now(w, run.before);
      forall d | d in Delivered(w, s, run.op)
        ensures Right(w, d)
      {
        if run.op.ComputeBlocking? {
          FromComputation(w, PendingOf(s, run.op.computation), d);
          ComputedIsRight(w, d.request);
        } else {
          FetchedIsRight(w, asked, s.cache.values, d.request);
        }
      }
    }
  }

  /** The run that shows two requests sharing a value: one is computed, the other then asked for. */
  function SharingRun<P>(first: Request<P>, second: Request<P>): Run<P> {
    Then(Then(Then(Start(1), AddInput(0, first)), ComputeBlocking(0)), AddInput(1, second))
  }

  lemma SharingRunComputes<P(!new)>(w: Backend<P>, first: Request<P>, second: Request<P>)
    ensures var key, v := w.hash(first.position), Computed(w, first);
            var values := Now(w, SharingRun(first, second).before).cache.values;
            key in values && values[key] == v
  {
    var key, v := w.hash(first.position), Computed(w, first);
    var start: Run<P> := Start(1);
    assert Now(w, start) == State(Cache(map[], [], 1), map[]);
    var added := Now(w, Then(start, AddInput(0, first)));
    assert added == After(w, Now(w, start), AddInput(0, first));
    assert PendingOf(added, 0) == [first];
    assert [first][..0] == [];
    assert InsertedAll(w, added.cache, []) == added.cache;
    assert InsertedAll(w, added.cache, [first]) == Inserted(added.cache, key, v);
    assert Newest([] + [key], 1) == [key];
  }

  lemma SharingRunDelivers<P(!new)>(w: Backend<P>, first: Request<P>, second: Request<P>)
    requires Shares(w, first, second)
    ensures var run := SharingRun(first, second);
            Delivered(w, Now(w, run.before), run.op) == [Delivery(second, Read(Computed(w, first), second))]
  {
    SharingRunComputes(w, first, second);
  }

  lemma SharingRunMakes<P(!new)>(asked: Request<P> -> bool, first: Request<P>, second: Request<P>)
    requires asked(first) && asked(second)
    ensures Makes(SharingRun(first, second), asked)
  {
    var start: Run<P> := Start(1);
    assert Makes(start, asked);
    assert Makes(Then(start, AddInput(0, first)), asked);
    assert Makes(Then(Then(start, AddInput(0, first)), ComputeBlocking(0)), asked);
  }

  lemma SharersAgree<P(!new)>(w: Backend<P>, asked: Request<P> -> bool, first: Request<P>, second: Request<P>)
    requires asked(first) && asked(second) && Transparent(w, SharingRun(first, second))
    ensures AgreeOn(w, asked, first, second)
  {
    if Shares(w, first, second) {
      var run, d := SharingRun(first, second), Delivery(second, Read(Computed(w, first), second));
      SharingRunDelivers(w, first, second);
      assert d in Delivered(w, Now(w, run.before), run.op);
      assert Right(w, d);
    }
  }

  /** The cache is transparent in every run that makes requests of this kind. */
  ghost predicate AlwaysTransparent<P(!new)>(w: Backend<P>, asked: Request<P> -> bool) {
    forall run: Run<P> | Makes(run, asked) :: Transparent(w, run)
  }

  lemma AgreementSuffices<P(!new)>(w: Backend<P>, asked: Request<P> -> bool)
    requires Fitting(w) && Agreeing(w, asked)
    ensures AlwaysTransparent(w, asked)
  {
    forall run: Run<P> | Makes(run, asked)
      ensures Transparent(w, run)
    {
      StaysTransparent(w, asked, run);
    }
  }

  lemma TransparencyNeedsAgreement<P(!new)>(w: Backend<P>, asked: Request<P> -> bool)
    requires AlwaysTransparent(w, asked)
    ensures Agreeing(w, asked)
  {
    forall first: Request<P>, second: Request<P>
      ensures AgreeOn(w, asked, first, second)
    {
      if asked(first) && asked(second) {
        SharingRunMakes(asked, first, second);
        SharersAgree(w, asked, first, second);
      }
    }
  }

  /** The cache is transparent in every run, whatever requests of the kind it makes, if and only if
      requests that share a value have the same answer. */
  lemma TransparentIffAgreeing<P(!new)>(w: Backend<P>, asked: Request<P> -> bool)
    requires Fitting(w)
    ensures AlwaysTransparent(w, asked) <==> Agreeing(w, asked)
  {
    if Agreeing(w, asked) { AgreementSuffices(w, asked); }
    if AlwaysTransparent(w, asked) { TransparencyNeedsAgreement(w, asked); }
  }

  // ---------- evaluations decided by the hash ----------

  /** The hash and the moves decide the evaluation, the three numbers not even depending on the moves. */
  ghost predicate HashDecides<P(!new)>(w: Backend<P>) {
    && (forall p, p', moves {:trigger w.eval(p, moves), w.eval(p', moves)} | w.hash(p) == w.hash(p') ::
          w.eval(p, moves) == w.eval(p', moves))
    && (forall p, moves :: SameNumbers(w.eval(p, moves), w.eval(p, [])))
  }

  predicate SameNumbers(a: Answer, b: Answer) { a.q == b.q && a.d == b.d && a.m == b.m }

  /** Requests pass no moves, or the legal ones, which the hash decides. */
  function LegalOrNone<P>(w: Backend<P>, legal: nat -> seq<Move>): Request<P> -> bool {
    (r: Request<P>) => r.moves == [] || r.moves == legal(w.hash(r.position))
  }

  /** Then the cache is transparent in every run. */
  lemma HashDecidesSuffices<P(!new)>(w: Backend<P>, legal: nat -> seq<Move>, run: Run<P>)
    requires Fitting(w) && HashDecides(w) && Makes(run, LegalOrNone(w, legal))
    ensures Transparent(w, run)
  {
    var asked := LegalOrNone(w, legal);
    forall first, second {:trigger AgreeOn(w, asked, first, second)}
      ensures AgreeOn(w, asked, first, second)
    {
      if asked(first) && asked(second) && Shares(w, first, second) {
        LegalSharersAgree(w, legal, first, second);
      }
    }
    StaysTransparent(w, asked, run);
  }

  lemma LegalSharersAgree<P(!new)>(w: Backend<P>, legal: nat -> seq<Move>, first: Request<P>, second: Request<P>)
    requires Fitting(w) && HashDecides(w) && Shares(w, first, second)
    requires LegalOrNone(w, legal)(first) && LegalOrNone(w, legal)(second)
    ensures Read(Computed(w, first), second) == Answered(w, second)
  {
    var a, b := w.eval(first.position, first.moves), w.eval(second.position, second.moves);
    assert SameNumbers(a, w.eval(first.position, [])) && SameNumbers(b, w.eval(second.position, []));
    assert w.eval(first.position, []) == w.eval(second.position, []);
    if second.moves == [] {
      assert a.policy[..0] == [] && b.policy == [];
    } else {
      assert first.moves == second.moves && a == b;
      assert a.policy[..|second.moves|] == a.policy;
    }
  }

  // ---------- the cache objects ----------

  class MemCache<P(!new)> {
    const wrapped: Backend<P>
    const cache: HashKeyedCache<CachedValue>

    ghost predicate Valid()
      reads this, cache, cache.hash
    {
      cache.Valid() && cache.locks == multiset{}
    }

    ghost function Contents(): Cache
      reads this, cache
    {
      Cache(cache.values, cache.insertionOrder, cache.capacity)
    }

    constructor (wrapped: Backend<P>, size: nat)
      ensures Valid() && fresh(cache) && fresh(cache.hash) && this.wrapped == wrapped
      ensures Contents() == Now(wrapped, Start(size)).cache
    {
      this.wrapped := wrapped;
      cache := new HashKeyedCache(size);
    }

    method GetCachedEvaluation(position: P, moves: seq<Move>) returns (result: Option<Answer>)
      requires Valid()
      modifies cache, cache.hash
      ensures Valid() && cache.hash == old(cache.hash) && Contents() == old(Contents())
      ensures result == Fetched(wrapped, old(cache.values), Request(position, moves, true))
    {
      result := Fetch(Request(position, moves, true));
    }

    /** Pins the value while it is read. */
    method Fetch(r: Request<P>) returns (result: Option<Answer>)
      requires Valid()
      modifies cache, cache.hash
      ensures Valid() && cache.hash == old(cache.hash) && Contents() == old(Contents())
      ensures result == Fetched(wrapped, old(cache.values), r)
    {
      var key := wrapped.hash(r.position);
      var value := cache.LookupAndPin(key);
      if value.None? { return None; }
      result := if Usable(value.value, r) then Some(Read(value.value, r)) else None;
      cache.Unpin(key, value.value);
    }

    method ClearCache()
      requires Valid()
      modifies cache, cache.hash
      ensures Valid() && cache.hash == old(cache.hash) && Contents() == Cache(map[], [], old(cache.capacity))
    {
      cache.Clear();
    }

    method SetCacheSize(size: nat)
      requires Valid()
      modifies cache, cache.hash
      ensures Valid() && (cache.hash == old(cache.hash) || fresh(cache.hash))
      ensures Contents() == Resized(old(Contents()), size)
    {
      cache.SetCapacity(size);
    }

    method Insert(key: nat, value: CachedValue)
      requires Valid()
      modifies cache, cache.hash
      ensures Valid() && cache.hash == old(cache.hash) && Contents() == Inserted(old(Contents()), key, value)
    {
      cache.Insert(key, value);
    }
  }

  class MemCacheComputation<P(!new)> {
    const memcache: MemCache<P>
    var entries: seq<Request<P>>

    constructor (memcache: MemCache<P>)
      ensures this.memcache == memcache && entries == []
    {
      this.memcache := memcache;
      entries := [];
    }

    /** Answers from the cache, or keeps the request for the computation. */
    method AddInput(r: Request<P>) returns (result: Option<Answer>)
      requires memcache.Valid()
      modifies this, memcache.cache, memcache.cache.hash
      ensures memcache.Valid() && memcache.cache.hash == old(memcache.cache.hash)
      ensures memcache.Contents() == old(memcache.Contents())
      ensures result == Fetched(memcache.wrapped, old(memcache.cache.values), r)
      ensures entries == if result.Some? then old(entries) else old(entries) + [r]
    {
      result := memcache.Fetch(r);
      if result.None? { entries := entries + [r]; }
    }

    /** Has the backend answer every request kept, hands the answers out, and caches them. */
    method ComputeBlocking() returns (delivered: seq<Delivery<P>>)
      requires memcache.Valid()
      modifies memcache.cache, memcache.cache.hash
      ensures memcache.Valid() && memcache.cache.hash == old(memcache.cache.hash)
      ensures memcache.Contents() == InsertedAll(memcache.wrapped, old(memcache.Contents()), entries)
      ensures delivered == Computations(memcache.wrapped, entries)
    {
      delivered := [];
      for i := 0 to |entries|
        invariant memcache.Valid() && memcache.cache.hash == old(memcache.cache.hash)
        invariant memcache.Contents() == InsertedAll(memcache.wrapped, old(memcache.Contents()), entries[..i])
        invariant delivered == Computations(memcache.wrapped, entries[..i])
      {
        assert entries[..i + 1][..i] == entries[..i];
        var d := Compute(entries[i]);
        delivered := delivered + [d];
      }
      assert entries[..|entries|] == entries;
    }

    /** One entry of the computation. */
    method Compute(r: Request<P>) returns (delivery: Delivery<P>)
      requires memcache.Valid()
      modifies memcache.cache, memcache.cache.hash
      ensures memcache.Valid() && memcache.cache.hash == old(memcache.cache.hash)
      ensures memcache.Contents()
           == Inserted(old(memcache.Contents()), memcache.wrapped.hash(r.position), Computed(memcache.wrapped, r))
      ensures delivery == Computation(memcache.wrapped, r)
    {
      var value := Computed(memcache.wrapped, r);
      delivery := Delivery(r, Read(value, r));
      memcache.Insert(memcache.wrapped.hash(r.position), value);
    }
  }
}
