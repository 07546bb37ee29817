/** Offer enrichment: one thread per distributor client over a shared cache and history. */
module Enrichment {
  import opened Lists
  import opened Offers

  // ----- clients and stores -----

  /** What asking a portal for one MPN does. */
  datatype Fetched = Answered(offer: Offer) | Raised(reason: string)

  datatype Client = Client(id: string, fetch: string -> Fetched)

  /** A store key: distributor, MPN and, for history, the day of the snapshot. */
  type Key = (string, string, int)

  type Store = map<Key, Offer>

  const SECONDS_PER_DAY := 86400

  function Lookup(store: Store, key: Key): Option<Offer> { if key in store then Some(store[key]) else None }

  function CacheKey(distributor: string, mpn: string): Key { (distributor, mpn, 0) }

  function HistoryKey(o: Offer): Key { (o.distributor, o.mpn, o.refreshedAt / SECONDS_PER_DAY) }

  /** Cached and not past its time to live. */
  function FreshIn(cache: Store, distributor: string, mpn: string, now: int, ttl: int): Option<Offer> {
    var o := Lookup(cache, CacheKey(distributor, mpn));
    if o.Some? && now - o.value.refreshedAt <= ttl then o else None
  }

  /** Error offers are skipped: an outage today must not poison the store. */
  function PutIn(store: Store, key: Key, o: Offer): Store { if o.error.Some? then store else store[key := o] }

  class OfferCache {
    var store: Store
    const ttl: int

    constructor (store: Store, ttl: int)
      ensures this.store == store && this.ttl == ttl
    {
      this.store, this.ttl := store, ttl;
    }

    method Get(distributor: string, mpn: string, now: int) returns (o: Option<Offer>)
      ensures o == FreshIn(store, distributor, mpn, now, ttl)
      ensures o.Some? <==> CacheKey(distributor, mpn) in store && now - store[CacheKey(distributor, mpn)].refreshedAt <= ttl
      ensures o.Some? ==> o.value == store[CacheKey(distributor, mpn)]
    {
      if CacheKey(distributor, mpn) !in store {
        return None;
      }
      var offer := store[CacheKey(distributor, mpn)];
      if now - offer.refreshedAt > ttl {
        return None;
      }
      return Some(offer);
    }

    method Put(o: Offer)
      modifies this`store
      ensures store == PutIn(old(store), CacheKey(o.distributor, o.mpn), o)
    {
      if o.error.None? {
        store := store[CacheKey(o.distributor, o.mpn) := o];
      }
    }
  }

  class OfferHistory {
    var store: Store

    constructor (store: Store)
      ensures this.store == store
    {
      this.store := store;
    }

    method Record(o: Offer)
      modifies this`store
      ensures store == PutIn(old(store), HistoryKey(o), o)
    {
      if o.error.None? {
        store := store[HistoryKey(o) := o];
      }
    }
  }

  // ----- one enrichment -----

  datatype Config = Config(
    clients: seq<Client>, mpns: seq<string>, cache0: Store, history0: Store,
    caching: bool, recording: bool, now: int, ttl: int)
  {
    predicate At(i: nat, k: nat) { i < |clients| && k < |mpns| }

    /** The offer client i makes for MPN k; an unexpected exception becomes an error offer. */
    function Fetch(i: nat, k: nat): Offer
      requires At(i, k)
    {
      match clients[i].fetch(mpns[k])
      case Answered(o) => o
      case Raised(reason) => Offer(mpns[k], clients[i].id, None, Some("unexpected: " + reason), now)
    }

    function Cached(i: nat, k: nat): Option<Offer>
      requires At(i, k)
    {
      if caching then FreshIn(cache0, clients[i].id, mpns[k], now, ttl) else None
    }

    /** The offer an MPN ends with from client i. */
    function Result(i: nat, k: nat): Offer
      requires At(i, k)
    {
      if Cached(i, k).Some? then Cached(i, k).value else Fetch(i, k)
    }

    function Results(i: nat, n: nat): (r: seq<Offer>)
      requires i < |clients| && n <= |mpns|
      ensures |r| == n
    {
      seq(n, k requires 0 <= k < n => Result(i, k))
    }

    /** Clients answer for themselves and for the MPN asked; cached offers sit under their own key; no distributor and no
        MPN is listed twice. */
    ghost predicate WellFormed() {
      && (forall i, j :: 0 <= i < j < |clients| ==> clients[i].id != clients[j].id)
      && (forall i, j :: 0 <= i < j < |mpns| ==> mpns[i] != mpns[j])
      && (forall i: nat, k: nat :: At(i, k) ==> Fetch(i, k).distributor == clients[i].id && Fetch(i, k).mpn == mpns[k])
      && (forall key :: key in cache0 ==> cache0[key].distributor == key.0 && cache0[key].mpn == key.1)
    }
  }

  datatype StoreKind = Cache | History

  function Store0(cfg: Config, kind: StoreKind): Store { if kind == Cache then cfg.cache0 else cfg.history0 }

  function Slot(cfg: Config, kind: StoreKind, i: nat, k: nat): Key
    requires cfg.At(i, k)
  {
    if kind == Cache then CacheKey(cfg.clients[i].id, cfg.mpns[k])
    else (cfg.clients[i].id, cfg.mpns[k], cfg.Fetch(i, k).refreshedAt / SECONDS_PER_DAY)
  }

  /** Whether client i's turn on MPN k writes a store. */
  predicate Writes(cfg: Config, kind: StoreKind, i: nat, k: nat)
    requires cfg.At(i, k)
  {
    (if kind == Cache then cfg.caching else cfg.recording) && cfg.Cached(i, k).None? && cfg.Fetch(i, k).error.None?
  }

  function Written(cfg: Config, kind: StoreKind, store: Store, i: nat, k: nat): Store
    requires cfg.At(i, k)
  {
    if Writes(cfg, kind, i, k) then store[Slot(cfg, kind, i, k) := cfg.Fetch(i, k)] else store
  }

  ghost predicate Counts(cfg: Config, done: seq<nat>) {
    |done| == |cfg.clients| && forall i :: 0 <= i < |done| ==> done[i] <= |cfg.mpns|
  }

  /** Client i has written MPN k here. */
  ghost predicate Wrote(cfg: Config, kind: StoreKind, done: seq<nat>, i: nat, k: nat)
    requires Counts(cfg, done)
  {
    i < |done| && k < done[i] && Writes(cfg, kind, i, k)
  }

  /** A store holds what the clients have written so far and, everywhere else, what it held at the start. */
  ghost predicate StoreIs(cfg: Config, kind: StoreKind, store: Store, done: seq<nat>) {
    && Counts(cfg, done)
    && (forall i, k :: Wrote(cfg, kind, done, i, k) ==> Lookup(store, Slot(cfg, kind, i, k)) == Some(cfg.Fetch(i, k)))
    && (forall key :: Untouched(cfg, kind, done, key) ==> Lookup(store, key) == Lookup(Store0(cfg, kind), key))
  }

  ghost predicate Untouched(cfg: Config, kind: StoreKind, done: seq<nat>, key: Key)
    requires Counts(cfg, done)
  {
    forall i, k :: Wrote(cfg, kind, done, i, k) ==> Slot(cfg, kind, i, k) != key
  }

  /** No two turns, of one client or of two, write the same entry. */
  lemma SlotsApart(cfg: Config, kind: StoreKind, i: nat, k: nat, i': nat, k': nat)
    requires cfg.WellFormed() && cfg.At(i, k) && cfg.At(i', k') && (i != i' || k != k')
    ensures Slot(cfg, kind, i, k) != Slot(cfg, kind, i', k')
  {
    assert cfg.clients[i].id != cfg.clients[i'].id || cfg.mpns[k] != cfg.mpns[k'];
  }

  lemma WroteNext(cfg: Config, kind: StoreKind, done: seq<nat>, i: nat, j: nat, k: nat)
    requires Counts(cfg, done) && i < |done| && done[i] < |cfg.mpns|
    ensures Counts(cfg, done[i := done[i] + 1])
    ensures Wrote(cfg, kind, done[i := done[i] + 1], j, k)
            <==> Wrote(cfg, kind, done, j, k) || (j == i && k == done[i] && Writes(cfg, kind, i, done[i]))
  {
  }

  /** One write, by whoever is next: other clients' entries stay. */
  lemma WriteKeeps(cfg: Config, kind: StoreKind, store: Store, done: seq<nat>, i: nat)
    requires cfg.WellFormed() && StoreIs(cfg, kind, store, done) && i < |done| && done[i] < |cfg.mpns|
    ensures StoreIs(cfg, kind, Written(cfg, kind, store, i, done[i]), done[i := done[i] + 1])
  {
    var k, next := done[i], done[i := done[i] + 1];
    var after, slot := Written(cfg, kind, store, i, k), Slot(cfg, kind, i, k);
    forall a, b | Wrote(cfg, kind, next, a, b) ensures Lookup(after, Slot(cfg, kind, a, b)) == Some(cfg.Fetch(a, b)) {
      WroteNext(cfg, kind, done, i, a, b);
      if Wrote(cfg, kind, done, a, b) {
        SlotsApart(cfg, kind, a, b, i, k);
      }
    }
    forall key | Untouched(cfg, kind, next, key) ensures Lookup(after, key) == Lookup(Store0(cfg, kind), key) {
      UntouchedBefore(cfg, kind, done, i, key);
    }
  }

  lemma UntouchedBefore(cfg: Config, kind: StoreKind, done: seq<nat>, i: nat, key: Key)
    requires Counts(cfg, done) && i < |done| && done[i] < |cfg.mpns|
    requires Counts(cfg, done[i := done[i] + 1]) && Untouched(cfg, kind, done[i := done[i] + 1], key)
    ensures Untouched(cfg, kind, done, key)
    ensures Writes(cfg, kind, i, done[i]) ==> Slot(cfg, kind, i, done[i]) != key
  {
    var next := done[i := done[i] + 1];
    forall a, b | Wrote(cfg, kind, done, a, b) ensures Slot(cfg, kind, a, b) != key {
      WroteNext(cfg, kind, done, i, a, b);
      assert Wrote(cfg, kind, next, a, b);
    }
    WroteNext(cfg, kind, done, i, i, done[i]);
    if Writes(cfg, kind, i, done[i]) {
      assert Wrote(cfg, kind, next, i, done[i]);
    }
  }

  /** Before its own turn, a client sees the cache as it was at the start, whatever the others did meanwhile. */
  lemma SeesStart(cfg: Config, store: Store, done: seq<nat>, i: nat)
    requires cfg.WellFormed() && StoreIs(cfg, Cache, store, done) && i < |done| && done[i] < |cfg.mpns|
    ensures FreshIn(store, cfg.clients[i].id, cfg.mpns[done[i]], cfg.now, cfg.ttl)
         == FreshIn(cfg.cache0, cfg.clients[i].id, cfg.mpns[done[i]], cfg.now, cfg.ttl)
  {
    var key := CacheKey(cfg.clients[i].id, cfg.mpns[done[i]]);
    forall a, b | Wrote(cfg, Cache, done, a, b) ensures Slot(cfg, Cache, a, b) != key {
      SlotsApart(cfg, Cache, a, b, i, done[i]);
    }
    assert Untouched(cfg, Cache, done, key);
  }

  /** Stores are pinned down by what has been written. */
  lemma StoreUnique(cfg: Config, kind: StoreKind, a: Store, b: Store, done: seq<nat>)
    requires StoreIs(cfg, kind, a, done) && StoreIs(cfg, kind, b, done)
    ensures a == b
  {
    forall key ensures Lookup(a, key) == Lookup(b, key) {
      if !Untouched(cfg, kind, done, key) {
        var i, k :| Wrote(cfg, kind, done, i, k) && Slot(cfg, kind, i, k) == key;
        assert Lookup(a, key) == Some(cfg.Fetch(i, k)) == Lookup(b, key);
      }
    }
    forall key ensures key in a <==> key in b {
      assert Lookup(a, key) == Lookup(b, key);
    }
    forall key | key in a ensures a[key] == b[key] {
      assert Lookup(a, key) == Lookup(b, key);
    }
  }

  ghost predicate ErrorFree(store: Store) { forall key :: key in store ==> store[key].error.None? }

  /** No error offer is ever stored. */
  lemma NoErrorStored(cfg: Config, kind: StoreKind, store: Store, done: seq<nat>)
    requires StoreIs(cfg, kind, store, done) && ErrorFree(Store0(cfg, kind))
    ensures ErrorFree(store)
  {
    forall key | key in store ensures store[key].error.None? {
      if Untouched(cfg, kind, done, key) {
        assert Lookup(store, key) == Lookup(Store0(cfg, kind), key);
      } else {
        var i, k :| Wrote(cfg, kind, done, i, k) && Slot(cfg, kind, i, k) == key;
        assert Lookup(store, key) == Some(cfg.Fetch(i, k));
      }
    }
  }

  lemma StartIs(cfg: Config, kind: StoreKind)
    ensures StoreIs(cfg, kind, Store0(cfg, kind), seq(|cfg.clients|, _ => 0))
  {
  }

  // ----- threads -----

  datatype Phase = AtGet | AtFetch | AtPut(offer: Offer) | AtRecord(offer: Offer)

  /** One client's thread: the MPN it is on, what it is about to do, what it has collected. */
  datatype Thread = Thread(next: nat, phase: Phase, results: seq<Offer>)

  datatype State = State(threads: seq<Thread>, cache: Store, history: Store)

  function Start(cfg: Config): State {
    State(seq(|cfg.clients|, _ => Thread(0, AtGet, [])), cfg.cache0, cfg.history0)
  }

  predicate Finished(cfg: Config, t: Thread) { t.next >= |cfg.mpns| }

  /** One atomic step of one thread: look in the cache, ask the portal, write the cache, write the history. */
  function Step(cfg: Config, s: State, i: nat): State
    requires i < |s.threads| == |cfg.clients| && !Finished(cfg, s.threads[i])
  {
    var t, id, mpn := s.threads[i], cfg.clients[i].id, cfg.mpns[s.threads[i].next];
    match t.phase
    case AtGet =>
      var hit := if cfg.caching then FreshIn(s.cache, id, mpn, cfg.now, cfg.ttl) else None;
      s.(threads := s.threads[i := if hit.Some? then Thread(t.next + 1, AtGet, t.results + [hit.value])
                                   else t.(phase := AtFetch)])
    case AtFetch =>
      s.(threads := s.threads[i := t.(phase := AtPut(cfg.Fetch(i, t.next)))])
    case AtPut(o) =>
      s.(cache := if cfg.caching then PutIn(s.cache, CacheKey(o.distributor, o.mpn), o) else s.cache,
         threads := s.threads[i := t.(phase := AtRecord(o))])
    case AtRecord(o) =>
      s.(history := if cfg.recording then PutIn(s.history, HistoryKey(o), o) else s.history,
         threads := s.threads[i := Thread(t.next + 1, AtGet, t.results + [o])])
  }

  /** A schedule names the thread that moves next; naming a finished thread changes nothing. */
  function Run(cfg: Config, schedule: seq<nat>): (s: State)
    ensures |s.threads| == |cfg.clients|
  {
    if schedule == [] then Start(cfg)
    else
      var before, i := Run(cfg, schedule[..|schedule| - 1]), schedule[|schedule| - 1];
      if i < |before.threads| && !Finished(cfg, before.threads[i]) then Step(cfg, before, i) else before
  }

  predicate Complete(cfg: Config, s: State) {
    forall i :: 0 <= i < |s.threads| ==> Finished(cfg, s.threads[i])
  }

  ghost predicate ThreadOk(cfg: Config, i: nat, t: Thread)
    requires i < |cfg.clients|
  {
    && t.next <= |cfg.mpns| && t.results == cfg.Results(i, t.next)
    && (t.phase != AtGet ==> t.next < |cfg.mpns| && cfg.Cached(i, t.next).None?)
    && (t.phase.AtPut? ==> t.phase.offer == cfg.Fetch(i, t.next))
    && (t.phase.AtRecord? ==> t.phase.offer == cfg.Fetch(i, t.next))
  }

  function DoneBy(kind: StoreKind, t: Thread): nat { if kind == Cache && t.phase.AtRecord? then t.next + 1 else t.next }

  function Done(kind: StoreKind, threads: seq<Thread>): (d: seq<nat>)
    ensures |d| == |threads|
  {
    Map((t: Thread) => DoneBy(kind, t), threads)
  }

  /** What every step of every interleaving keeps. */
  ghost predicate Inv(cfg: Config, s: State) {
    && |s.threads| == |cfg.clients|
    && (forall i :: 0 <= i < |s.threads| ==> ThreadOk(cfg, i, s.threads[i]))
    && StoreIs(cfg, Cache, s.cache, Done(Cache, s.threads))
    && StoreIs(cfg, History, s.history, Done(History, s.threads))
  }

  lemma StartInv(cfg: Config)
    ensures Inv(cfg, Start(cfg))
  {
    StartIs(cfg, Cache);
    StartIs(cfg, History);
    assert Done(Cache, Start(cfg).threads) == seq(|cfg.clients|, _ => 0);
    assert Done(History, Start(cfg).threads) == seq(|cfg.clients|, _ => 0);
  }

  lemma ResultsNext(cfg: Config, i: nat, k: nat)
    requires cfg.At(i, k)
    ensures cfg.Results(i, k + 1) == cfg.Results(i, k) + [cfg.Result(i, k)]
  {
  }

  lemma DoneSet(kind: StoreKind, threads: seq<Thread>, i: nat, t: Thread)
    requires i < |threads|
    ensures Done(kind, threads[i := t]) == Done(kind, threads)[i := DoneBy(kind, t)]
  {
  }

  lemma SameCount(d: seq<nat>, i: nat, n: nat)
    requires i < |d| && d[i] == n
    ensures d[i := n] == d
  {
  }

  lemma GetKeeps(cfg: Config, s: State, i: nat)
    requires cfg.WellFormed() && Inv(cfg, s) && i < |s.threads| && !Finished(cfg, s.threads[i]) && s.threads[i].phase == AtGet
    ensures Inv(cfg, Step(cfg, s, i))
  {
    var t := s.threads[i];
    assert ThreadOk(cfg, i, t);
    SeesStart(cfg, s.cache, Done(Cache, s.threads), i);
    ResultsNext(cfg, i, t.next);
    var after := Step(cfg, s, i).threads[i];
    assert ThreadOk(cfg, i, after);
    DoneSet(Cache, s.threads, i, after);
    DoneSet(History, s.threads, i, after);
    if after.phase == AtFetch {
      SameCount(Done(Cache, s.threads), i, t.next);
      SameCount(Done(History, s.threads), i, t.next);
    } else {
      assert cfg.Cached(i, t.next).Some?;
      WriteKeeps(cfg, Cache, s.cache, Done(Cache, s.threads), i);
      WriteKeeps(cfg, History, s.history, Done(History, s.threads), i);
    }
  }

  lemma FetchKeeps(cfg: Config, s: State, i: nat)
    requires Inv(cfg, s) && i < |s.threads| && !Finished(cfg, s.threads[i]) && s.threads[i].phase == AtFetch
    ensures Inv(cfg, Step(cfg, s, i))
  {
    var t := s.threads[i];
    assert ThreadOk(cfg, i, t);
    var after := Step(cfg, s, i).threads[i];
    assert ThreadOk(cfg, i, after);
    DoneSet(Cache, s.threads, i, after);
    DoneSet(History, s.threads, i, after);
    SameCount(Done(Cache, s.threads), i, t.next);
    SameCount(Done(History, s.threads), i, t.next);
  }

  lemma PutWrites(cfg: Config, store: Store, i: nat, k: nat)
    requires cfg.WellFormed() && cfg.At(i, k) && cfg.Cached(i, k).None?
    ensures (if cfg.caching then PutIn(store, CacheKey(cfg.Fetch(i, k).distributor, cfg.Fetch(i, k).mpn), cfg.Fetch(i, k)) else store)
         == Written(cfg, Cache, store, i, k)
    ensures (if cfg.recording then PutIn(store, HistoryKey(cfg.Fetch(i, k)), cfg.Fetch(i, k)) else store)
         == Written(cfg, History, store, i, k)
  {
  }

  lemma PutKeeps(cfg: Config, s: State, i: nat)
    requires cfg.WellFormed() && Inv(cfg, s) && i < |s.threads| && !Finished(cfg, s.threads[i]) && s.threads[i].phase.AtPut?
    ensures Inv(cfg, Step(cfg, s, i))
  {
    var t := s.threads[i];
    assert ThreadOk(cfg, i, t);
    var after := Step(cfg, s, i).threads[i];
    assert ThreadOk(cfg, i, after);
    DoneSet(Cache, s.threads, i, after);
    DoneSet(History, s.threads, i, after);
    SameCount(Done(History, s.threads), i, t.next);
    PutWrites(cfg, s.cache, i, t.next);
    WriteKeeps(cfg, Cache, s.cache, Done(Cache, s.threads), i);
  }

  lemma RecordKeeps(cfg: Config, s: State, i: nat)
    requires cfg.WellFormed() && Inv(cfg, s) && i < |s.threads| && !Finished(cfg, s.threads[i]) && s.threads[i].phase.AtRecord?
    ensures Inv(cfg, Step(cfg, s, i))
  {
    var t := s.threads[i];
    assert ThreadOk(cfg, i, t);
    ResultsNext(cfg, i, t.next);
    var after := Step(cfg, s, i).threads[i];
    assert ThreadOk(cfg, i, after);
    DoneSet(Cache, s.threads, i, after);
    DoneSet(History, s.threads, i, after);
    SameCount(Done(Cache, s.threads), i, t.next + 1);
    PutWrites(cfg, s.history, i, t.next);
    WriteKeeps(cfg, History, s.history, Done(History, s.threads), i);
  }

  lemma StepKeeps(cfg: Config, s: State, i: nat)
    requires cfg.WellFormed() && Inv(cfg, s) && i < |s.threads| && !Finished(cfg, s.threads[i])
    ensures Inv(cfg, Step(cfg, s, i))
  {
    match s.threads[i].phase
    case AtGet => GetKeeps(cfg, s, i);
    case AtFetch => FetchKeeps(cfg, s, i);
    case AtPut(_) => PutKeeps(cfg, s, i);
    case AtRecord(_) => RecordKeeps(cfg, s, i);
  }

  lemma {:induction false} RunKeeps(cfg: Config, schedule: seq<nat>)
    requires cfg.WellFormed()
    ensures Inv(cfg, Run(cfg, schedule))
  {
    if schedule == [] {
      StartInv(cfg);
    } else {
      var init, i := schedule[..|schedule| - 1], schedule[|schedule| - 1];
      RunKeeps(cfg, init);
      var before := Run(cfg, init);
      if i < |before.threads| && !Finished(cfg, before.threads[i]) {
        StepKeeps(cfg, before, i);
      }
    }
  }

  function AllDone(cfg: Config): (d: seq<nat>)
    ensures |d| == |cfg.clients|
  {
    seq(|cfg.clients|, _ => |cfg.mpns|)
  }

  /** Every interleaving that finishes ends with the same offers, in MPN order per client, and the same stores. */
  lemma {:induction false} EveryScheduleAgrees(cfg: Config, schedule: seq<nat>)
    requires cfg.WellFormed() && Complete(cfg, Run(cfg, schedule))
    ensures var s := Run(cfg, schedule);
            && (forall i :: 0 <= i < |cfg.clients| ==> s.threads[i].results == cfg.Results(i, |cfg.mpns|))
            && StoreIs(cfg, Cache, s.cache, AllDone(cfg)) && StoreIs(cfg, History, s.history, AllDone(cfg))
  {
    RunKeeps(cfg, schedule);
    var s := Run(cfg, schedule);
    forall i | 0 <= i < |s.threads| ensures s.threads[i].next == |cfg.mpns| && s.threads[i].phase == AtGet {
      assert ThreadOk(cfg, i, s.threads[i]);
    }
    assert Done(Cache, s.threads) == AllDone(cfg) && Done(History, s.threads) == AllDone(cfg);
    forall i | 0 <= i < |cfg.clients| ensures s.threads[i].results == cfg.Results(i, |cfg.mpns|) {
      assert ThreadOk(cfg, i, s.threads[i]);
    }
  }

  /** The offer a client owes for an MPN: the one cached at the start when it is within its time to live, an hour old or a
      second old alike, else what its portal answers. */
  ghost predicate Owed(cfg: Config, client: Client, mpn: string, offer: Offer) {
    var key := (client.id, mpn, 0);
    offer == if cfg.caching && key in cfg.cache0 && cfg.now - cfg.cache0[key].refreshedAt <= cfg.ttl then cfg.cache0[key]
             else match client.fetch(mpn)
                  case Answered(o) => o
                  case Raised(reason) => Offer(mpn, client.id, None, Some("unexpected: " + reason), cfg.now)
  }

  /** Client i's k-th offer in every finished interleaving. */
  lemma {:induction false} HitsAreExact(cfg: Config, schedule: seq<nat>, i: nat, k: nat)
    requires cfg.WellFormed() && Complete(cfg, Run(cfg, schedule)) && cfg.At(i, k)
    ensures var results := Run(cfg, schedule).threads[i].results;
            |results| == |cfg.mpns| && Owed(cfg, cfg.clients[i], cfg.mpns[k], results[k])
  {
    EveryScheduleAgrees(cfg, schedule);
    assert Run(cfg, schedule).threads[i].results == cfg.Results(i, |cfg.mpns|);
  }

  /** What the stores hold for client i and MPN k in the end: a miss leaves the portal's answer, cached and dated, unless it
      is an error or the store is off; otherwise both keep what they had. */
  lemma {:induction false} StoresAreExact(cfg: Config, schedule: seq<nat>, i: nat, k: nat)
    requires cfg.WellFormed() && Complete(cfg, Run(cfg, schedule)) && cfg.At(i, k)
    ensures var s, offer, key := Run(cfg, schedule), cfg.Fetch(i, k), (cfg.clients[i].id, cfg.mpns[k], 0);
            var day := (cfg.clients[i].id, cfg.mpns[k], offer.refreshedAt / 86400);
            var stored := offer.error.None?
                          && !(cfg.caching && key in cfg.cache0 && cfg.now - cfg.cache0[key].refreshedAt <= cfg.ttl);
            && Lookup(s.cache, key) == (if cfg.caching && stored then Some(offer) else Lookup(cfg.cache0, key))
            && Lookup(s.history, day) == (if cfg.recording && stored then Some(offer) else Lookup(cfg.history0, day))
  {
    EveryScheduleAgrees(cfg, schedule);
    SlotInTheEnd(cfg, Cache, Run(cfg, schedule).cache, i, k);
    SlotInTheEnd(cfg, History, Run(cfg, schedule).history, i, k);
  }

  lemma SlotInTheEnd(cfg: Config, kind: StoreKind, store: Store, i: nat, k: nat)
    requires cfg.WellFormed() && cfg.At(i, k) && StoreIs(cfg, kind, store, AllDone(cfg))
    ensures Lookup(store, Slot(cfg, kind, i, k))
         == if Writes(cfg, kind, i, k) then Some(cfg.Fetch(i, k)) else Lookup(Store0(cfg, kind), Slot(cfg, kind, i, k))
  {
    if Writes(cfg, kind, i, k) {
      assert Wrote(cfg, kind, AllDone(cfg), i, k);
    } else {
      forall a, b | Wrote(cfg, kind, AllDone(cfg), a, b) ensures Slot(cfg, kind, a, b) != Slot(cfg, kind, i, k) {
        SlotsApart(cfg, kind, a, b, i, k);
      }
      assert Untouched(cfg, kind, AllDone(cfg), Slot(cfg, kind, i, k));
    }
  }

  lemma {:induction false} SchedulesAgree(cfg: Config, a: seq<nat>, b: seq<nat>)
    requires cfg.WellFormed() && Complete(cfg, Run(cfg, a)) && Complete(cfg, Run(cfg, b))
    ensures Run(cfg, a).cache == Run(cfg, b).cache && Run(cfg, a).history == Run(cfg, b).history
    ensures forall i :: 0 <= i < |cfg.clients| ==> Run(cfg, a).threads[i].results == Run(cfg, b).threads[i].results
  {
    EveryScheduleAgrees(cfg, a);
    EveryScheduleAgrees(cfg, b);
    StoreUnique(cfg, Cache, Run(cfg, a).cache, Run(cfg, b).cache, AllDone(cfg));
    StoreUnique(cfg, History, Run(cfg, a).history, Run(cfg, b).history, AllDone(cfg));
  }

  /** … and at no moment of any run is an error offer in a store. */
  lemma {:induction false} ErrorsNeverStored(cfg: Config, schedule: seq<nat>)
    requires cfg.WellFormed() && ErrorFree(cfg.cache0) && ErrorFree(cfg.history0)
    ensures ErrorFree(Run(cfg, schedule).cache) && ErrorFree(Run(cfg, schedule).history)
  {
    RunKeeps(cfg, schedule);
    var s := Run(cfg, schedule);
    NoErrorStored(cfg, Cache, s.cache, Done(Cache, s.threads));
    NoErrorStored(cfg, History, s.history, Done(History, s.threads));
  }

  // ----- every run can finish -----

  function PhaseOrder(p: Phase): nat {
    match p case AtGet => 0 case AtFetch => 1 case AtPut(_) => 2 case AtRecord(_) => 3
  }

  /** Steps a thread can still take, at most. */
  function Left(cfg: Config, t: Thread): nat {
    if Finished(cfg, t) then 0 else 4 * (|cfg.mpns| - t.next) - PhaseOrder(t.phase)
  }

  function LeftInAll(cfg: Config, s: State): nat { Sum(Map((t: Thread) => Left(cfg, t), s.threads)) }

  lemma {:induction false} SumSet(ns: seq<nat>, i: nat, n: nat)
    requires i < |ns|
    ensures Sum(ns[i := n]) + ns[i] == Sum(ns) + n
  {
    var last := |ns| - 1;
    if i < last {
      SumSet(ns[..last], i, n);
      assert ns[i := n][..last] == ns[..last][i := n];
    } else {
      assert ns[i := n][..last] == ns[..last];
    }
  }

  /** Every step uses one up, whatever the stores hold: no thread waits for another. */
  lemma StepUsesUp(cfg: Config, s: State, i: nat)
    requires i < |s.threads| == |cfg.clients| && !Finished(cfg, s.threads[i])
    ensures LeftInAll(cfg, Step(cfg, s, i)) < LeftInAll(cfg, s)
  {
    var left := (t: Thread) => Left(cfg, t);
    var t, after := s.threads[i], Step(cfg, s, i).threads[i];
    assert Left(cfg, after) < Left(cfg, t);
    assert Map(left, Step(cfg, s, i).threads) == Map(left, s.threads)[i := Left(cfg, after)];
    SumSet(Map(left, s.threads), i, Left(cfg, after));
  }

  lemma {:induction false} RunSnoc(cfg: Config, schedule: seq<nat>, i: nat)
    requires i < |cfg.clients| && !Finished(cfg, Run(cfg, schedule).threads[i])
    ensures Run(cfg, schedule + [i]) == Step(cfg, Run(cfg, schedule), i)
  {
    assert (schedule + [i])[..|schedule|] == schedule;
  }

  /** From wherever a run stands, moving any unfinished thread again and again finishes it, within the steps left. */
  lemma {:induction false} CanFinish(cfg: Config, schedule: seq<nat>) returns (rest: seq<nat>)
    ensures Complete(cfg, Run(cfg, schedule + rest)) && |rest| <= LeftInAll(cfg, Run(cfg, schedule))
    decreases LeftInAll(cfg, Run(cfg, schedule))
  {
    var s := Run(cfg, schedule);
    if Complete(cfg, s) {
      rest := [];
      assert schedule + [] == schedule;
    } else {
      var i: nat :| i < |s.threads| && !Finished(cfg, s.threads[i]);
      StepUsesUp(cfg, s, i);
      RunSnoc(cfg, schedule, i);
      rest := CanFinish(cfg, schedule + [i]);
      assert schedule + [i] + rest == schedule + ([i] + rest);
      rest := [i] + rest;
    }
  }
}
