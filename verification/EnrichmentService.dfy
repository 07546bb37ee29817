/** The enrichment service's loops, client after client: one legal schedule, proved to end where every schedule ends. */
module EnrichmentService {
  import opened Lists
  import opened Offers
  import opened Enrichment

  ghost function CacheStore(cfg: Config, cache: OfferCache?): Store
    reads cache
  {
    if cache == null then cfg.cache0 else cache.store
  }

  ghost function HistoryStore(cfg: Config, history: OfferHistory?): Store
    reads history
  {
    if history == null then cfg.history0 else history.store
  }

  /** The objects at hand are the configuration's. */
  ghost predicate Serves(cfg: Config, cache: OfferCache?, history: OfferHistory?)
  {
    && (cache != null <==> cfg.caching) && (history != null <==> cfg.recording)
    && (cache != null ==> cache.ttl == cfg.ttl)
  }

  lemma NothingWritten(cfg: Config, kind: StoreKind, store: Store, done: seq<nat>, i: nat)
    requires cfg.WellFormed() && StoreIs(cfg, kind, store, done) && i < |done| && done[i] < |cfg.mpns| && !Writes(cfg, kind, i, done[i])
    ensures StoreIs(cfg, kind, store, done[i := done[i] + 1])
  {
    WriteKeeps(cfg, kind, store, done, i);
  }

  /** One MPN of one client, when the cache has no fresh offer. */
  method FetchOne(client: Client, mpn: string, cache: OfferCache?, history: OfferHistory?, now: int,
                  ghost cfg: Config, ghost i: nat, ghost done: seq<nat>)
    returns (offer: Offer)
    requires cfg.WellFormed() && i < |done| && Counts(cfg, done) && done[i] < |cfg.mpns| && Serves(cfg, cache, history)
    requires client == cfg.clients[i] && mpn == cfg.mpns[done[i]] && now == cfg.now && cfg.Cached(i, done[i]).None?
    requires StoreIs(cfg, Cache, CacheStore(cfg, cache), done) && StoreIs(cfg, History, HistoryStore(cfg, history), done)
    modifies cache, history
    ensures offer == cfg.Fetch(i, done[i])
    ensures StoreIs(cfg, Cache, CacheStore(cfg, cache), done[i := done[i] + 1])
    ensures StoreIs(cfg, History, HistoryStore(cfg, history), done[i := done[i] + 1])
  {
    ghost var cacheWas, historyWas := CacheStore(cfg, cache), HistoryStore(cfg, history);
    match client.fetch(mpn) {
      case Answered(o) => offer := o;
      case Raised(reason) => offer := Offer(mpn, client.id, None, Some("unexpected: " + reason), now);
    }
    PutWrites(cfg, cacheWas, i, done[i]);
    PutWrites(cfg, historyWas, i, done[i]);
    WriteKeeps(cfg, Cache, cacheWas, done, i);
    WriteKeeps(cfg, History, historyWas, done, i);
    if cache != null {
      cache.Put(offer);
    }
    if history != null {
      history.Record(offer);
    }
    assert CacheStore(cfg, cache) == Written(cfg, Cache, cacheWas, i, done[i]);
    assert HistoryStore(cfg, history) == Written(cfg, History, historyWas, i, done[i]);
  }

  /** One MPN of one client: the cached offer when fresh, else a new one. */
  method OfferOf(client: Client, mpn: string, cache: OfferCache?, history: OfferHistory?, now: int,
                 ghost cfg: Config, ghost i: nat, ghost done: seq<nat>)
    returns (offer: Offer)
    requires cfg.WellFormed() && i < |done| && Counts(cfg, done) && done[i] < |cfg.mpns| && Serves(cfg, cache, history)
    requires client == cfg.clients[i] && mpn == cfg.mpns[done[i]] && now == cfg.now
    requires StoreIs(cfg, Cache, CacheStore(cfg, cache), done) && StoreIs(cfg, History, HistoryStore(cfg, history), done)
    modifies cache, history
    ensures offer == cfg.Result(i, done[i])
    ensures StoreIs(cfg, Cache, CacheStore(cfg, cache), done[i := done[i] + 1])
    ensures StoreIs(cfg, History, HistoryStore(cfg, history), done[i := done[i] + 1])
  {
    SeesStart(cfg, CacheStore(cfg, cache), done, i);
    var cached: Option<Offer> := None;
    if cache != null {
      cached := cache.Get(client.id, mpn, now);
    }
    assert cached == cfg.Cached(i, done[i]);
    if cached.Some? {
      NothingWritten(cfg, Cache, CacheStore(cfg, cache), done, i);
      NothingWritten(cfg, History, HistoryStore(cfg, history), done, i);
      return cached.value;
    }
    offer := FetchOne(client, mpn, cache, history, now, cfg, i, done);
  }

  /** _fetch_all_for_client */
  method FetchAllForClient(client: Client, mpns: seq<string>, cache: OfferCache?, history: OfferHistory?, now: int,
                           ghost cfg: Config, ghost i: nat, ghost done0: seq<nat>)
    returns (results: seq<Offer>)
    requires cfg.WellFormed() && i < |done0| && Counts(cfg, done0) && done0[i] == 0 && Serves(cfg, cache, history)
    requires client == cfg.clients[i] && mpns == cfg.mpns && now == cfg.now
    requires StoreIs(cfg, Cache, CacheStore(cfg, cache), done0) && StoreIs(cfg, History, HistoryStore(cfg, history), done0)
    modifies cache, history
    ensures results == cfg.Results(i, |mpns|)
    ensures forall k :: 0 <= k < |mpns| ==> Owed(cfg, client, mpns[k], results[k])
    ensures StoreIs(cfg, Cache, CacheStore(cfg, cache), done0[i := |mpns|])
    ensures StoreIs(cfg, History, HistoryStore(cfg, history), done0[i := |mpns|])
  {
    results := [];
    ghost var done := done0;
    for k := 0 to |mpns|
      invariant DoneUpTo(cfg, done0, i, k, done) && results == cfg.Results(i, k)
      invariant StoreIs(cfg, Cache, CacheStore(cfg, cache), done)
      invariant StoreIs(cfg, History, HistoryStore(cfg, history), done)
    {
      ResultsNext(cfg, i, k);
      var offer := OfferOf(client, mpns[k], cache, history, now, cfg, i, done);
      done := done[i := done[i] + 1];
      results := results + [offer];
    }
  }

  /** Client i has come to MPN k; the others stand as before. */
  ghost predicate DoneUpTo(cfg: Config, done0: seq<nat>, i: nat, k: nat, done: seq<nat>) {
    i < |done| == |done0| && done[i] == k && done == done0[i := k] && Counts(cfg, done)
  }

  // ----- pivot -----

  function IsFor(mpn: string): Offer -> bool { (o: Offer) => o.mpn == mpn }

  /** Offers dealt out by MPN, each MPN's in the order they came. */
  function DealtOut(mpns: seq<string>, offers: seq<Offer>): map<string, seq<Offer>> {
    map mpn | mpn in mpns :: Filter(IsFor(mpn), offers)
  }

  predicate AllListed(mpns: seq<string>, offers: seq<Offer>) { forall i :: 0 <= i < |offers| ==> offers[i].mpn in mpns }

  lemma DealSnoc(mpns: seq<string>, offers: seq<Offer>, o: Offer)
    requires o.mpn in mpns
    ensures o.mpn in DealtOut(mpns, offers)
    ensures DealtOut(mpns, offers + [o]) == DealtOut(mpns, offers)[o.mpn := DealtOut(mpns, offers)[o.mpn] + [o]]
  {
    assert (offers + [o])[..|offers|] == offers;
    var after := DealtOut(mpns, offers)[o.mpn := DealtOut(mpns, offers)[o.mpn] + [o]];
    assert forall mpn :: mpn in mpns ==> DealtOut(mpns, offers + [o])[mpn] == after[mpn];
  }

  /** offers_by_mpn: every client's offers dealt out by MPN; None is the KeyError for an offer of an MPN not asked for. */
  method Pivot(mpns: seq<string>, perClient: seq<seq<Offer>>) returns (dealt: Option<map<string, seq<Offer>>>)
    ensures dealt.Some? <==> AllListed(mpns, Concat(perClient))
    ensures dealt.Some? ==> dealt.value == DealtOut(mpns, Concat(perClient))
  {
    var offers: map<string, seq<Offer>> := map mpn | mpn in mpns :: [];
    for n := 0 to |perClient|
      invariant AllListed(mpns, Concat(perClient[..n])) && offers == DealtOut(mpns, Concat(perClient[..n]))
    {
      ghost var before := Concat(perClient[..n]);
      assert perClient[..n + 1][..n] == perClient[..n] && before + perClient[n][..0] == before;
      for j := 0 to |perClient[n]|
        invariant AllListed(mpns, before + perClient[n][..j]) && offers == DealtOut(mpns, before + perClient[n][..j])
      {
        var offer := perClient[n][j];
        assert before + perClient[n][..j + 1] == before + perClient[n][..j] + [offer];
        if offer.mpn !in offers {
          UnlistedStays(mpns, perClient, n, offer);
          return None;
        }
        DealSnoc(mpns, before + perClient[n][..j], offer);
        offers := offers[offer.mpn := offers[offer.mpn] + [offer]];
      }
      assert perClient[n][..|perClient[n]|] == perClient[n];
    }
    assert perClient[..|perClient|] == perClient;
    dealt := Some(offers);
  }

  lemma {:induction false} UnlistedStays(mpns: seq<string>, perClient: seq<seq<Offer>>, n: nat, o: Offer)
    requires n < |perClient| && o in perClient[n] && o.mpn !in mpns
    ensures !AllListed(mpns, Concat(perClient))
  {
    ConcatMember(perClient, o);
    var i :| 0 <= i < |Concat(perClient)| && Concat(perClient)[i] == o;
  }

  /** Offers of one MPN: exactly one per client, in client order. */
  function OffersFor(cfg: Config, k: nat, n: nat): (r: seq<Offer>)
    requires k < |cfg.mpns| && n <= |cfg.clients|
    ensures |r| == n
  {
    seq(n, i requires 0 <= i < n => cfg.Result(i, k))
  }

  lemma ResultIsOwn(cfg: Config, i: nat, k: nat)
    requires cfg.WellFormed() && cfg.At(i, k)
    ensures cfg.Result(i, k).mpn == cfg.mpns[k] && cfg.Result(i, k).distributor == cfg.clients[i].id
  {
    if cfg.Cached(i, k).Some? {
      assert CacheKey(cfg.clients[i].id, cfg.mpns[k]) in cfg.cache0;
    }
  }

  lemma {:induction false} DealOne(mpn: string, offers: seq<Offer>, o: Offer)
    ensures Filter(IsFor(mpn), offers + [o]) == Filter(IsFor(mpn), offers) + if o.mpn == mpn then [o] else []
  {
    assert (offers + [o])[..|offers|] == offers;
  }

  lemma MpnIs(cfg: Config, i: nat, k: nat, j: nat)
    requires cfg.WellFormed() && cfg.At(i, k) && cfg.At(i, j)
    ensures cfg.Result(i, j).mpn == cfg.mpns[k] <==> j == k
  {
    ResultIsOwn(cfg, i, j);
  }

  lemma {:induction false} OnlyOne(offers: seq<Offer>, mpn: string, k: nat)
    requires forall j :: 0 <= j < |offers| ==> (offers[j].mpn == mpn <==> j == k)
    ensures Filter(IsFor(mpn), offers) == if k < |offers| then [offers[k]] else []
  {
    if offers != [] {
      var init, o := offers[..|offers| - 1], offers[|offers| - 1];
      OnlyOne(init, mpn, k);
      DealOne(mpn, init, o);
      assert offers == init + [o];
    }
  }

  /** Among a client's offers, its own one for MPN k. */
  lemma OneOfMpn(cfg: Config, i: nat, k: nat)
    requires cfg.WellFormed() && cfg.At(i, k)
    ensures Filter(IsFor(cfg.mpns[k]), cfg.Results(i, |cfg.mpns|)) == [cfg.Result(i, k)]
  {
    var own := cfg.Results(i, |cfg.mpns|);
    forall j | 0 <= j < |own| ensures own[j].mpn == cfg.mpns[k] <==> j == k {
      MpnIs(cfg, i, k, j);
    }
    OnlyOne(own, cfg.mpns[k], k);
  }

  function PerClient(cfg: Config, n: nat): (r: seq<seq<Offer>>)
    requires n <= |cfg.clients|
    ensures |r| == n
  {
    seq(n, i requires 0 <= i < n => cfg.Results(i, |cfg.mpns|))
  }

  lemma PerClientNext(cfg: Config, n: nat)
    requires n < |cfg.clients|
    ensures PerClient(cfg, n + 1) == PerClient(cfg, n) + [cfg.Results(n, |cfg.mpns|)]
    ensures Concat(PerClient(cfg, n + 1)) == Concat(PerClient(cfg, n)) + cfg.Results(n, |cfg.mpns|)
  {
    assert PerClient(cfg, n + 1)[..n] == PerClient(cfg, n);
  }

  /** One offer kept of each group: the kept ones, in order. */
  lemma {:induction false} OneOfEach(keep: Offer -> bool, groups: seq<seq<Offer>>, kept: seq<Offer>)
    requires |kept| == |groups| && forall n :: 0 <= n < |groups| ==> Filter(keep, groups[n]) == [kept[n]]
    ensures Filter(keep, Concat(groups)) == kept
  {
    if groups != [] {
      var last := |groups| - 1;
      OneOfEach(keep, groups[..last], kept[..last]);
      FilterAppend(keep, Concat(groups[..last]), groups[last]);
      assert kept == kept[..last] + [kept[last]];
    }
  }

  lemma {:induction false} OffersOfMpn(cfg: Config, k: nat)
    requires cfg.WellFormed() && k < |cfg.mpns|
    ensures Filter(IsFor(cfg.mpns[k]), Concat(PerClient(cfg, |cfg.clients|))) == OffersFor(cfg, k, |cfg.clients|)
  {
    var groups, kept := PerClient(cfg, |cfg.clients|), OffersFor(cfg, k, |cfg.clients|);
    forall n | 0 <= n < |groups| ensures Filter(IsFor(cfg.mpns[k]), groups[n]) == [kept[n]] {
      OneOfMpn(cfg, n, k);
    }
    OneOfEach(IsFor(cfg.mpns[k]), groups, kept);
  }

  lemma {:induction false} ConcatListed(mpns: seq<string>, groups: seq<seq<Offer>>)
    requires forall n :: 0 <= n < |groups| ==> AllListed(mpns, groups[n])
    ensures AllListed(mpns, Concat(groups))
  {
    if groups != [] {
      ConcatListed(mpns, groups[..|groups| - 1]);
    }
  }

  lemma OwnListed(cfg: Config, i: nat)
    requires cfg.WellFormed() && i < |cfg.clients|
    ensures AllListed(cfg.mpns, cfg.Results(i, |cfg.mpns|))
  {
    var own := cfg.Results(i, |cfg.mpns|);
    forall k | 0 <= k < |own| ensures own[k].mpn in cfg.mpns {
      ResultIsOwn(cfg, i, k);
    }
  }

  lemma ResultsListed(cfg: Config)
    requires cfg.WellFormed()
    ensures AllListed(cfg.mpns, Concat(PerClient(cfg, |cfg.clients|)))
  {
    var groups := PerClient(cfg, |cfg.clients|);
    forall n | 0 <= n < |groups| ensures AllListed(cfg.mpns, groups[n]) {
      OwnListed(cfg, n);
    }
    ConcatListed(cfg.mpns, groups);
  }

  /** The first n clients have run to the end, the others not at all. */
  function FirstDone(cfg: Config, n: nat): (d: seq<nat>)
    ensures |d| == |cfg.clients|
  {
    seq(|cfg.clients|, i => if i < n then |cfg.mpns| else 0)
  }

  /** enrich, one client after another. By SchedulesAgree the threads of a pool end with the same offers and stores. */
  method Enrich(clients: seq<Client>, mpns: seq<string>, cache: OfferCache?, history: OfferHistory?, now: int, ghost cfg: Config)
    returns (offers: map<string, seq<Offer>>)
    requires cfg.WellFormed() && Serves(cfg, cache, history) && clients == cfg.clients && mpns == cfg.mpns && now == cfg.now
    requires CacheStore(cfg, cache) == cfg.cache0 && HistoryStore(cfg, history) == cfg.history0
    modifies cache, history
    ensures offers == DealtOut(mpns, Concat(PerClient(cfg, |clients|)))
    ensures StoreIs(cfg, Cache, CacheStore(cfg, cache), AllDone(cfg)) && StoreIs(cfg, History, HistoryStore(cfg, history), AllDone(cfg))
  {
    var perClient: seq<seq<Offer>> := [];
    StartIs(cfg, Cache);
    StartIs(cfg, History);
    assert FirstDone(cfg, 0) == seq(|cfg.clients|, _ => 0);
    for i := 0 to |clients|
      invariant perClient == PerClient(cfg, i)
      invariant StoreIs(cfg, Cache, CacheStore(cfg, cache), FirstDone(cfg, i))
      invariant StoreIs(cfg, History, HistoryStore(cfg, history), FirstDone(cfg, i))
    {
      var results := FetchAllForClient(clients[i], mpns, cache, history, now, cfg, i, FirstDone(cfg, i));
      assert FirstDone(cfg, i)[i := |mpns|] == FirstDone(cfg, i + 1);
      PerClientNext(cfg, i);
      perClient := perClient + [results];
    }
    assert FirstDone(cfg, |clients|) == AllDone(cfg);
    ResultsListed(cfg);
    var dealt := Pivot(mpns, perClient);
    offers := dealt.value;
  }

  /** What the pool's threads return, in client order. */
  function Collected(s: State): seq<seq<Offer>> { Map((t: Thread) => t.results, s.threads) }

  /** Whatever the interleaving, the pivot finds every offer's MPN, and each MPN ends with one offer per client, in client
      order, each its own. */
  lemma {:induction false} OneOfferPerClient(cfg: Config, schedule: seq<nat>)
    requires cfg.WellFormed() && Complete(cfg, Run(cfg, schedule))
    ensures var offers := Concat(Collected(Run(cfg, schedule)));
            && AllListed(cfg.mpns, offers)
            && forall k :: 0 <= k < |cfg.mpns| ==>
                 var own := DealtOut(cfg.mpns, offers)[cfg.mpns[k]];
                 && own == OffersFor(cfg, k, |cfg.clients|)
                 && forall i :: 0 <= i < |own| ==> own[i].mpn == cfg.mpns[k] && own[i].distributor == cfg.clients[i].id
  {
    EveryScheduleAgrees(cfg, schedule);
    assert Collected(Run(cfg, schedule)) == PerClient(cfg, |cfg.clients|);
    ResultsListed(cfg);
    forall k | 0 <= k < |cfg.mpns|
      ensures DealtOut(cfg.mpns, Concat(PerClient(cfg, |cfg.clients|)))[cfg.mpns[k]] == OffersFor(cfg, k, |cfg.clients|)
    {
      OffersOfMpn(cfg, k);
    }
    forall k, i | 0 <= k < |cfg.mpns| && 0 <= i < |cfg.clients|
      ensures OffersFor(cfg, k, |cfg.clients|)[i].mpn == cfg.mpns[k] && OffersFor(cfg, k, |cfg.clients|)[i].distributor == cfg.clients[i].id
    {
      ResultIsOwn(cfg, i, k);
    }
  }
}
