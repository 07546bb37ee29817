/** Jobs: created with a 202, executed once in the background, polled until terminal. */
module Jobs {
  import opened Lists
  import opened Catalog
  import opened ComputeNodes
  import opened GridRules
  import opened Sizing
  import opened Artifacts

  datatype Status = Running | Complete | Failed

  type JobId = nat

  /** A job record; payload, resolution, manifest and preview are pinned when the job is created. */
  datatype JobRecord = JobRecord(
    id: JobId, status: Status, urls: seq<ArtifactRef>, payload: Payload, resolution: Resolved, manifest: Manifest,
    preview: Preview, error: Option<string>)

  /** What polling shows. */
  datatype JobResult = JobResult(status: Status, urls: seq<ArtifactRef>, error: Option<string>)

  function Shown(r: JobRecord): JobResult { JobResult(r.status, r.urls, r.error) }

  /** How a pipeline run ends: an exception anywhere, or a build whose counts are then attached. */
  datatype Outcome = Raised(reason: string) | Built(build: Build)

  const NO_PLATE := "plate has no BOM line"

  /** The record execute writes back: a copy of the one it read, with status and urls or error replaced. */
  function Ended(r: JobRecord, outcome: Outcome): JobRecord {
    match outcome
    case Raised(reason) => r.(status := Failed, error := Some(reason))
    case Built(build) =>
      match WithSummaries(r.urls, build)
      case None => r.(status := Failed, error := Some(NO_PLATE))
      case Some(urls) => r.(status := Complete, urls := urls)
  }

  /** IL: the interconnection level is the server's, except off grid. */
  function PinnedPayload(p: Payload, level: string): Payload {
    if p.grid.path == OffGrid then p else p.(grid := p.grid.(interconnection := Some(level)))
  }

  function LevelOf(preview: Preview, limits: Limits): string {
    if preview.gridPeak <= limits.distributionMw then "distribution" else "transmission"
  }

  function NewRecord(id: JobId, p: Payload, manifest: Manifest, urls: seq<ArtifactRef>, standard: Flex, limits: Limits): JobRecord
    requires p.Valid() && standard.Valid()
  {
    ThreePathsAgree(p, standard, limits);
    var preview := PreviewOf(RequestOf(p), standard, limits);
    PinningIsHarmless(p, LevelOf(preview, limits));
    var pinned := PinnedPayload(p, LevelOf(preview, limits));
    JobRecord(id, Running, urls, pinned, Resolve(pinned), manifest, preview, None)
  }

  /** Overwriting the level keeps the payload valid and changes nothing the order is sized from. */
  lemma PinningIsHarmless(p: Payload, level: string)
    requires p.Valid()
    ensures PinnedPayload(p, level).Valid()
    ensures Resolve(PinnedPayload(p, level)) == Resolve(p).(grid := PinnedPayload(p, level).grid)
    ensures SizingOf(Resolve(PinnedPayload(p, level))) == SizingOf(Resolve(p))
  {
  }

  /** What a new record keeps of an order: the order as placed but for its interconnection level; on the grid that is
      distribution service exactly when the grid peak is within the region's limit, and everything sized from the order is
      sized from what is kept. */
  lemma LevelStored(id: JobId, p: Payload, manifest: Manifest, urls: seq<ArtifactRef>, standard: Flex, limits: Limits)
    returns (gridPeak: real)
    requires p.Valid() && standard.Valid()
    ensures GridCarriesTheRest(SitePeakMw(p.gpu, p.gpus), p.onsite, gridPeak)
    ensures var r := NewRecord(id, p, manifest, urls, standard, limits);
            var level := if gridPeak <= limits.distributionMw then "distribution" else "transmission";
            && r.payload == (if p.grid.path == OffGrid then p else p.(grid := p.grid.(interconnection := Some(level))))
            && r.payload.Valid() && r.resolution == Resolve(r.payload) && r.manifest == manifest && r.preview.gridPeak == gridPeak
  {
    ThreePathsAgree(p, standard, limits);
    PreviewMeans(RequestOf(p), standard, limits);
    gridPeak := PreviewOf(RequestOf(p), standard, limits).gridPeak;
    PinningIsHarmless(p, LevelOf(PreviewOf(RequestOf(p), standard, limits), limits));
  }

  // ----- the store and the service -----

  class JobStore {
    var records: map<JobId, JobRecord>

    constructor ()
      ensures records == map[]
    {
      records := map[];
    }

    method Put(r: JobRecord)
      modifies this
      ensures records == old(records)[r.id := r]
    {
      records := records[r.id := r];
    }

    method Get(id: JobId) returns (r: Option<JobRecord>)
      ensures r == if id in records then Some(records[id]) else None
      ensures r.Some? ==> r.value in records.Values
    {
      if id in records {
        return Some(records[id]);
      }
      return None;
    }
  }

  class JobsService {
    const store: JobStore

    constructor (store: JobStore)
      ensures this.store == store
    {
      this.store := store;
    }

    /** create, once the order is validated: size, resolve, store as RUNNING. */
    method Create(id: JobId, p: Payload, manifest: Manifest, urls: seq<ArtifactRef>, standard: Flex, limits: Limits)
      returns (created: seq<ArtifactRef>)
      requires p.Valid() && standard.Valid()
      modifies store
      ensures created == urls
      ensures store.records == old(store.records)[id := NewRecord(id, p, manifest, urls, standard, limits)]
    {
      ThreePathsAgree(p, standard, limits);
      var preview := PreviewOf(RequestOf(p), standard, limits);
      var pinned := p;
      if p.grid.path != OffGrid {
        pinned := p.(grid := p.grid.(interconnection := Some(LevelOf(preview, limits))));
      }
      PinningIsHarmless(p, LevelOf(preview, limits));
      store.Put(JobRecord(id, Running, urls, pinned, Resolve(pinned), manifest, preview, None));
      created := urls;
    }

    /** execute, up to the pipeline run: the record as it is read. */
    method BeginExecute(id: JobId) returns (r: Option<JobRecord>)
      ensures r == if id in store.records then Some(store.records[id]) else None
    {
      r := store.Get(id);
    }

    /** execute, after the pipeline run. */
    method EndExecute(r: JobRecord, outcome: Outcome)
      modifies store
      ensures store.records == old(store.records)[r.id := Ended(r, outcome)]
    {
      match outcome {
        case Raised(reason) =>
          store.Put(r.(status := Failed, error := Some(reason)));
        case Built(build) =>
          var urls := Summarize(r.urls, build);
          if urls.None? {
            store.Put(r.(status := Failed, error := Some(NO_PLATE)));
          } else {
            store.Put(r.(status := Complete, urls := urls.value));
          }
      }
    }

    method Poll(id: JobId) returns (result: Option<JobResult>)
      ensures result == if id in store.records then Some(Shown(store.records[id])) else None
    {
      var r := store.Get(id);
      result := if r.Some? then Some(Shown(r.value)) else None;
    }
  }

  // ----- every interleaving -----

  /** Requests and background work, in the order they reach the store. */
  datatype Event =
    | Create(record: JobRecord)                     // id fresh (uuid4); execute is scheduled with the 202
    | Begin(id: JobId)                              // the background task reads the record
    | End(id: JobId, outcome: Outcome)              // … and writes it back once the pipeline is through
    | Poll(id: JobId)

  /** `promised` remembers what create stored and returned; `running` holds what each execute read. */
  datatype State = State(
    records: map<JobId, JobRecord>, promised: map<JobId, JobRecord>, scheduled: set<JobId>, running: map<JobId, JobRecord>)

  const START := State(map[], map[], {}, map[])

  /** What can happen next: fresh ids, one execute per created job. */
  predicate Possible(s: State, e: Event) {
    match e
    case Create(r) => r.id !in s.records && r.status == Running && r.error == None
    case Begin(id) => id in s.scheduled
    case End(id, _) => id in s.running
    case Poll(_) => true
  }

  function Apply(s: State, e: Event): State {
    match e
    case Create(r) =>
      s.(records := s.records[r.id := r], promised := s.promised[r.id := r], scheduled := s.scheduled + {r.id})
    case Begin(id) =>
      if id in s.records then s.(scheduled := s.scheduled - {id}, running := s.running[id := s.records[id]])
      else s.(scheduled := s.scheduled - {id})
    case End(id, outcome) =>
      if id in s.running
      then s.(records := s.records[s.running[id].id := Ended(s.running[id], outcome)], running := s.running - {id})
      else s
    case Poll(_) => s
  }

  /** Events that cannot happen are skipped. */
  function RunOf(events: seq<Event>): State {
    if events == [] then START
    else
      var s, e := RunOf(events[..|events| - 1]), events[|events| - 1];
      if Possible(s, e) then Apply(s, e) else s
  }

  /** A record still says what create pinned and promised. */
  ghost predicate Keeps(r: JobRecord, promised: JobRecord) {
    && r.id == promised.id && r.payload == promised.payload && r.resolution == promised.resolution
    && r.manifest == promised.manifest && r.preview == promised.preview
    && Promised(r.urls) == Promised(promised.urls)
    && (r.status == Failed <==> r.error.Some?)
  }

  /** One job, at any moment: RUNNING until its one execute ends, pinned and promised fields untouched throughout. */
  ghost predicate JobOk(s: State, id: JobId) {
    && (id in s.records <==> id in s.promised)
    && (id in s.scheduled ==> id in s.records && id !in s.running)
    && (id in s.running ==> id in s.records && s.running[id] == s.records[id])
    && (id in s.records ==>
          && s.promised[id].id == id && Keeps(s.records[id], s.promised[id])
          && (s.records[id].status == Running <==> id in s.scheduled || id in s.running))
  }

  ghost predicate Inv(s: State) { forall id :: JobOk(s, id) }

  lemma EndKeeps(r: JobRecord, promised: JobRecord, outcome: Outcome)
    requires Keeps(r, promised) && r.status == Running
    ensures Keeps(Ended(r, outcome), promised) && Ended(r, outcome).status != Running
  {
    assert outcome.Built? && WithSummaries(r.urls, outcome.build).Some? ==>
             Promised(WithSummaries(r.urls, outcome.build).value) == Promised(r.urls);
  }

  lemma ApplyKeepsJob(s: State, e: Event, id: JobId)
    requires Inv(s) && Possible(s, e)
    ensures JobOk(Apply(s, e), id)
  {
    assert JobOk(s, id);
    match e
    case Create(r) => assert JobOk(s, r.id);
    case Begin(b) => assert JobOk(s, b);
    case End(b, outcome) =>
      assert JobOk(s, b);
      EndKeeps(s.running[b], s.promised[b], outcome);
    case Poll(_) =>
  }

  lemma ApplyKeeps(s: State, e: Event)
    requires Inv(s) && Possible(s, e)
    ensures Inv(Apply(s, e))
  {
    forall id ensures JobOk(Apply(s, e), id) {
      ApplyKeepsJob(s, e, id);
    }
  }

  lemma {:induction false} RunKeeps(events: seq<Event>)
    ensures Inv(RunOf(events))
  {
    if events != [] {
      var init, e := events[..|events| - 1], events[|events| - 1];
      RunKeeps(init);
      if Possible(RunOf(init), e) {
        ApplyKeeps(RunOf(init), e);
      }
    }
  }

  /** No step touches a finished job, or what was promised of any job. */
  lemma StepKeepsFinished(s: State, e: Event, id: JobId)
    requires Inv(s) && Possible(s, e) && id in s.records
    ensures id in s.promised && id in Apply(s, e).promised && Apply(s, e).promised[id] == s.promised[id]
    ensures id in Apply(s, e).records
    ensures s.records[id].status != Running ==> Apply(s, e).records[id] == s.records[id]
  {
    assert JobOk(s, id);
    if e.End? {
      assert JobOk(s, e.id);
    }
  }

  lemma {:induction false} RunSnoc(events: seq<Event>, e: Event)
    ensures RunOf(events + [e]) == if Possible(RunOf(events), e) then Apply(RunOf(events), e) else RunOf(events)
  {
    assert (events + [e])[..|events|] == events;
  }

  /** Once terminal, forever terminal: whatever happens later, polling keeps showing the same result. */
  lemma {:induction false} TerminalStays(events: seq<Event>, later: seq<Event>, id: JobId)
    requires id in RunOf(events).records
    ensures id in RunOf(events).promised && id in RunOf(events + later).promised
    ensures RunOf(events + later).promised[id] == RunOf(events).promised[id]
    ensures id in RunOf(events + later).records
    ensures RunOf(events).records[id].status != Running ==> RunOf(events + later).records[id] == RunOf(events).records[id]
  {
    RunKeeps(events);
    assert JobOk(RunOf(events), id);
    if later == [] {
      assert events + later == events;
    } else {
      var init, e := later[..|later| - 1], later[|later| - 1];
      assert events + later == (events + init) + [e];
      TerminalStays(events, init, id);
      RunSnoc(events + init, e);
      RunKeeps(events + init);
      if Possible(RunOf(events + init), e) {
        StepKeepsFinished(RunOf(events + init), e, id);
      }
    }
  }

  /** Job safety over every run: a job is known exactly from its create on; it is RUNNING until its execute ends and
      terminal after; an error is shown iff it FAILED; and payload, resolution, manifest and the artifact list are the ones
      of the 202. */
  lemma {:induction false} JobsAreSafe(events: seq<Event>, id: JobId)
    ensures var s := RunOf(events);
            && (id in s.records <==> id in s.promised)
            && (id in s.records ==>
                  var r, promised := s.records[id], s.promised[id];
                  && (r.status == Running <==> id in s.scheduled || id in s.running)
                  && (Shown(r).error.Some? <==> Shown(r).status == Failed)
                  && r.payload == promised.payload && r.resolution == promised.resolution && r.manifest == promised.manifest
                  && Promised(Shown(r).urls) == Promised(promised.urls))
  {
    RunKeeps(events);
    assert JobOk(RunOf(events), id);
  }

  /** The service's methods are these steps: Create stores the record of a Create event. */
  lemma CreateIsAStep(s: State, id: JobId, p: Payload, manifest: Manifest, urls: seq<ArtifactRef>, standard: Flex, limits: Limits)
    requires p.Valid() && standard.Valid() && id !in s.records
    ensures var r := NewRecord(id, p, manifest, urls, standard, limits);
            && Possible(s, Create(r)) && Apply(s, Create(r)).records == s.records[id := r]
            && r.payload.Valid() && r.resolution == Resolve(r.payload)
  {
    ThreePathsAgree(p, standard, limits);
    PinningIsHarmless(p, LevelOf(PreviewOf(RequestOf(p), standard, limits), limits));
  }

  /** BeginExecute's read always finds the job, RUNNING: execute's unknown-job branch is never taken. */
  lemma {:induction false} BeginIsAStep(events: seq<Event>, id: JobId)
    requires Possible(RunOf(events), Begin(id))
    ensures var s := RunOf(events);
            && id in s.records && s.records[id].status == Running
            && Apply(s, Begin(id)) == s.(scheduled := s.scheduled - {id}, running := s.running[id := s.records[id]])
  {
    RunKeeps(events);
    assert JobOk(RunOf(events), id);
  }

  /** EndExecute writes back the copy BeginExecute read; nothing changed the stored record in between, so no update is lost. */
  lemma {:induction false} EndIsAStep(events: seq<Event>, id: JobId, outcome: Outcome)
    requires Possible(RunOf(events), End(id, outcome))
    ensures var s := RunOf(events);
            && s.running[id].id == id && id in s.records && s.running[id] == s.records[id]
            && Apply(s, End(id, outcome)).records == s.records[id := Ended(s.records[id], outcome)]
  {
    RunKeeps(events);
    assert JobOk(RunOf(events), id);
  }

  /** Poll leaves no trace: a run goes on as if it had not happened. */
  lemma {:induction false} PollLeavesNoTrace(events: seq<Event>, id: JobId, later: seq<Event>)
    ensures RunOf(events + [Poll(id)] + later) == RunOf(events + later)
  {
    if later == [] {
      assert events + [Poll(id)] + later == events + [Poll(id)] && events + later == events;
      RunSnoc(events, Poll(id));
    } else {
      var init, e := later[..|later| - 1], later[|later| - 1];
      assert events + [Poll(id)] + later == (events + [Poll(id)] + init) + [e] && events + later == (events + init) + [e];
      PollLeavesNoTrace(events, id, init);
      RunSnoc(events + [Poll(id)] + init, e);
      RunSnoc(events + init, e);
    }
  }
}
