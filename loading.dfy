/** The load systems: `move_to_loading` turns every `LoadElements` request
    into a job entity whose task runs `load_or_empty`, and
    `execute_elements_loading` polls the jobs in order, spawning one
    satellite per record of every finished job, sending one `LoadedElements`
    per finished job and despawning it, while jobs still running stay. */
module Loading {
  import opened Wrappers
  import opened Components
  import opened Client

  /** `move_to_loading`: one job entity per request, in order, each with a
      task still running. */
  method MoveToLoading(w: World, requests: seq<LoadElements>)
    requires w.Valid()
    modifies w
    ensures w.Valid()
    ensures w.satellites == old(w.satellites)
    ensures w.nextEntity == old(w.nextEntity) + |requests|
    ensures |w.jobs| == |old(w.jobs)| + |requests|
    ensures w.jobs[..|old(w.jobs)|] == old(w.jobs)
    ensures forall i :: 0 <= i < |requests| ==>
      w.jobs[|old(w.jobs)| + i] == Job(old(w.nextEntity) + i, requests[i], None)
  {
    ghost var j0 := w.jobs;
    var i := 0;
    while i < |requests|
      invariant 0 <= i <= |requests|
      invariant w.Valid()
      invariant w.satellites == old(w.satellites)
      invariant w.nextEntity == old(w.nextEntity) + i
      invariant |w.jobs| == |j0| + i && w.jobs[..|j0|] == j0
      invariant forall k :: 0 <= k < i ==> w.jobs[|j0| + k] == Job(old(w.nextEntity) + k, requests[k], None)
    {
      var e := w.nextEntity;
      w.jobs := w.jobs + [Job(e, requests[i], None)];
      w.nextEntity := e + 1;
      i := i + 1;
    }
  }

  /** The spawned task finishing: the still running job at `index` now
      yields `load_or_empty` of what `load`, the `EpochDataLoader` clone
      the task owns, returns for the job's own group and format. */
  method CompleteLoadTask<E>(w: World, index: nat, load: (string, string) -> Result<OrbitalData, E>)
    requires w.Valid() && index < |w.jobs| && w.jobs[index].task.None?
    modifies w
    ensures w.Valid()
    ensures w.satellites == old(w.satellites) && w.nextEntity == old(w.nextEntity)
    ensures var request := old(w.jobs)[index].request;
      w.jobs == old(w.jobs)[index := old(w.jobs)[index].(task := Some(LoadOrEmpty(load(request.group, request.format))))]
  {
    var request := w.jobs[index].request;
    var records := LoadOrEmpty(load(request.group, request.format));
    w.jobs := w.jobs[index := w.jobs[index].(task := Some(records))];
  }

  /** The same task when the loader is the `DefaultClient`: the job's group
      and format go through the shared cache, and a failed fetch leaves the
      job with no records. */
  method CompleteDefaultLoad(w: World, index: nat, client: DefaultClient, net: Network)
    requires w.Valid() && index < |w.jobs| && w.jobs[index].task.None?
    modifies w, client
    ensures w.Valid()
    ensures w.satellites == old(w.satellites) && w.nextEntity == old(w.nextEntity)
    ensures var request := old(w.jobs)[index].request;
      var step := CacheLoad(old(client.cache), request.group, request.format, net);
      && w.jobs == old(w.jobs)[index := old(w.jobs)[index].(task := Some(LoadOrEmpty(step.result)))]
      && client.cache == step.cache
  {
    var request := w.jobs[index].request;
    var loaded := client.Load(request.group, request.format, net);
    w.jobs := w.jobs[index := w.jobs[index].(task := Some(LoadOrEmpty(loaded)))];
  }

  /** The entities `start`, `start + 1`, ..., `start + n - 1`. */
  function Fresh(start: Entity, n: nat): (r: seq<Entity>)
    ensures |r| == n && forall k :: 0 <= k < n ==> r[k] == start + k
  {
    seq(n, k requires 0 <= k < n => start + k)
  }

  /** The satellites spawned for the records `data`, from the entity
      `start` on. */
  function Spawn(data: OrbitalData, start: Entity, semiMajorAxis: real -> real): (r: seq<Satellite>)
    ensures |r| == |data| && forall k :: 0 <= k < |data| ==> r[k] == NewSatellite(start + k, data[k], semiMajorAxis)
  {
    seq(|data|, k requires 0 <= k < |data| => NewSatellite(start + k, data[k], semiMajorAxis))
  }

  /** What polling the jobs leaves: the jobs still running, the satellites
      spawned, the `LoadedElements` sent, and the next free entity. */
  datatype LoadingOutcome = LoadingOutcome(
    pending: seq<Job>,
    spawned: seq<Satellite>,
    loaded: seq<LoadedElements>,
    next: Entity)

  /** Polling one job. */
  function PollJob(o: LoadingOutcome, job: Job, semiMajorAxis: real -> real): LoadingOutcome {
    match job.task
    case None => o.(pending := o.pending + [job])
    case Some(data) =>
      LoadingOutcome(
        o.pending,
        o.spawned + Spawn(data, o.next, semiMajorAxis),
        o.loaded + [LoadedElements(Fresh(o.next, |data|), data)],
        o.next + |data|)
  }

  /** Polling the jobs in query order, from the free entity `next`. */
  function Loading(jobs: seq<Job>, next: Entity, semiMajorAxis: real -> real): LoadingOutcome
    decreases |jobs|
  {
    if jobs == [] then LoadingOutcome([], [], [], next)
    else PollJob(Loading(jobs[..|jobs| - 1], next, semiMajorAxis), jobs[|jobs| - 1], semiMajorAxis)
  }

  /** The jobs whose task is still running, in order. */
  function Running(jobs: seq<Job>): seq<Job>
    decreases |jobs|
  {
    if jobs == [] then []
    else Running(jobs[..|jobs| - 1]) + (if jobs[|jobs| - 1].task.None? then [jobs[|jobs| - 1]] else [])
  }

  /** The records of the finished jobs, one list per job, in order. */
  function Finished(jobs: seq<Job>): seq<OrbitalData>
    decreases |jobs|
  {
    if jobs == [] then []
    else Finished(jobs[..|jobs| - 1]) + (if jobs[|jobs| - 1].task.Some? then [jobs[|jobs| - 1].task.value] else [])
  }

  function Concat(lists: seq<OrbitalData>): OrbitalData
    decreases |lists|
  {
    if lists == [] then [] else Concat(lists[..|lists| - 1]) + lists[|lists| - 1]
  }

  /** The entities of the `LoadedElements` events, in order. */
  function SentEntities(loaded: seq<LoadedElements>): seq<Entity>
    decreases |loaded|
  {
    if loaded == [] then [] else SentEntities(loaded[..|loaded| - 1]) + loaded[|loaded| - 1].entities
  }

  lemma SpawnAppend(a: OrbitalData, b: OrbitalData, start: Entity, semiMajorAxis: real -> real)
    ensures Spawn(a + b, start, semiMajorAxis) == Spawn(a, start, semiMajorAxis) + Spawn(b, start + |a|, semiMajorAxis)
  {
  }

  lemma FreshAppend(start: Entity, m: nat, n: nat)
    ensures Fresh(start, m + n) == Fresh(start, m) + Fresh(start + m, n)
  {
  }

  /** Every job is either still running or finished, never both. */
  lemma {:induction false} RunningOrFinished(jobs: seq<Job>)
    ensures |Running(jobs)| + |Finished(jobs)| == |jobs|
    decreases |jobs|
  {
    if jobs != [] {
      RunningOrFinished(jobs[..|jobs| - 1]);
    }
  }

  /** The jobs still running stay, unchanged and in order. */
  lemma {:induction false} LoadingKeepsRunning(jobs: seq<Job>, next: Entity, semiMajorAxis: real -> real)
    ensures Loading(jobs, next, semiMajorAxis).pending == Running(jobs)
    decreases |jobs|
  {
    if jobs != [] {
      LoadingKeepsRunning(jobs[..|jobs| - 1], next, semiMajorAxis);
    }
  }

  /** Every finished job sends one `LoadedElements` carrying its records,
      in order, with as many entities as records. */
  lemma {:induction false} LoadingReportsFinished(jobs: seq<Job>, next: Entity, semiMajorAxis: real -> real)
    ensures var o := Loading(jobs, next, semiMajorAxis);
      && |o.loaded| == |Finished(jobs)|
      && forall k :: 0 <= k < |o.loaded| ==>
           o.loaded[k].data == Finished(jobs)[k] && |o.loaded[k].entities| == |o.loaded[k].data|
    decreases |jobs|
  {
    if jobs != [] {
      LoadingReportsFinished(jobs[..|jobs| - 1], next, semiMajorAxis);
    }
  }

  /** The satellites spawned are one fresh `PropagatableSattelite` per
      record of the finished jobs, numbered consecutively from `next`. */
  lemma {:induction false} LoadingSpawnsRecords(jobs: seq<Job>, next: Entity, semiMajorAxis: real -> real)
    ensures var o := Loading(jobs, next, semiMajorAxis);
      && o.next == next + |Concat(Finished(jobs))|
      && o.spawned == Spawn(Concat(Finished(jobs)), next, semiMajorAxis)
    decreases |jobs|
  {
    if jobs != [] {
      var init := jobs[..|jobs| - 1];
      var job := jobs[|jobs| - 1];
      LoadingSpawnsRecords(init, next, semiMajorAxis);
      if job.task.Some? {
        var records := Concat(Finished(init));
        var data := job.task.value;
        assert Finished(jobs) == Finished(init) + [data];
        assert Finished(jobs)[..|Finished(jobs)| - 1] == Finished(init);
        assert Concat(Finished(jobs)) == records + data;
        SpawnAppend(records, data, next, semiMajorAxis);
      } else {
        assert Finished(jobs) == Finished(init) + [];
        assert Finished(jobs) == Finished(init);
      }
    }
  }

  /** The events name exactly the spawned entities, in spawn order. */
  lemma {:induction false} LoadingNamesSpawned(jobs: seq<Job>, next: Entity, semiMajorAxis: real -> real)
    ensures SentEntities(Loading(jobs, next, semiMajorAxis).loaded) == Fresh(next, |Concat(Finished(jobs))|)
    decreases |jobs|
  {
    if jobs != [] {
      var init := jobs[..|jobs| - 1];
      var job := jobs[|jobs| - 1];
      LoadingNamesSpawned(init, next, semiMajorAxis);
      LoadingSpawnsRecords(init, next, semiMajorAxis);
      if job.task.Some? {
        var o := Loading(init, next, semiMajorAxis);
        var records := Concat(Finished(init));
        var data := job.task.value;
        assert Finished(jobs) == Finished(init) + [data];
        assert Finished(jobs)[..|Finished(jobs)| - 1] == Finished(init);
        assert Concat(Finished(jobs)) == records + data;
        FreshAppend(next, |records|, |data|);
        var loaded := Loading(jobs, next, semiMajorAxis).loaded;
        assert loaded == o.loaded + [LoadedElements(Fresh(o.next, |data|), data)];
        assert loaded[..|loaded| - 1] == o.loaded;
      } else {
        assert Finished(jobs) == Finished(init) + [];
        assert Finished(jobs) == Finished(init);
      }
    }
  }

  lemma LoadingStep(jobs: seq<Job>, i: nat, next: Entity, semiMajorAxis: real -> real)
    requires i < |jobs|
    ensures Loading(jobs[..i + 1], next, semiMajorAxis) == PollJob(Loading(jobs[..i], next, semiMajorAxis), jobs[i], semiMajorAxis)
  {
    assert jobs[..i + 1][..i] == jobs[..i];
  }

  /** The satellites of a world stay distinct entities below `next` when a
      fresh entity `next` is appended. */
  lemma AppendFresh(sats: seq<Satellite>, s: Satellite, next: Entity)
    requires Distinct(SatelliteIds(sats))
    requires forall k :: 0 <= k < |sats| ==> sats[k].entity < next
    requires s.entity == next
    ensures Distinct(SatelliteIds(sats + [s]))
    ensures forall k :: 0 <= k < |sats + [s]| ==> (sats + [s])[k].entity < next + 1
  {
    var ids := SatelliteIds(sats + [s]);
    forall i, j | 0 <= i < j < |ids| ensures ids[i] != ids[j] {
      if j < |sats| {
        assert ids[i] == SatelliteIds(sats)[i] && ids[j] == SatelliteIds(sats)[j];
      }
    }
  }

  /** The `map` over a finished job's records: one `commands.spawn` of a
      fresh `PropagatableSattelite` per record, collecting the new ids. */
  method SpawnRecords(w: World, data: OrbitalData, semiMajorAxis: real -> real) returns (entities: seq<Entity>)
    requires Distinct(SatelliteIds(w.satellites))
    requires forall j :: 0 <= j < |w.satellites| ==> w.satellites[j].entity < w.nextEntity
    modifies w
    ensures Distinct(SatelliteIds(w.satellites))
    ensures forall j :: 0 <= j < |w.satellites| ==> w.satellites[j].entity < w.nextEntity
    ensures w.jobs == old(w.jobs)
    ensures w.satellites == old(w.satellites) + Spawn(data, old(w.nextEntity), semiMajorAxis)
    ensures w.nextEntity == old(w.nextEntity) + |data|
    ensures entities == Fresh(old(w.nextEntity), |data|)
  {
    ghost var sats0 := w.satellites;
    var start := w.nextEntity;
    entities := [];
    var k := 0;
    while k < |data|
      invariant 0 <= k <= |data| && w.jobs == old(w.jobs)
      invariant w.satellites == sats0 + Spawn(data[..k], start, semiMajorAxis)
      invariant w.nextEntity == start + k
      invariant entities == Fresh(start, k)
      invariant Distinct(SatelliteIds(w.satellites))
      invariant forall j :: 0 <= j < |w.satellites| ==> w.satellites[j].entity < w.nextEntity
    {
      var e := w.nextEntity;
      var s := NewSatellite(e, data[k], semiMajorAxis);
      AppendFresh(w.satellites, s, e);
      SpawnAppend(data[..k], [data[k]], start, semiMajorAxis);
      assert data[..k + 1] == data[..k] + [data[k]];
      w.satellites := w.satellites + [s];
      w.nextEntity := e + 1;
      entities := entities + [e];
      k := k + 1;
    }
    assert data[..k] == data;
  }

  /** `execute_elements_loading`: every job polled once, in order. The
      despawns of the finished jobs are commands, applied after the loop. */
  method ExecuteElementsLoading(w: World, semiMajorAxis: real -> real) returns (loaded: seq<LoadedElements>)
    requires w.Valid()
    modifies w
    ensures w.Valid()
    ensures var o := Loading(old(w.jobs), old(w.nextEntity), semiMajorAxis);
      && w.jobs == o.pending
      && w.satellites == old(w.satellites) + o.spawned
      && w.nextEntity == o.next
      && loaded == o.loaded
  {
    var jobs := w.jobs;
    ghost var s0 := w.satellites;
    ghost var n0 := w.nextEntity;
    ghost var o := LoadingOutcome([], [], [], n0);
    var remaining := [];
    loaded := [];
    var i := 0;
    while i < |jobs|
      invariant 0 <= i <= |jobs| && w.jobs == jobs
      invariant o == Loading(jobs[..i], n0, semiMajorAxis)
      invariant remaining == o.pending && loaded == o.loaded
      invariant w.satellites == s0 + o.spawned && w.nextEntity == o.next
      invariant n0 <= w.nextEntity
      invariant Distinct(SatelliteIds(w.satellites))
      invariant forall k :: 0 <= k < |w.satellites| ==> w.satellites[k].entity < w.nextEntity
      invariant forall k :: 0 <= k < |remaining| ==> remaining[k].entity < w.nextEntity
    {
      LoadingStep(jobs, i, n0, semiMajorAxis);
      var job := jobs[i];
      match job.task {
        case None =>
          assert job.entity < n0;
          remaining := remaining + [job];
        case Some(data) =>
          var entities := SpawnRecords(w, data, semiMajorAxis);
          loaded := loaded + [LoadedElements(entities, data)];
          assert w.satellites == s0 + (o.spawned + Spawn(data, o.next, semiMajorAxis));
      }
      o := PollJob(o, job, semiMajorAxis);
      i := i + 1;
    }
    assert jobs[..i] == jobs;
    w.jobs := remaining;
  }
}
