/** The propagation systems: `trigger_propagation` cuts the satellites into
    batches when the timer fires, `accept_propagation` hands each batch to
    `do_propagate`, which pushes one `Propageted` into the shared result
    buffer only when every entry of the batch succeeds, `send_predictions`
    drains that buffer, and `post_loadup_predictions` runs one initial
    propagation for every finished load. */
module Propagation {
  import opened Wrappers
  import opened Sgp4
  import opened Components
  import opened Batching

  /** `PropagationError`: which of the two SGP4 steps failed. */
  datatype PropagationError =
    | ElementsFailure(elements: ElementsError)
    | PropagationFailure(propagation: Sgp4Error)

  /** The minutes since epoch of the initial propagation after a load. */
  const InitialPropagationMinutes: real := 0.01

  /** The closure mapped over a batch: derive the constants, then propagate
      them to `dt` minutes; the first failing step names the error. */
  function PredictEntry(lib: Library, el: Elements, dt: real): (r: Result<Prediction, PropagationError>)
    ensures r.Err? && r.error.ElementsFailure? <==> lib.fromElements(el).Err?
    ensures r.Err? && r.error.ElementsFailure? ==> r.error.elements == lib.fromElements(el).error
    ensures r.Err? && r.error.PropagationFailure? <==>
      lib.fromElements(el).Ok? && lib.propagate(lib.fromElements(el).value, dt).Err?
    ensures r.Ok? ==> lib.fromElements(el).Ok? && r == Ok(lib.propagate(lib.fromElements(el).value, dt).value)
  {
    match lib.fromElements(el)
    case Err(e) => Err(ElementsFailure(e))
    case Ok(constants) =>
      match lib.propagate(constants, dt)
      case Err(e) => Err(PropagationFailure(e))
      case Ok(prediction) => Ok(prediction)
  }

  /** Collecting the batch into a `Result<Vec<_>, _>`: all predictions, in
      input order and at the same `dt`, or the error of the first entry that
      fails. */
  function CollectPredictions(lib: Library, entries: seq<(Entity, Elements)>, dt: real)
    : (r: Result<seq<(Entity, Prediction)>, PropagationError>)
    ensures r.Ok? <==> forall i :: 0 <= i < |entries| ==> PredictEntry(lib, entries[i].1, dt).Ok?
    ensures r.Ok? ==> |r.value| == |entries|
    ensures r.Ok? ==> forall i :: 0 <= i < |entries| ==>
      r.value[i] == (entries[i].0, PredictEntry(lib, entries[i].1, dt).value)
    ensures r.Err? ==> exists i :: (0 <= i < |entries|
      && (forall j :: 0 <= j < i ==> PredictEntry(lib, entries[j].1, dt).Ok?)
      && PredictEntry(lib, entries[i].1, dt) == Err(r.error))
    decreases |entries|
  {
    if entries == [] then Ok([])
    else
      match PredictEntry(lib, entries[0].1, dt)
      case Err(e) => Err(e)
      case Ok(p) =>
        match CollectPredictions(lib, entries[1..], dt)
        case Err(e) =>
          assert forall j :: 1 <= j < |entries| ==> entries[j] == entries[1..][j - 1];
          Err(e)
        case Ok(rest) => Ok([(entries[0].0, p)] + rest)
  }

  /** What `do_propagate` pushes for a batch: one `Propageted` on success,
      nothing on failure. */
  function Outcome(lib: Library, batch: Propagate): seq<PropagatedBatch> {
    match CollectPredictions(lib, batch.data, batch.dtMinutes)
    case Ok(data) => [PropagatedBatch(data)]
    case Err(_) => []
  }

  /** What the buffer gains when the batches `events` are propagated one
      after the other. */
  function Successes(lib: Library, events: seq<Propagate>): seq<PropagatedBatch>
    decreases |events|
  {
    if events == [] then []
    else Successes(lib, events[..|events| - 1]) + Outcome(lib, events[|events| - 1])
  }

  /** Batches contribute independently: what one batch pushes does not
      depend on the batches before or after it. */
  lemma {:induction false} SuccessesAppend(lib: Library, a: seq<Propagate>, b: seq<Propagate>)
    ensures Successes(lib, a + b) == Successes(lib, a) + Successes(lib, b)
    decreases |b|
  {
    if b != [] {
      var b' := b[..|b| - 1];
      assert (a + b)[..|a + b| - 1] == a + b';
      assert (a + b)[|a + b| - 1] == b[|b| - 1];
      SuccessesAppend(lib, a, b');
      calc {
        Successes(lib, a + b);
        Successes(lib, a + b') + Outcome(lib, b[|b| - 1]);
        Successes(lib, a) + Successes(lib, b') + Outcome(lib, b[|b| - 1]);
        Successes(lib, a) + Successes(lib, b);
      }
    } else {
      assert a + b == a;
    }
  }

  lemma SuccessesStep(lib: Library, events: seq<Propagate>, i: nat)
    requires i < |events|
    ensures Successes(lib, events[..i + 1]) == Successes(lib, events[..i]) + Outcome(lib, events[i])
  {
    assert events[..i + 1][..i] == events[..i];
  }

  /** A batch with a failing entry is missing from the results, and the
      batches around it are unaffected. */
  lemma FailedBatchIsDropped(lib: Library, before: seq<Propagate>, failed: Propagate, after: seq<Propagate>)
    requires exists i :: 0 <= i < |failed.data| && PredictEntry(lib, failed.data[i].1, failed.dtMinutes).Err?
    ensures Successes(lib, before + [failed] + after) == Successes(lib, before) + Successes(lib, after)
  {
    assert Outcome(lib, failed) == [] by {
      assert CollectPredictions(lib, failed.data, failed.dtMinutes).Err?;
    }
    SuccessesSingle(lib, failed);
    SuccessesAppend(lib, before + [failed], after);
    SuccessesAppend(lib, before, [failed]);
  }

  lemma SuccessesSingle(lib: Library, batch: Propagate)
    ensures Successes(lib, [batch]) == Outcome(lib, batch)
  {
    assert [batch][..0] == [];
  }

  /** The `PropagationResults` resource: the buffer shared between the
      propagation tasks and the system that drains it (its lock is not
      modelled). */
  class PropagationResults {
    var pending: seq<PropagatedBatch>

    constructor ()
      ensures pending == []
    {
      pending := [];
    }

    /** `do_propagate`: all or nothing. */
    method DoPropagate(lib: Library, elements: seq<(Entity, Elements)>, dt: real)
      modifies this
      ensures pending == old(pending) + Outcome(lib, Propagate(elements, dt))
    {
      var data := CollectPredictions(lib, elements, dt);
      match data {
        case Ok(predictions) =>
          pending := pending + [PropagatedBatch(predictions)];
        case Err(_) =>
      }
    }

    /** `accept_propagation`: every `Propagate` event, in order, through
        `do_propagate` (each task runs to completion inside its scope). */
    method AcceptPropagation(lib: Library, events: seq<Propagate>)
      modifies this
      ensures pending == old(pending) + Successes(lib, events)
    {
      var i := 0;
      while i < |events|
        invariant 0 <= i <= |events|
        invariant pending == old(pending) + Successes(lib, events[..i])
      {
        DoPropagate(lib, events[i].data, events[i].dtMinutes);
        SuccessesStep(lib, events, i);
        i := i + 1;
      }
      assert events[..i] == events;
    }

    /** `send_predictions`: every buffered result, once, in push order, and
        an empty buffer afterwards. */
    method SendPredictions() returns (sent: seq<PropagatedBatch>)
      modifies this
      ensures sent == old(pending)
      ensures pending == []
    {
      var drained := pending;
      pending := [];
      sent := [];
      var i := 0;
      while i < |drained|
        invariant 0 <= i <= |drained|
        invariant sent == drained[..i]
      {
        sent := sent + [drained[i]];
        i := i + 1;
      }
    }
  }

  /** The entries `post_loadup_predictions` finds for the entities of one
      `LoadedElements`: those that are satellites, with their elements, in
      order; entities that are not found are skipped. */
  function LookupEntries(sats: seq<Satellite>, entities: seq<Entity>): (r: seq<(Entity, Elements)>)
    ensures |r| <= |entities|
    ensures forall k :: 0 <= k < |r| ==> Find(sats, r[k].0).Some? && r[k].1 == sats[Find(sats, r[k].0).value].elements
    decreases |entities|
  {
    if entities == [] then []
    else
      var rest := LookupEntries(sats, entities[1..]);
      match Find(sats, entities[0])
      case Some(i) => [(entities[0], sats[i].elements)] + rest
      case None => rest
  }

  /** One entity: kept with its elements when it is a satellite, skipped
      when it is not. */
  lemma LookupSingle(sats: seq<Satellite>, e: Entity)
    ensures Find(sats, e).Some? ==> LookupEntries(sats, [e]) == [(e, sats[Find(sats, e).value].elements)]
    ensures Find(sats, e).None? ==> LookupEntries(sats, [e]) == []
  {
    assert [e][1..] == [];
  }

  /** The lookup goes entity by entity: the entries of a concatenation are
      the entries of its parts, in order. With `LookupSingle` this fixes the
      result for any mix of found and missing entities. */
  lemma {:induction false} LookupAppend(sats: seq<Satellite>, a: seq<Entity>, b: seq<Entity>)
    ensures LookupEntries(sats, a + b) == LookupEntries(sats, a) + LookupEntries(sats, b)
    decreases |a|
  {
    if a == [] {
      assert a + b == b;
    } else {
      assert (a + b)[0] == a[0];
      assert (a + b)[1..] == a[1..] + b;
      LookupAppend(sats, a[1..], b);
    }
  }

  /** Every kept entry is one of the load's own entities. */
  lemma {:induction false} LookupFromEntities(sats: seq<Satellite>, entities: seq<Entity>)
    ensures forall k :: 0 <= k < |LookupEntries(sats, entities)| ==> LookupEntries(sats, entities)[k].0 in entities
    decreases |entities|
  {
    if entities != [] {
      LookupFromEntities(sats, entities[1..]);
    }
  }

  /** No entity that is still a satellite is dropped. */
  lemma {:induction false} LookupKeepsFound(sats: seq<Satellite>, entities: seq<Entity>, i: nat)
    requires i < |entities| && Find(sats, entities[i]).Some?
    ensures (entities[i], sats[Find(sats, entities[i]).value].elements) in LookupEntries(sats, entities)
    decreases i
  {
    if i > 0 {
      assert entities[1..][i - 1] == entities[i];
      LookupKeepsFound(sats, entities[1..], i - 1);
    }
  }

  /** When every entity of the load is a satellite, each one is looked up,
      in order. */
  lemma {:induction false} LookupAllFound(sats: seq<Satellite>, entities: seq<Entity>)
    requires forall k :: 0 <= k < |entities| ==> Find(sats, entities[k]).Some?
    ensures |LookupEntries(sats, entities)| == |entities|
    ensures forall k :: 0 <= k < |entities| ==> LookupEntries(sats, entities)[k].0 == entities[k]
    decreases |entities|
  {
    if entities != [] {
      var tail := entities[1..];
      assert forall k :: 0 <= k < |tail| ==> tail[k] == entities[k + 1];
      LookupAllFound(sats, tail);
    }
  }

  /** When no entity of the load is a satellite (they have all been
      despawned), the batch is empty. */
  lemma {:induction false} LookupNoneFound(sats: seq<Satellite>, entities: seq<Entity>)
    requires forall k :: 0 <= k < |entities| ==> Find(sats, entities[k]).None?
    ensures LookupEntries(sats, entities) == []
    decreases |entities|
  {
    if entities != [] {
      var tail := entities[1..];
      assert forall k :: 0 <= k < |tail| ==> tail[k] == entities[k + 1];
      LookupNoneFound(sats, tail);
    }
  }

  /** The batches `post_loadup_predictions` propagates: one per load, at
      the fixed initial minutes. */
  function LoadupBatches(sats: seq<Satellite>, loaded: seq<LoadedElements>): seq<Propagate> {
    seq(|loaded|, i requires 0 <= i < |loaded| =>
      Propagate(LookupEntries(sats, loaded[i].entities), InitialPropagationMinutes))
  }

  /** `post_loadup_predictions`: one blocking `do_propagate` per finished
      load, so that new satellites get a first position before the next
      timer firing. */
  method PostLoadupPredictions(w: World, results: PropagationResults, lib: Library, loaded: seq<LoadedElements>)
    modifies results
    ensures results.pending == old(results.pending) + Successes(lib, LoadupBatches(w.satellites, loaded))
  {
    var sats := w.satellites;
    ghost var batches := LoadupBatches(sats, loaded);
    ghost var p0 := results.pending;
    var i := 0;
    while i < |loaded|
      invariant 0 <= i <= |loaded|
      invariant results.pending == p0 + Successes(lib, batches[..i])
    {
      var data := LookupEntries(sats, loaded[i].entities);
      results.DoPropagate(lib, data, InitialPropagationMinutes);
      SuccessesStep(lib, batches, i);
      i := i + 1;
    }
    assert batches[..i] == batches;
  }

  lemma SuffixSlices<T>(s: seq<T>, i: nat, end: nat)
    requires i < end <= |s|
    ensures s[i..][..end - i] == s[i..end]
    ensures s[i..][1..end - i] == s[i + 1..end]
    ensures s[i..][end - i..] == s[end..]
  {
  }

  /** `Firing` of the satellites from position `i`, one batch unfolded. */
  lemma UnfoldFiringAt(s0: seq<Satellite>, i: nat, increment: nat, batchSize: nat)
    requires 0 < batchSize && i < |s0|
    ensures var end := Min(i + batchSize, |s0|);
      Firing(s0[i..], increment, batchSize)
      == [Propagate(EntriesOf(s0[i..end]), Minutes(s0[i].elapsed + increment))] + Firing(s0[end..], increment, batchSize)
  {
    SuffixSlices(s0, i, Min(i + batchSize, |s0|));
  }

  lemma AppendBatch<T>(events: seq<T>, batch: T, from: seq<T>, beyond: seq<T>, whole: seq<T>, events': seq<T>)
    requires events + from == whole && from == [batch] + beyond
    requires events' == events + [batch]
    ensures events' + beyond == whole
  {
    assert events' + beyond == events + ([batch] + beyond);
  }

  /** One pass of the `while let` loop sends the first batch that `Firing`
      gives for the satellites not yet passed. */
  lemma FiringStepEvents(s0: seq<Satellite>, sats: seq<Satellite>, events: seq<Propagate>, i: nat, increment: nat, batchSize: nat,
                         sats': seq<Satellite>, events': seq<Propagate>, end: nat)
    requires 0 < batchSize && i < |s0| == |sats|
    requires sats[i..] == s0[i..]
    requires events + Firing(s0[i..], increment, batchSize) == Firing(s0, increment, batchSize)
    requires sats' == sats[i := sats[i].(elapsed := sats[i].elapsed + increment)]
    requires end == Min(i + batchSize, |s0|)
    requires events' == events + [Propagate(EntriesOf(sats'[i..end]), Minutes(sats[i].elapsed + increment))]
    ensures events' + Firing(s0[end..], increment, batchSize) == Firing(s0, increment, batchSize)
  {
    LeaderUntouched(s0, sats, i);
    LeaderKeepsEntries(s0, sats, i, end, increment);
    var batch := Propagate(EntriesOf(s0[i..end]), Minutes(s0[i].elapsed + increment));
    assert events' == events + [batch];
    UnfoldFiringAt(s0, i, increment, batchSize);
    AppendBatch(events, batch, Firing(s0[i..], increment, batchSize), Firing(s0[end..], increment, batchSize),
      Firing(s0, increment, batchSize), events');
  }

  /** The satellite under the peek has not been passed yet. */
  lemma LeaderUntouched(s0: seq<Satellite>, sats: seq<Satellite>, i: nat)
    requires i < |s0| == |sats| && sats[i..] == s0[i..]
    ensures sats[i] == s0[i]
  {
    assert sats[i..][0] == s0[i..][0];
  }

  /** Moving the leader's accumulator does not change the batch's entries. */
  lemma LeaderKeepsEntries(s0: seq<Satellite>, sats: seq<Satellite>, i: nat, end: nat, increment: nat)
    requires i < end <= |s0| == |sats| && sats[i..] == s0[i..]
    ensures EntriesOf(sats[i := sats[i].(elapsed := sats[i].elapsed + increment)][i..end]) == EntriesOf(s0[i..end])
  {
    var sats' := sats[i := sats[i].(elapsed := sats[i].elapsed + increment)];
    forall k | 0 <= k < end - i
      ensures sats'[i..end][k].entity == s0[i..end][k].entity && sats'[i..end][k].elements == s0[i..end][k].elements
    {
      assert sats[i..][k] == s0[i..][k];
    }
  }

  /** One pass of the `while let` loop leaves the satellites passed so far
      as `MoveLeaders` makes them: only the leader, at a multiple of
      `batchSize`, has its accumulator moved, and the next leader is again
      at a multiple of `batchSize`. */
  lemma FiringStepSatellites(s0: seq<Satellite>, sats: seq<Satellite>, i: nat, increment: nat, batchSize: nat,
                             sats': seq<Satellite>, end: nat, k: nat)
    requires 0 < batchSize && i < |s0| == |sats| && i == LeaderIndex(k, batchSize)
    requires sats[i..] == s0[i..]
    requires sats[..i] == MoveLeaders(s0, increment, batchSize)[..i]
    requires sats' == sats[i := sats[i].(elapsed := sats[i].elapsed + increment)]
    requires end == Min(i + batchSize, |s0|)
    ensures sats'[end..] == s0[end..]
    ensures sats'[..end] == MoveLeaders(s0, increment, batchSize)[..end]
  {
    var moved := MoveLeaders(s0, increment, batchSize);
    LeaderIsMultiple(k, batchSize);
    LeaderUntouched(s0, sats, i);
    forall j | 0 <= j < end
      ensures sats'[j] == moved[j]
    {
      if j < i {
        assert sats[..i][j] == moved[..i][j];
      } else if j > i {
        FollowerOffset(i, j - i, batchSize);
        assert sats[i..][j - i] == s0[i..][j - i];
      }
    }
    forall j | end <= j < |s0|
      ensures sats'[j] == s0[j]
    {
      assert sats[i..][j - i] == s0[i..][j - i];
    }
    assert sats'[..end] == moved[..end];
    assert sats'[end..] == s0[end..];
  }

  /** The `while let` loop of `trigger_propagation` over the satellites in
      query order: peek the leader, add `increment` to its accumulator,
      send the leader and up to `batchSize - 1` followers at the leader's
      new total. */
  method FireBatches(s0: seq<Satellite>, increment: nat, batchSize: nat)
    returns (events: seq<Propagate>, sats: seq<Satellite>)
    requires batchSize > 0 || s0 == []
    ensures events == Firing(s0, increment, batchSize)
    ensures sats == Accumulate(s0, increment, batchSize)
  {
    events, sats := [], s0;
    var n := |sats|;
    var i := 0;
    while i < n
      invariant 0 <= i <= n && |sats| == n
      invariant sats[i..] == s0[i..]
      invariant events + Firing(s0[i..], increment, batchSize) == Firing(s0, increment, batchSize)
      invariant i < n ==> i == LeaderIndex(|events|, batchSize)
      invariant sats[..i] == MoveLeaders(s0, increment, batchSize)[..i]
      decreases n - i
    {
      // the peeked leader
      var leader := sats[i];
      var total := leader.elapsed + increment;
      var sats' := sats[i := leader.(elapsed := total)];
      // take(batch_size)
      var end := if i + batchSize <= n then i + batchSize else n;
      var events' := events + [Propagate(EntriesOf(sats'[i..end]), Minutes(total))];
      FiringStepEvents(s0, sats, events, i, increment, batchSize, sats', events', end);
      FiringStepSatellites(s0, sats, i, increment, batchSize, sats', end, |events|);
      assert end < n ==> end == LeaderIndex(|events'|, batchSize);
      events, sats, i := events', sats', end;
    }
    assert s0[i..] == [];
    assert sats[..i] == sats;
    assert MoveLeaders(s0, increment, batchSize)[..i] == MoveLeaders(s0, increment, batchSize);
    if s0 != [] {
      AccumulateLeaders(s0, increment, batchSize);
    }
  }

  /** The duration one firing adds to a leader's accumulator, in
      nanoseconds: the real-time interval in seconds times the simulation
      speed, turned into a `Duration` by `toNanos`, which stands for the f64
      arithmetic and `Duration::from_secs_f64`. */
  function FiringIncrement(settings: InGameSettings, toNanos: real -> nat): nat {
    toNanos(settings.propagation.realTimeInterval as real / 1000000000.0 * settings.simulationSpeed)
  }

  /** `trigger_propagation`. On a tick where the timer has not finished
      nothing happens; when it has, every batch leader's accumulator moves
      by `FiringIncrement` and one `Propagate` per batch is sent. The source
      loops forever on a zero batch size when there are satellites, so
      callers must not do that. */
  method TriggerPropagation(w: World, settings: InGameSettings, finished: bool, toNanos: real -> nat)
    returns (events: seq<Propagate>)
    requires w.Valid()
    requires finished && |w.satellites| > 0 ==> settings.propagation.batchSize > 0
    modifies w
    ensures w.Valid()
    ensures w.jobs == old(w.jobs) && w.nextEntity == old(w.nextEntity)
    ensures !finished ==> events == [] && w.satellites == old(w.satellites)
    ensures finished ==>
      && events == Firing(old(w.satellites), FiringIncrement(settings, toNanos), settings.propagation.batchSize)
      && w.satellites == Accumulate(old(w.satellites), FiringIncrement(settings, toNanos), settings.propagation.batchSize)
  {
    events := [];
    if finished {
      ghost var s0 := w.satellites;
      var batchSize := settings.propagation.batchSize;
      var increment := FiringIncrement(settings, toNanos);
      var sats;
      events, sats := FireBatches(w.satellites, increment, batchSize);
      w.satellites := sats;
      if s0 != [] {
        AccumulateLeaders(s0, increment, batchSize);
      }
      assert forall j :: 0 <= j < |s0| ==> w.satellites[j].entity == s0[j].entity;
      assert SameEntities(s0, w.satellites);
      SameEntitiesKeepValid(w, s0);
    }
  }
}
