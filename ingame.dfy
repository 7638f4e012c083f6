/** The in-game systems: `instantiate_satelite` gives every loaded
    satellite a `Transform` at the origin,
    `adjust_transaltions_on_propagation` moves every satellite that receives
    a prediction to the scaled predicted position and marks it just
    propagated, and `approximate_propagation` dead-reckons
    propagated satellites along their velocity between predictions, skipping
    exactly one frame after each prediction. */
module InGame {
  import opened Wrappers
  import opened Vectors
  import opened Sgp4
  import opened Components

  /** A satellite after a prediction has been applied to it: its translation
      is the predicted position in world units, and its status is the
      prediction with the one-shot flag set. */
  function Applied(s: Satellite, p: Prediction, scale: real): Satellite {
    s.(translation := Some(Scale(p.position, scale)),
       status := Propagated(p.velocity, p.position, true))
  }

  /** One `(entity, prediction)` entry: `positions.get_mut(entity)` finds the
      satellite only when it exists and carries a `Transform`; otherwise the
      entry is skipped. */
  function ApplyPrediction(sats: seq<Satellite>, entry: (Entity, Prediction), scale: real): (r: seq<Satellite>)
    ensures |r| == |sats|
  {
    match Find(sats, entry.0)
    case None => sats
    case Some(i) => if sats[i].translation.None? then sats else sats[i := Applied(sats[i], entry.1, scale)]
  }

  /** The entries applied one after the other, in order. */
  function ApplyAll(sats: seq<Satellite>, entries: seq<(Entity, Prediction)>, scale: real): (r: seq<Satellite>)
    ensures |r| == |sats|
    decreases |entries|
  {
    if entries == [] then sats
    else ApplyPrediction(ApplyAll(sats, entries[..|entries| - 1], scale), entries[|entries| - 1], scale)
  }

  /** The entries of the `Propageted` events, in reading order. */
  function AllPredictions(events: seq<PropagatedBatch>): seq<(Entity, Prediction)>
    decreases |events|
  {
    if events == [] then []
    else AllPredictions(events[..|events| - 1]) + events[|events| - 1].data
  }

  /** The last prediction among `entries` for the entity `e`, if any. */
  function LastPrediction(entries: seq<(Entity, Prediction)>, e: Entity): (r: Option<Prediction>)
    ensures r.None? <==> forall k :: 0 <= k < |entries| ==> entries[k].0 != e
    decreases |entries|
  {
    if entries == [] then None
    else if entries[|entries| - 1].0 == e then Some(entries[|entries| - 1].1)
    else
      var r := LastPrediction(entries[..|entries| - 1], e);
      assert forall k :: 0 <= k < |entries| - 1 ==> entries[..|entries| - 1][k] == entries[k];
      r
  }

  /** A prediction found is an entry for `e` that no later entry for `e`
      follows. */
  lemma LastPredictionIsLast(entries: seq<(Entity, Prediction)>, e: Entity)
    requires LastPrediction(entries, e).Some?
    ensures exists k :: (0 <= k < |entries| && entries[k] == (e, LastPrediction(entries, e).value)
      && forall k' :: k < k' < |entries| ==> entries[k'].0 != e)
  {
    var k := LastPredictionIndex(entries, e);
  }

  /** The index of the entry `LastPrediction` finds. */
  lemma {:induction false} LastPredictionIndex(entries: seq<(Entity, Prediction)>, e: Entity) returns (k: nat)
    requires LastPrediction(entries, e).Some?
    ensures k < |entries| && entries[k] == (e, LastPrediction(entries, e).value)
    ensures forall k' :: k < k' < |entries| ==> entries[k'].0 != e
    decreases |entries|
  {
    var n := |entries| - 1;
    if entries[n].0 == e {
      k := n;
    } else {
      var init := entries[..n];
      k := LastPredictionIndex(init, e);
      assert entries[k] == init[k];
    }
  }

  /** Satellite `s` after the predictions `last` left for it: the last one
      applies if there is one and `s` has a `Transform`, else nothing. */
  function Updated(s: Satellite, last: Option<Prediction>, scale: real): Satellite {
    if last.Some? && s.translation.Some? then Applied(s, last.value, scale) else s
  }

  /** One entry changes only the satellite it names, and only when that
      satellite has a `Transform`; every other satellite is unchanged. */
  lemma ApplyPredictionEffect(sats: seq<Satellite>, entry: (Entity, Prediction), scale: real)
    requires Distinct(SatelliteIds(sats))
    ensures var r := ApplyPrediction(sats, entry, scale);
      forall j :: 0 <= j < |sats| ==>
        r[j] == if sats[j].entity == entry.0 && sats[j].translation.Some? then Applied(sats[j], entry.1, scale) else sats[j]
  {
    var f := Find(sats, entry.0);
    if f.Some? {
      forall j | 0 <= j < |sats| && j != f.value
        ensures sats[j].entity != entry.0
      {
        if j > f.value {
          assert SatelliteIds(sats)[j] != SatelliteIds(sats)[f.value];
        }
      }
    }
  }

  /** Applying predictions never changes which entities the satellites are,
      nor their order. */
  lemma {:induction false} ApplyAllKeepsEntities(sats: seq<Satellite>, entries: seq<(Entity, Prediction)>, scale: real)
    ensures SameEntities(sats, ApplyAll(sats, entries, scale))
    decreases |entries|
  {
    if entries != [] {
      var before := ApplyAll(sats, entries[..|entries| - 1], scale);
      ApplyAllKeepsEntities(sats, entries[..|entries| - 1], scale);
      var f := Find(before, entries[|entries| - 1].0);
    }
  }

  /** The effect of a sequence of entries: each satellite with a `Transform`
      ends up as the last prediction for it made it, and every satellite
      without a `Transform` or without a prediction is unchanged. */
  lemma {:induction false} ApplyAllEffect(sats: seq<Satellite>, entries: seq<(Entity, Prediction)>, scale: real)
    requires Distinct(SatelliteIds(sats))
    ensures var r := ApplyAll(sats, entries, scale);
      forall j :: 0 <= j < |sats| ==> r[j] == Updated(sats[j], LastPrediction(entries, sats[j].entity), scale)
    decreases |entries|
  {
    if entries != [] {
      var init := entries[..|entries| - 1];
      var entry := entries[|entries| - 1];
      var before := ApplyAll(sats, init, scale);
      ApplyAllEffect(sats, init, scale);
      ApplyAllKeepsEntities(sats, init, scale);
      assert SatelliteIds(before) == SatelliteIds(sats);
      ApplyPredictionEffect(before, entry, scale);
      forall j | 0 <= j < |sats|
        ensures ApplyAll(sats, entries, scale)[j] == Updated(sats[j], LastPrediction(entries, sats[j].entity), scale)
      {
        assert before[j].entity == sats[j].entity;
        assert before[j].translation.Some? <==> sats[j].translation.Some?;
      }
    }
  }

  lemma AllPredictionsStep(events: seq<PropagatedBatch>, i: nat)
    requires i < |events|
    ensures AllPredictions(events[..i + 1]) == AllPredictions(events[..i]) + events[i].data
  {
    assert events[..i + 1][..i] == events[..i];
  }

  lemma ApplyAllStep(sats: seq<Satellite>, entries: seq<(Entity, Prediction)>, entry: (Entity, Prediction), scale: real)
    ensures ApplyAll(sats, entries + [entry], scale) == ApplyPrediction(ApplyAll(sats, entries, scale), entry, scale)
  {
    assert (entries + [entry])[..|entries|] == entries;
  }

  lemma {:induction false} ApplyAllAppend(sats: seq<Satellite>, first: seq<(Entity, Prediction)>, second: seq<(Entity, Prediction)>, scale: real)
    ensures ApplyAll(sats, first + second, scale) == ApplyAll(ApplyAll(sats, first, scale), second, scale)
    decreases |second|
  {
    if second == [] {
      assert first + second == first;
    } else {
      var init := second[..|second| - 1];
      var last := second[|second| - 1];
      assert first + second == (first + init) + [last];
      ApplyAllStep(sats, first + init, last, scale);
      ApplyAllAppend(sats, first, init, scale);
      assert init + [last] == second;
      ApplyAllStep(ApplyAll(sats, first, scale), init, last, scale);
    }
  }

  /** The entries of one `Propageted` event, applied in order. */
  method ApplyBatch(sats: seq<Satellite>, data: seq<(Entity, Prediction)>, scale: real) returns (r: seq<Satellite>)
    ensures r == ApplyAll(sats, data, scale)
  {
    r := sats;
    var j := 0;
    while j < |data|
      invariant 0 <= j <= |data|
      invariant r == ApplyAll(sats, data[..j], scale)
    {
      var (entity, prediction) := data[j];
      ghost var before := r;
      var found := Find(r, entity);
      if found.Some? && r[found.value].translation.Some? {
        var k := found.value;
        var position := prediction.position;
        r := r[k := r[k].(
          translation := Some(Scale(position, scale)),
          status := Propagated(prediction.velocity, position, true))];
      }
      assert r == ApplyPrediction(before, data[j], scale);
      ApplyAllStep(sats, data[..j], data[j], scale);
      assert data[..j + 1] == data[..j] + [data[j]];
      j := j + 1;
    }
    assert data[..j] == data;
  }

  /** `adjust_transaltions_on_propagation`: every entry of every received
      `Propageted`, in order, applied to the satellites in place. */
  method AdjustTranslations(w: World, events: seq<PropagatedBatch>, settings: InGameSettings)
    requires w.Valid()
    modifies w
    ensures w.Valid()
    ensures w.jobs == old(w.jobs) && w.nextEntity == old(w.nextEntity)
    ensures w.satellites == ApplyAll(old(w.satellites), AllPredictions(events), settings.scale)
  {
    ghost var s0 := w.satellites;
    var i := 0;
    while i < |events|
      invariant 0 <= i <= |events|
      invariant w.satellites == ApplyAll(s0, AllPredictions(events[..i]), settings.scale)
      invariant w.jobs == old(w.jobs) && w.nextEntity == old(w.nextEntity)
    {
      var next := ApplyBatch(w.satellites, events[i].data, settings.scale);
      ApplyAllAppend(s0, AllPredictions(events[..i]), events[i].data, settings.scale);
      AllPredictionsStep(events, i);
      w.satellites := next;
      i := i + 1;
    }
    assert events[..i] == events;
    ApplyAllKeepsEntities(s0, AllPredictions(events), settings.scale);
    SameEntitiesKeepValid(w, s0);
  }

  /** A satellite once `instantiate_satelite` has inserted its `PbrBundle`:
      the bundle's default `Transform` puts it at the origin, replacing any
      translation it had. */
  function Instantiated(s: Satellite): Satellite {
    s.(translation := Some(Zero))
  }

  /** One loaded entity: the satellite that is `e` gets the bundle; an
      entity that is not a satellite is skipped. */
  function InstantiateOne(sats: seq<Satellite>, e: Entity): (r: seq<Satellite>)
    ensures |r| == |sats|
  {
    match Find(sats, e)
    case None => sats
    case Some(i) => sats[i := Instantiated(sats[i])]
  }

  /** The loaded entities handled one after the other, in order. */
  function InstantiateAll(sats: seq<Satellite>, entities: seq<Entity>): (r: seq<Satellite>)
    ensures |r| == |sats|
    decreases |entities|
  {
    if entities == [] then sats
    else InstantiateOne(InstantiateAll(sats, entities[..|entities| - 1]), entities[|entities| - 1])
  }

  /** The entities of the `LoadedElements` events, in reading order. */
  function LoadedEntities(loaded: seq<LoadedElements>): seq<Entity>
    decreases |loaded|
  {
    if loaded == [] then []
    else LoadedEntities(loaded[..|loaded| - 1]) + loaded[|loaded| - 1].entities
  }

  /** One entity changes only the satellite that is it. */
  lemma InstantiateOneEffect(sats: seq<Satellite>, e: Entity)
    requires Distinct(SatelliteIds(sats))
    ensures var r := InstantiateOne(sats, e);
      forall j :: 0 <= j < |sats| ==> r[j] == if sats[j].entity == e then Instantiated(sats[j]) else sats[j]
  {
    var f := Find(sats, e);
    if f.Some? {
      forall j | 0 <= j < |sats| && j != f.value
        ensures sats[j].entity != e
      {
        if j > f.value {
          assert SatelliteIds(sats)[j] != SatelliteIds(sats)[f.value];
        }
      }
    }
  }

  /** Instantiating never changes which entities the satellites are, nor
      their order. */
  lemma {:induction false} InstantiateAllKeepsEntities(sats: seq<Satellite>, entities: seq<Entity>)
    ensures SameEntities(sats, InstantiateAll(sats, entities))
    decreases |entities|
  {
    if entities != [] {
      InstantiateAllKeepsEntities(sats, entities[..|entities| - 1]);
    }
  }

  /** The effect of a whole run: exactly the satellites named by some loaded
      entity sit at the origin, with nothing else changed; every other
      satellite is unchanged. */
  lemma {:induction false} InstantiateAllEffect(sats: seq<Satellite>, entities: seq<Entity>)
    requires Distinct(SatelliteIds(sats))
    ensures var r := InstantiateAll(sats, entities);
      forall j :: 0 <= j < |sats| ==> r[j] == if sats[j].entity in entities then Instantiated(sats[j]) else sats[j]
    decreases |entities|
  {
    if entities != [] {
      var init := entities[..|entities| - 1];
      var e := entities[|entities| - 1];
      var before := InstantiateAll(sats, init);
      InstantiateAllEffect(sats, init);
      InstantiateAllKeepsEntities(sats, init);
      assert SatelliteIds(before) == SatelliteIds(sats);
      InstantiateOneEffect(before, e);
      assert entities == init + [e];
      forall j | 0 <= j < |sats|
        ensures InstantiateAll(sats, entities)[j] == if sats[j].entity in entities then Instantiated(sats[j]) else sats[j]
      {
        assert before[j].entity == sats[j].entity;
        assert sats[j].entity in entities <==> sats[j].entity in init || sats[j].entity == e;
      }
    }
  }

  lemma LoadedEntitiesStep(loaded: seq<LoadedElements>, i: nat)
    requires i < |loaded|
    ensures LoadedEntities(loaded[..i + 1]) == LoadedEntities(loaded[..i]) + loaded[i].entities
  {
    assert loaded[..i + 1][..i] == loaded[..i];
  }

  lemma InstantiateAllStep(sats: seq<Satellite>, entities: seq<Entity>, e: Entity)
    ensures InstantiateAll(sats, entities + [e]) == InstantiateOne(InstantiateAll(sats, entities), e)
  {
    assert (entities + [e])[..|entities|] == entities;
  }

  lemma {:induction false} InstantiateAllAppend(sats: seq<Satellite>, first: seq<Entity>, second: seq<Entity>)
    ensures InstantiateAll(sats, first + second) == InstantiateAll(InstantiateAll(sats, first), second)
    decreases |second|
  {
    if second == [] {
      assert first + second == first;
    } else {
      var init := second[..|second| - 1];
      var last := second[|second| - 1];
      assert first + second == (first + init) + [last];
      InstantiateAllStep(sats, first + init, last);
      InstantiateAllAppend(sats, first, init);
      assert init + [last] == second;
      InstantiateAllStep(InstantiateAll(sats, first), init, last);
    }
  }

  /** The entities of one `LoadedElements`, instantiated in order. */
  method InstantiateBatch(sats: seq<Satellite>, entities: seq<Entity>) returns (r: seq<Satellite>)
    ensures r == InstantiateAll(sats, entities)
  {
    r := sats;
    var j := 0;
    while j < |entities|
      invariant 0 <= j <= |entities|
      invariant r == InstantiateAll(sats, entities[..j])
    {
      ghost var before := r;
      var found := Find(r, entities[j]);
      if found.Some? {
        var k := found.value;
        r := r[k := r[k].(translation := Some(Zero))];
      }
      assert r == InstantiateOne(before, entities[j]);
      InstantiateAllStep(sats, entities[..j], entities[j]);
      assert entities[..j + 1] == entities[..j] + [entities[j]];
      j := j + 1;
    }
    assert entities[..j] == entities;
  }

  /** `instantiate_satelite`: every entity of every received
      `LoadedElements`, in order, gets its `PbrBundle`. */
  method InstantiateSatellites(w: World, loaded: seq<LoadedElements>)
    requires w.Valid()
    modifies w
    ensures w.Valid()
    ensures w.jobs == old(w.jobs) && w.nextEntity == old(w.nextEntity)
    ensures w.satellites == InstantiateAll(old(w.satellites), LoadedEntities(loaded))
  {
    ghost var s0 := w.satellites;
    var i := 0;
    while i < |loaded|
      invariant 0 <= i <= |loaded|
      invariant w.satellites == InstantiateAll(s0, LoadedEntities(loaded[..i]))
      invariant w.jobs == old(w.jobs) && w.nextEntity == old(w.nextEntity)
    {
      var next := InstantiateBatch(w.satellites, loaded[i].entities);
      InstantiateAllAppend(s0, LoadedEntities(loaded[..i]), loaded[i].entities);
      LoadedEntitiesStep(loaded, i);
      w.satellites := next;
      i := i + 1;
    }
    assert loaded[..i] == loaded;
    InstantiateAllKeepsEntities(s0, LoadedEntities(loaded));
    SameEntitiesKeepValid(w, s0);
  }

  /** Instantiated satellites take part in the in-game systems: once a
      loaded satellite has its `Transform`, the last prediction for it moves
      it to the scaled predicted position. */
  lemma InstantiatedReceivesPredictions(sats: seq<Satellite>, entities: seq<Entity>, entries: seq<(Entity, Prediction)>, scale: real, j: nat)
    requires Distinct(SatelliteIds(sats))
    requires j < |sats| && sats[j].entity in entities
    requires LastPrediction(entries, sats[j].entity).Some?
    ensures ApplyAll(InstantiateAll(sats, entities), entries, scale)[j]
      == Applied(Instantiated(sats[j]), LastPrediction(entries, sats[j].entity).value, scale)
  {
    var placed := InstantiateAll(sats, entities);
    InstantiateAllEffect(sats, entities);
    InstantiateAllKeepsEntities(sats, entities);
    assert SatelliteIds(placed) == SatelliteIds(sats);
    ApplyAllEffect(placed, entries, scale);
  }

  /** One frame of `approximate_propagation` for one satellite, whose
      position moves by its velocity times `factor` (the scale, the
      simulation speed and the frame's seconds multiplied). Satellites
      without a `Transform` are not in the query. */
  function Extrapolate(s: Satellite, factor: real): Satellite {
    if s.translation.None? then s
    else match s.status
      case NotPropagated => s
      case Propagated(velocity, position, justPropagated) =>
        if justPropagated then s.(status := Propagated(velocity, position, false))
        else s.(translation := Some(Add(s.translation.value, Scale(velocity, factor))))
  }

  /** The multiplier of the velocity for one frame. */
  function FrameFactor(settings: InGameSettings, deltaSeconds: real): real {
    settings.scale * settings.simulationSpeed * deltaSeconds
  }

  /** `approximate_propagation`: every satellite, in place. */
  method ApproximatePropagation(w: World, settings: InGameSettings, deltaSeconds: real)
    requires w.Valid()
    modifies w
    ensures w.Valid()
    ensures w.jobs == old(w.jobs) && w.nextEntity == old(w.nextEntity)
    ensures |w.satellites| == |old(w.satellites)|
    ensures forall j :: 0 <= j < |w.satellites| ==>
      w.satellites[j] == Extrapolate(old(w.satellites)[j], FrameFactor(settings, deltaSeconds))
  {
    ghost var s0 := w.satellites;
    var factor := FrameFactor(settings, deltaSeconds);
    var i := 0;
    while i < |w.satellites|
      invariant 0 <= i <= |w.satellites| == |s0|
      invariant forall j :: 0 <= j < i ==> w.satellites[j] == Extrapolate(s0[j], factor)
      invariant forall j :: i <= j < |s0| ==> w.satellites[j] == s0[j]
      invariant w.jobs == old(w.jobs) && w.nextEntity == old(w.nextEntity)
    {
      var s := w.satellites[i];
      if s.translation.Some? {
        match s.status {
          case NotPropagated =>
          case Propagated(velocity, position, justPropagated) =>
            if justPropagated {
              w.satellites := w.satellites[i := s.(status := Propagated(velocity, position, false))];
            } else {
              var delta := Scale(velocity, factor);
              w.satellites := w.satellites[i := s.(translation := Some(Add(s.translation.value, delta)))];
            }
        }
      }
      i := i + 1;
    }
    assert SameEntities(s0, w.satellites);
    SameEntitiesKeepValid(w, s0);
  }

  /** A frame never forgets a prediction, never changes the predicted
      position or velocity, touches nothing but the translation and the
      flag, and moves the translation only when the flag was already clear. */
  lemma ExtrapolateKeepsPrediction(s: Satellite, factor: real)
    ensures var r := Extrapolate(s, factor);
      && r.entity == s.entity && r.elements == s.elements && r.orbit == s.orbit && r.elapsed == s.elapsed
      && r.status.Propagated? == s.status.Propagated?
      && (s.status.Propagated? ==> r.status.velocity == s.status.velocity && r.status.position == s.status.position)
      && r.translation.Some? == s.translation.Some?
      && (r.translation != s.translation ==> s.status.Propagated? && !s.status.justPropagated)
  {
  }

  /** The one-shot flag: the frame right after a prediction leaves the
      satellite where the prediction put it and clears the flag; the frame
      after that moves it by one step of its velocity. */
  lemma OneShotAfterPrediction(s: Satellite, p: Prediction, scale: real, factor: real)
    requires s.translation.Some?
    ensures var first := Extrapolate(Applied(s, p, scale), factor);
      && first.translation == Some(Scale(p.position, scale))
      && first.status == Propagated(p.velocity, p.position, false)
      && Extrapolate(first, factor).translation == Some(Add(Scale(p.position, scale), Scale(p.velocity, factor)))
  {
  }

  /** `n` frames at the same factor. */
  function Frames(s: Satellite, factor: real, n: nat): Satellite {
    if n == 0 then s else Extrapolate(Frames(s, factor, n - 1), factor)
  }

  /** `n` steps of the velocity `v`, frame by frame. */
  function Drift(v: Vec3, factor: real, n: nat): Vec3 {
    if n == 0 then Zero else Add(Drift(v, factor, n - 1), Scale(v, factor))
  }

  /** The `n` steps add up to the velocity times `n` frames. */
  lemma {:induction false} DriftIsScaled(v: Vec3, factor: real, n: nat)
    ensures Drift(v, factor, n) == Scale(v, n as real * factor)
  {
    if n > 0 {
      DriftIsScaled(v, factor, n - 1);
      OneMoreFrame(n, factor);
      ScaleDistributes(v, (n - 1) as real * factor, factor);
    }
  }

  lemma OneMoreFrame(n: nat, factor: real)
    requires n > 0
    ensures n as real * factor == (n - 1) as real * factor + factor
  {
  }

  lemma ScaleDistributes(v: Vec3, a: real, b: real)
    ensures Add(Scale(v, a), Scale(v, b)) == Scale(v, a + b)
  {
    assert v.x * a + v.x * b == v.x * (a + b);
    assert v.y * a + v.y * b == v.y * (a + b);
    assert v.z * a + v.z * b == v.z * (a + b);
  }

  /** Dead reckoning between predictions: `n + 1` frames after a prediction
      the satellite sits at the scaled predicted position plus `n` steps of
      the predicted velocity, with the flag clear. */
  lemma {:induction false} DeadReckoning(s: Satellite, p: Prediction, scale: real, factor: real, n: nat)
    requires s.translation.Some?
    ensures Frames(Applied(s, p, scale), factor, n + 1).status == Propagated(p.velocity, p.position, false)
    ensures Frames(Applied(s, p, scale), factor, n + 1).translation
      == Some(Add(Scale(p.position, scale), Drift(p.velocity, factor, n)))
  {
    var start := Scale(p.position, scale);
    if n == 0 {
      assert Frames(Applied(s, p, scale), factor, 1) == Extrapolate(Applied(s, p, scale), factor);
    } else {
      DeadReckoning(s, p, scale, factor, n - 1);
      var before := Frames(Applied(s, p, scale), factor, n);
      assert Frames(Applied(s, p, scale), factor, n + 1) == Extrapolate(before, factor);
    }
  }

  /** The same in closed form: the velocity times the `n` frames. */
  lemma DeadReckoningClosedForm(s: Satellite, p: Prediction, scale: real, factor: real, n: nat)
    requires s.translation.Some?
    ensures Frames(Applied(s, p, scale), factor, n + 1).translation
      == Some(Add(Scale(p.position, scale), Scale(p.velocity, n as real * factor)))
  {
    DeadReckoning(s, p, scale, factor, n);
    DriftIsScaled(p.velocity, factor, n);
  }
}
