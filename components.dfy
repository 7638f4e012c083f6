/** The entities, components, events and settings that the load and
    propagation systems of the game world share, and the world itself: the
    satellites and the load jobs that the systems query and update. */
module Components {
  import opened Wrappers
  import opened Vectors
  import opened Sgp4

  /** Bevy's `Entity`, as an opaque number; the world hands out fresh ones. */
  type Entity = nat

  /** The records one load returns (`Vec<Arc<sgp4::Elements>>`). */
  type OrbitalData = seq<Elements>

  /** `PropagationSettings`: the real-time interval between propagations
      (nanoseconds) and the number of satellites per propagation batch. */
  datatype PropagationSettings = PropagationSettings(realTimeInterval: nat, batchSize: nat)

  /** `InGameSettings`: world units per km, the simulation speed multiplier
      and the propagation settings. */
  datatype InGameSettings = InGameSettings(scale: real, simulationSpeed: real, propagation: PropagationSettings)

  /** `PropagationStatus`: no prediction yet, or the last prediction with the
      one-shot flag that suppresses the next extrapolation step. */
  datatype PropagationStatus =
    | Propagated(velocity: Vec3, position: Vec3, justPropagated: bool)
    | NotPropagated

  /** `SatelliteOrbit`, the Kepler description of the orbit. */
  datatype SatelliteOrbit = SatelliteOrbit(
    semiMajorAxis: real,
    eccentricity: real,
    inclination: real,
    raan: real,
    argumentOfPerigee: real,
    trueAnomaly: real,
    epoch: real)

  /** A satellite entity with the components the systems query:
      `InGameElements`, `SatelliteOrbit`, `PropagationStatus`,
      `PropagatableDuration` (in nanoseconds) and, once the rendering side
      has inserted its bundle, a `Transform` (only its translation). */
  datatype Satellite = Satellite(
    entity: Entity,
    elements: Elements,
    orbit: SatelliteOrbit,
    status: PropagationStatus,
    elapsed: nat,
    translation: Option<Vec3>)

  /** `LoadElements`: a request to load one group in one format. */
  datatype LoadElements = LoadElements(group: string, format: string)

  /** `LoadedElements`: the satellites spawned for one finished load, and the
      records they were spawned from. */
  datatype LoadedElements = LoadedElements(entities: seq<Entity>, data: OrbitalData)

  /** A `JobInExecution` entity: the request it serves and what its task
      yields when polled (`None` while it is still running). */
  datatype Job = Job(entity: Entity, request: LoadElements, task: Option<OrbitalData>)

  /** `Propagate`: one batch of satellites and the minutes since epoch to
      propagate all of them to. */
  datatype Propagate = Propagate(data: seq<(Entity, Elements)>, dtMinutes: real)

  /** `Propageted`: the predictions of one fully successful batch. */
  datatype PropagatedBatch = PropagatedBatch(data: seq<(Entity, Prediction)>)

  /** `impl From<&sgp4::Elements> for SatelliteOrbit`. The semi-major axis is
      derived from the mean motion by `calculate_semi_major_axis`, an f64
      cube root that is supplied as a function here. */
  function OrbitOf(el: Elements, semiMajorAxis: real -> real): (r: SatelliteOrbit)
    ensures r.trueAnomaly == 0.0 && r.epoch == 0.0
    ensures r.semiMajorAxis == semiMajorAxis(el.meanMotion)
    ensures r.eccentricity == el.eccentricity && r.inclination == el.inclination
    ensures r.raan == el.rightAscension && r.argumentOfPerigee == el.argumentOfPerigee
  {
    SatelliteOrbit(
      semiMajorAxis(el.meanMotion),
      el.eccentricity,
      el.inclination,
      el.rightAscension,
      el.argumentOfPerigee,
      0.0,
      0.0)
  }

  /** `PropagatableSattelite::new`, spawned as the entity `e`. */
  function NewSatellite(e: Entity, el: Elements, semiMajorAxis: real -> real): (s: Satellite)
    ensures s.entity == e && s.elements == el
    ensures s.status == NotPropagated && s.elapsed == 0 && s.translation == None
    ensures s.orbit == OrbitOf(el, semiMajorAxis)
  {
    Satellite(e, el, OrbitOf(el, semiMajorAxis), NotPropagated, 0, None)
  }

  function SatelliteIds(sats: seq<Satellite>): seq<Entity> {
    seq(|sats|, i requires 0 <= i < |sats| => sats[i].entity)
  }

  /** The `(Entity, InGameElements)` pairs a batch carries. */
  function EntriesOf(sats: seq<Satellite>): seq<(Entity, Elements)> {
    seq(|sats|, i requires 0 <= i < |sats| => (sats[i].entity, sats[i].elements))
  }

  ghost predicate Distinct(ids: seq<Entity>) {
    forall i, j :: 0 <= i < j < |ids| ==> ids[i] != ids[j]
  }

  ghost predicate SameEntities(a: seq<Satellite>, b: seq<Satellite>) {
    |a| == |b| && forall i :: 0 <= i < |a| ==> a[i].entity == b[i].entity
  }

  /** The lookup `Query::get(entity)` does among the satellites: the index of
      the satellite that is the entity `e`, if there is one. */
  function Find(sats: seq<Satellite>, e: Entity): (r: Option<nat>)
    ensures r.Some? ==> r.value < |sats| && sats[r.value].entity == e
    ensures r.Some? ==> forall i :: 0 <= i < r.value ==> sats[i].entity != e
    ensures r.None? <==> forall i :: 0 <= i < |sats| ==> sats[i].entity != e
  {
    if sats == [] then None
    else if sats[0].entity == e then Some(0)
    else match Find(sats[1..], e)
      case None => None
      case Some(i) => Some(i + 1)
  }

  /** The part of the ECS world the systems see: the satellites in query
      iteration order, the load jobs in query iteration order, and the next
      entity id to hand out. */
  class World {
    var satellites: seq<Satellite>
    var jobs: seq<Job>
    var nextEntity: Entity

    /** Satellites are distinct entities, and every entity in the world was
        handed out before `nextEntity`. */
    ghost predicate Valid()
      reads this
    {
      && Distinct(SatelliteIds(satellites))
      && (forall i :: 0 <= i < |satellites| ==> satellites[i].entity < nextEntity)
      && (forall i :: 0 <= i < |jobs| ==> jobs[i].entity < nextEntity)
    }

    constructor ()
      ensures Valid()
      ensures satellites == [] && jobs == [] && nextEntity == 0
    {
      satellites, jobs, nextEntity := [], [], 0;
    }
  }

  /** Replacing satellites by ones that are the same entities, in the same
      order, keeps the world valid. */
  lemma SameEntitiesKeepValid(w: World, before: seq<Satellite>)
    requires SameEntities(before, w.satellites)
    requires Distinct(SatelliteIds(before))
    requires forall i :: 0 <= i < |before| ==> before[i].entity < w.nextEntity
    requires forall i :: 0 <= i < |w.jobs| ==> w.jobs[i].entity < w.nextEntity
    ensures w.Valid()
  {
    assert SatelliteIds(before) == SatelliteIds(w.satellites);
  }
}
