# skytracio propagation pipeline, modelled in Dafny

This project models the discrete bookkeeping of the satellite propagation
pipeline of skytracio, a Bevy game that shows satellites around the Earth.
The pipeline has these steps:

- epoch data (SGP4 element sets) is loaded per `(group, format)`, either
  from CelesTrak through a cached HTTP client or from JSON files under a
  fixed directory;
- each finished load spawns one `PropagatableSattelite` entity per record;
- when rendering, `instantiate_satelite` gives each loaded satellite a
  `Transform` at the origin;
- on every firing of the propagation timer, the satellites are cut into
  batches of `batch_size`;
- each batch is propagated all-or-nothing into a shared result buffer;
- the buffer is drained as `Propageted` events;
- each prediction moves the satellite's `Transform` to the scaled predicted
  position;
- between predictions, the satellite is dead-reckoned along its velocity,
  skipping exactly one frame after each prediction.

Modules, one per concern:

- `Wrappers`: `Option` and `Result`.
- `Vectors`: `Vec3` over the reals.
- `Sgp4`: the external library surface. Its two fallible steps,
  `Constants::from_elements` and `Constants::propagate`, are function fields.
- `Components`: entities, components, events, settings and the `World` class.
  The world holds the satellites and the load jobs in query order, and the
  next free entity id.
- `Batching`: the specification of one timer firing (`Firing`,
  `Accumulate`), with its closed forms.
- `Propagation`: `trigger_propagation`, `do_propagate`, `accept_propagation`,
  `send_predictions`, `post_loadup_predictions`, and the
  `PropagationResults` buffer as a class.
- `InGame`: `instantiate_satelite`, `adjust_transaltions_on_propagation`
  and `approximate_propagation`.
- `Client`: `load_or_empty`, `ConstFileClient::load`, and `DefaultClient`
  with its cache as a class.
- `Loading`: `move_to_loading`, completion of the load task, and
  `execute_elements_loading`.

How the Bevy systems are modelled:

- Each system is a method over the `World` (or over the resource class it
  uses).
- The system is proved against a specification function of the old state.
- The properties the source promises are lemmas about those functions.

## Model

| member | source | states |
|---|---|---|
| `Components.NewSatellite` | src/propagation/bevy_integration.rs:158-163 | A fresh satellite is `NotPropagated`, has a zero accumulator and no `Transform`, keeps its elements, and gets the orbit mapping of `From<&Elements>` |
| `Components.OrbitOf` | src/propagation/bevy_integration.rs:362-372 | The orbit mapping of `From<&Elements>`: five fields copied, the semi-major axis from the mean motion, true anomaly and epoch 0 |
| `Components.Find` | src/propagation/bevy_integration.rs:317-319 | The query lookup finds the first satellite that is the entity, or reports none exactly when no satellite is |
| `Batching.FiringPartition` | src/propagation/bevy_integration.rs:222-229 | Concatenating the batches' data gives every satellite's `(entity, elements)` exactly once, in iteration order |
| `Batching.FiringBounds` | src/propagation/bevy_integration.rs:222-229 | The batches hold all N satellites at `batch_size` per batch, with no spare batch |
| `Batching.FiringCount` | src/propagation/bevy_integration.rs:222-229 | One firing over N satellites sends exactly ceil(N / batch_size) `Propagate` events |
| `Batching.FiringBatchSizes` | src/propagation/bevy_integration.rs:227 | Every batch but the last has exactly `batch_size` entries; the last has between 1 and `batch_size` |
| `Batching.FirstBatch` | src/propagation/bevy_integration.rs:222-228 | The first batch is the peeked leader and up to `batch_size - 1` followers; its minutes are the leader's new accumulated total |
| `Batching.FiringBatchAt` | src/propagation/bevy_integration.rs:222-229 | Batch k starts at its leader's index `LeaderIndex(k)` and runs to the next leader or the end; its minutes are that leader's old total plus one increment |
| `Batching.LeaderIndexIsProduct` | src/propagation/bevy_integration.rs:227 | The leader of batch k is the satellite at `k * batch_size` |
| `Batching.AccumulateLeaders` | src/propagation/bevy_integration.rs:223-224 | After a firing, only the satellites at multiples of `batch_size` have their accumulator moved, each by exactly one increment; everything else is unchanged |
| `Batching.FiringLeaderTotals` | src/propagation/bevy_integration.rs:224-226 | Every batch's `dt_minutes` is, in minutes, the total its leader (at `k * batch_size`) holds after the firing |
| `Propagation.PredictEntry` | src/propagation/bevy_integration.rs:250-254 | One entry: an `Elements` error when deriving the constants fails, a `Propagation` error when propagating fails, else the library's prediction at the same `dt` |
| `Propagation.CollectPredictions` | src/propagation/bevy_integration.rs:250-254 | The collect succeeds exactly when every entry succeeds. It then gives the input entities in input order, each with its prediction at the same `dt`; otherwise it gives the error of the first failing entry |
| `Propagation.PropagationResults.constructor` | src/propagation/bevy_integration.rs:190-191 | The buffer starts empty |
| `Propagation.PropagationResults.DoPropagate` | src/propagation/bevy_integration.rs:249-265 | The buffer gains one `Propageted` with the collected predictions on full success, and is unchanged otherwise |
| `Propagation.PropagationResults.AcceptPropagation` | src/propagation/bevy_integration.rs:234-247 | Each event, in order, is propagated with its own data and minutes; the buffer gains `Successes` of the events |
| `Propagation.SuccessesAppend` | src/propagation/bevy_integration.rs:234-247 | Batches contribute independently: the results of a concatenation of event lists are the concatenation of their results |
| `Propagation.FailedBatchIsDropped` | src/propagation/bevy_integration.rs:256-263 | A batch with any failing entry contributes nothing, and the batches before and after it are unaffected |
| `Propagation.PropagationResults.SendPredictions` | src/propagation/bevy_integration.rs:267-272 | Every buffered result is sent exactly once, in push order, and the buffer is left empty |
| `Propagation.LookupEntries` | src/propagation/bevy_integration.rs:278 | The `filter_map` over a load's entities keeps at most one entry per entity, and each kept entry is a satellite paired with its own elements |
| `Propagation.LookupFromEntities` | src/propagation/bevy_integration.rs:278 | Every kept entry is one of the load's own entities |
| `Propagation.LookupSingle` | src/propagation/bevy_integration.rs:278 | One entity is kept with its elements when `elements.get` finds it, and dropped when it does not |
| `Propagation.LookupAppend` | src/propagation/bevy_integration.rs:278 | The lookup goes entity by entity: the entries of a concatenation are those of its parts, in order. With `LookupSingle`, this fixes the result for any mix of found and missing entities |
| `Propagation.LookupKeepsFound` | src/propagation/bevy_integration.rs:278 | Every entity that is still a satellite is kept, with its elements |
| `Propagation.LookupAllFound` | src/propagation/bevy_integration.rs:278 | When every entity is still a satellite, every entity is kept, in order |
| `Propagation.LookupNoneFound` | src/propagation/bevy_integration.rs:278 | When no entity is a satellite any more, the batch is empty |
| `Propagation.PostLoadupPredictions` | src/propagation/bevy_integration.rs:275-281 | One `do_propagate` per `LoadedElements`, in order, at 0.01 minutes; the buffer gains exactly the successes of those batches |
| `Propagation.FireBatches` | src/propagation/bevy_integration.rs:222-229 | The `while let` loop sends exactly the batches of `Firing` and leaves the accumulators as `Accumulate` specifies |
| `Propagation.TriggerPropagation` | src/propagation/bevy_integration.rs:214-232 | On an idle tick nothing is sent and nothing changes. On a finished timer the events are `Firing` and the satellites `Accumulate` of the old satellites. The increment is the real-time interval in seconds times the simulation speed, converted to a `Duration`. The world stays valid and the jobs are untouched |
| `InGame.ApplyPredictionEffect` | src/propagation/bevy_integration.rs:316-337 | One entry changes only the satellite it names, and only when that satellite has a `Transform`. It then gets translation = position × scale and status `Propagated` with the prediction and `just_propagated` set |
| `InGame.ApplyAllKeepsEntities` | src/propagation/bevy_integration.rs:315-338 | Applying predictions never adds, removes or reorders satellites |
| `InGame.ApplyAllEffect` | src/propagation/bevy_integration.rs:315-338 | After all events, each satellite with a `Transform` reflects the last prediction for it; satellites without one, or without a prediction, are unchanged |
| `InGame.LastPrediction` | src/propagation/bevy_integration.rs:315-316 | There is no last prediction for an entity exactly when no entry names it |
| `InGame.LastPredictionIsLast` | src/propagation/bevy_integration.rs:315-316 | A last prediction found is an entry for that entity that no later entry for it follows |
| `InGame.LastPredictionIndex` | src/propagation/bevy_integration.rs:315-316 | The same, with the index of that entry returned |
| `InGame.ApplyAllAppend` | src/propagation/bevy_integration.rs:315-316 | Applying two lists of entries in turn is applying their concatenation |
| `InGame.ApplyBatch` | src/propagation/bevy_integration.rs:316-337 | The inner loop applies one event's entries in order, as `ApplyAll` specifies |
| `InGame.AdjustTranslations` | src/propagation/bevy_integration.rs:314-339 | The satellites become `ApplyAll` of every entry of every event, in reading order; the world stays valid |
| `InGame.InstantiateOneEffect` | src/propagation/bevy_integration.rs:100-107 | One loaded entity gives only the satellite that is it a `Transform` at the origin. Every other satellite is unchanged |
| `InGame.InstantiateAllKeepsEntities` | src/propagation/bevy_integration.rs:99-109 | Instantiating never adds, removes or reorders satellites |
| `InGame.InstantiateAllEffect` | src/propagation/bevy_integration.rs:99-109 | After a run, exactly the satellites named by a loaded entity sit at the origin, and every other satellite is unchanged |
| `InGame.InstantiateAllAppend` | src/propagation/bevy_integration.rs:99-100 | Instantiating two lists of entities in turn is instantiating their concatenation |
| `InGame.InstantiateBatch` | src/propagation/bevy_integration.rs:100-108 | The inner loop handles one event's entities in order, as `InstantiateAll` specifies |
| `InGame.InstantiateSatellites` | src/propagation/bevy_integration.rs:98-110 | The satellites become `InstantiateAll` of every entity of every `LoadedElements`, in reading order; the world stays valid and the jobs are untouched |
| `InGame.InstantiatedReceivesPredictions` | src/propagation/bevy_integration.rs:98-110 | Once a loaded satellite is instantiated, the last prediction for it places it at the scaled predicted position |
| `InGame.ApproximatePropagation` | src/propagation/bevy_integration.rs:341-360 | Every satellite takes one `Extrapolate` step with factor scale × speed × frame seconds, in place |
| `InGame.ExtrapolateKeepsPrediction` | src/propagation/bevy_integration.rs:342-359 | A frame never changes the stored position or velocity, or any other component. The translation moves only when the satellite was `Propagated` with the flag clear |
| `InGame.OneShotAfterPrediction` | src/propagation/bevy_integration.rs:341-360 | The frame right after a prediction clears the flag and leaves the translation at the prediction; the next frame moves it by one velocity step |
| `InGame.DriftIsScaled` | src/propagation/bevy_integration.rs:357-358 | n per-frame velocity steps add up to the velocity times n times the factor |
| `InGame.DeadReckoning` | src/propagation/bevy_integration.rs:341-360 | n + 1 frames after a prediction, the satellite sits at the scaled predicted position plus n velocity steps, with the flag clear |
| `InGame.DeadReckoningClosedForm` | src/propagation/bevy_integration.rs:357-358 | The same position in closed form: scaled position plus velocity × n × factor |
| `Loading.MoveToLoading` | src/propagation/bevy_integration.rs:64-78 | One new job entity per request, in order, with fresh ids and a running task; the satellites are unchanged |
| `Loading.CompleteLoadTask` | src/propagation/bevy_integration.rs:68-74 | A job's task finishes only once, while it is still running. It then yields `load_or_empty` of what the loader returns for that job's own group and format; nothing else changes |
| `Loading.CompleteDefaultLoad` | src/propagation/bevy_integration.rs:68-74 | With the `DefaultClient` as loader, the still running job yields `load_or_empty` of `CacheLoad` for its own group and format, and the shared cache moves as `CacheLoad` says |
| `Loading.RunningOrFinished` | src/propagation/bevy_integration.rs:84-86 | Every polled job is either still running or finished, never both |
| `Loading.LoadingKeepsRunning` | src/propagation/bevy_integration.rs:84-86 | Jobs still running stay, unchanged and in order |
| `Loading.LoadingReportsFinished` | src/propagation/bevy_integration.rs:86-93 | Each finished job sends one `LoadedElements` with its own records, in order, with as many entities as records |
| `Loading.LoadingSpawnsRecords` | src/propagation/bevy_integration.rs:87-91 | The spawned satellites are one fresh `PropagatableSattelite` per record of the finished jobs, numbered consecutively |
| `Loading.LoadingNamesSpawned` | src/propagation/bevy_integration.rs:87-92 | The `LoadedElements` events name exactly the spawned entities, in spawn order |
| `Loading.SpawnRecords` | src/propagation/bevy_integration.rs:87-91 | The `map` over one job's records spawns one satellite per record with consecutive fresh ids and returns those ids; the satellites stay distinct |
| `Loading.ExecuteElementsLoading` | src/propagation/bevy_integration.rs:80-96 | Jobs polled in order: the world ends as `Loading` specifies (pending jobs kept, finished ones despawned, their satellites spawned, one event each), and stays valid |
| `Client.LoadOrEmpty` | src/propagation/client.rs:13-18 | A successful load unchanged, and an empty list for any error |
| `Client.Extension` | src/propagation/client.rs:98-102 | Exactly the string "JSON" is supported, as extension "json" |
| `Client.Push` | src/propagation/client.rs:104-106 | `PathBuf::push`: an absolute component replaces the path. A relative one is appended after one separator, or becomes the whole path when the path is empty |
| `Client.ConstFileLoad` | src/propagation/client.rs:97-111 | A format other than "JSON" panics with "not implemented: Not supporting format: " and the format (the prefix `unimplemented!` adds), before any file is opened. A "JSON" load opens `top/data/group.json`; an open failure is `IO`, a parse failure `Serde`, and success returns the parsed records, same count, same order |
| `Client.DataPathLayout` | src/propagation/client.rs:104-106 | For a relative group under a directory the path is `top + "/data/" + group + ".json"` |
| `Client.AbsoluteGroupEscapes` | src/propagation/client.rs:104-106 | An absolute group replaces the directory entirely |
| `Client.CacheLoad` | src/propagation/client.rs:38-61 | A hit returns the cached list, sends nothing and keeps the cache. A miss sends one request for that group and format. On success it returns the decoded records, and the key maps to them. A call error is returned as is, and a decode error as a transport error; after either, the key maps to the empty placeholder. The load succeeds exactly when the call and the decode both do. No other key is touched |
| `Client.FailureLeavesPlaceholder` | src/propagation/client.rs:40-53 | After a failed load, the next load of that key returns `Ok([])` and sends nothing, whatever the network does |
| `Client.CachedForever` | src/propagation/client.rs:40-58 | Once a key is cached, no sequence of later loads changes its value |
| `Client.DefaultClient.constructor` | src/propagation/client.rs:26-31 | A new client starts with an empty cache |
| `Client.DefaultClient.Load` | src/propagation/client.rs:38-61 | The load's result and new cache are those of `CacheLoad` on the old cache, and it sends the request `CacheLoad` names |

## Left out

- Floating point:
  - f32/f64 rounding and the casts between them are not modelled; vectors and minutes are reals.
  - `Duration::from_secs_f64` is not modelled. `Propagation.FiringIncrement` applies a conversion supplied as a function `real -> nat` (nanoseconds) to the interval in seconds times the simulation speed. The panic of `from_secs_f64` on a negative speed is not modelled.
- SGP4 itself (`Constants::from_elements`, `propagate`) is two function fields of `Library`; the perturbation model is outside the repository.
- `calculate_semi_major_axis` is a parameter `real -> real`, because it is an f64 `powf` cube root.
- External I/O is supplied as functions: the file system, `serde_json`, the HTTP client `ureq` and its `into_json`.
- `Mutex`/`RwLock` and concurrency are not modelled. The buffer and the cache are plain fields.
  - The guards in `DefaultClient::load` are not modelled either. Before Rust 2024, the `if let` read guard of client.rs:40-43 lives through the whole `else` branch. So every cache miss, failing or not, blocks at the `write()` of client.rs:46. From Rust 2024 on, the write guard of client.rs:46 is still alive when client.rs:56 calls `write()` again, so a successful miss blocks there.
  - `Client.DefaultClient.Load` therefore models the cache logic as if each guard were released before the next lock.
- The task pool, `scope`/`spawn` and `block_on(poll_once)` are not modelled.
  - `Loading.CompleteLoadTask` and `Loading.CompleteDefaultLoad` stand for a task finishing.
  - A task whose `ConstFileClient` panics on its format is not modelled; `CompleteLoadTask` takes a loader that returns.
  - A job's task is `None` while it runs.
- The `Timer` is a `finished` boolean given to `TriggerPropagation`.
- Bevy entity allocation: ids are a counter (`nextEntity`). Generations and id reuse after a despawn are not modelled.
- Bevy `Commands` are deferred in the source. The model spawns satellites during the loop and applies the despawns of finished jobs at the end of `ExecuteElementsLoading`. No query in that system sees the difference.
- The event queues are sequences passed in and returned; reader cursors are not modelled.
- `Propagation.TriggerPropagation`: requires `batch_size > 0` whenever the timer finishes over at least one satellite. With 0, `take(0)` consumes nothing, the peek never advances, and the source loops forever.
- `TriggerPropagation`, `AdjustTranslations` and `InstantiateSatellites` work on a local sequence in their loops and write it back to the world once; aliasing between query items is not captured.
- A `Transform` is an optional translation on the satellite. Rotation and scale are not modelled, nor the mesh and material that `instantiate_satelite` adds with it.
- `InGame.InstantiateSatellites`: skips a loaded entity that is not a satellite, where `commands.entity` would panic on an entity that no longer exists. It also applies each insert immediately, not when the commands run.
- `create_assets`, `setup_propagation_timer` and the plugin wiring are not modelled: they are rendering and scheduling.
- `src/orbit.rs` is not part of this model. It is floating-point trigonometry.
- The epoch datetime and drag terms of `sgp4::Elements` are omitted; no modelled operation reads them.
- `PathBuf::push` is modelled with Unix separators only.
- The `tracing` log output (`debug!`, `info!`, `error!`) is not modelled.
