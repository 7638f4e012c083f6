/** The epoch-data loaders: `load_or_empty`, which turns any failed load
    into an empty list; `ConstFileClient`, which reads a group's records from
    a JSON file under a fixed directory; and `DefaultClient`, which asks the
    CelesTrak GP endpoint and keeps what it got in a cache keyed by group and
    format. The file system, the HTTP client and the JSON decoder are
    supplied as functions. */
module Client {
  import opened Wrappers
  import opened Sgp4
  import opened Components

  /** `EpochDataLoader::load_or_empty`: a successful load unchanged, and an
      empty list for any error (the error is only logged). */
  function LoadOrEmpty<E>(loaded: Result<OrbitalData, E>): (r: OrbitalData)
    ensures loaded.Ok? ==> r == loaded.value
    ensures loaded.Err? ==> r == []
  {
    match loaded
    case Ok(data) => data
    case Err(_) => []
  }

  /** What a call returns, or the message it panics with. */
  datatype CallOutcome<+T> = Returned(value: T) | Panicked(message: string)

  // ---------------------------------------------------------------------
  // ConstFileClient

  /** An `io::Error` from opening the file, and a `serde_json::Error` from
      decoding it. */
  datatype IoError = IoError(reason: string)
  datatype SerdeError = SerdeError(reason: string)

  /** `ConstFileError`. */
  datatype ConstFileError = IO(io: IoError) | Serde(serde: SerdeError)

  /** An open file, as a handle the decoder reads from. */
  datatype FileReader = FileReader(handle: nat)

  /** The file system and the decoder a load uses: `fs::File::open` and
      `serde_json::from_reader` of a list of records. */
  datatype Files = Files(
    open: string -> Result<FileReader, IoError>,
    fromReader: FileReader -> Result<seq<Elements>, SerdeError>)

  datatype ConstFileClient = ConstFileClient(topPath: string)

  /** The file extension of a format: only the exact string "JSON" is
      supported. */
  function Extension(format: string): (r: Option<string>)
    ensures r.Some? <==> format == "JSON"
    ensures r.Some? ==> r.value == "json"
  {
    if format == "JSON" then Some("json") else None
  }

  predicate IsAbsolute(path: string) {
    |path| > 0 && path[0] == '/'
  }

  /** `PathBuf::push` with Unix separators: an absolute component replaces
      the path, anything else is appended after one separator. */
  function Push(path: string, component: string): (r: string)
    ensures IsAbsolute(component) ==> r == component
    ensures !IsAbsolute(component) && path != [] && path[|path| - 1] != '/' ==> r == path + "/" + component
    ensures !IsAbsolute(component) && path != [] && path[|path| - 1] == '/' ==> r == path + component
    ensures !IsAbsolute(component) && path == [] ==> r == component
  {
    if IsAbsolute(component) then component
    else if path == [] then component
    else if path[|path| - 1] == '/' then path + component
    else path + "/" + component
  }

  /** The file a load reads: `top_path`, then `data`, then
      `<group>.<extension>`. */
  function DataPath(top: string, group: string, extension: string): string {
    Push(Push(top, "data"), group + "." + extension)
  }

  /** `ConstFileClient::load`. Any format but "JSON" panics before the file
      system is touched. A "JSON" load opens exactly `DataPath` with the
      extension "json"; a failed open is an `IO` error, a failed decode a
      `Serde` error, and a successful one returns the decoded records, same
      count, same order. */
  function ConstFileLoad(client: ConstFileClient, group: string, format: string, files: Files)
    : (r: CallOutcome<Result<OrbitalData, ConstFileError>>)
    ensures format != "JSON" ==> r == Panicked("not implemented: Not supporting format: " + format)
    ensures format == "JSON" ==> var path := DataPath(client.topPath, group, "json");
      && r.Returned?
      && (files.open(path).Err? ==> r.value == Err(IO(files.open(path).error)))
      && (files.open(path).Ok? && files.fromReader(files.open(path).value).Err? ==>
            r.value == Err(Serde(files.fromReader(files.open(path).value).error)))
      && (files.open(path).Ok? && files.fromReader(files.open(path).value).Ok? ==>
            r.value == Ok(files.fromReader(files.open(path).value).value))
  {
    match Extension(format)
    case None => Panicked("not implemented: Not supporting format: " + format)
    case Some(extension) =>
      match files.open(DataPath(client.topPath, group, extension))
      case Err(e) => Returned(Err(IO(e)))
      case Ok(reader) =>
        match files.fromReader(reader)
        case Err(e) => Returned(Err(Serde(e)))
        case Ok(records) => Returned(Ok(records))
  }

  /** For a relative group under a directory not ending in a separator the
      path is laid out as `<top>/data/<group>.json`. */
  lemma DataPathLayout(top: string, group: string)
    requires top != [] && top[|top| - 1] != '/'
    requires !IsAbsolute(group)
    ensures DataPath(top, group, "json") == top + "/data/" + group + ".json"
  {
    var dir := Push(top, "data");
    assert dir == top + "/data";
    assert dir[|dir| - 1] == 'a';
    assert !IsAbsolute(group + ".json") by {
      if group == [] {
        assert (group + ".json")[0] == '.';
      } else {
        assert (group + ".json")[0] == group[0];
      }
    }
    assert Push(dir, group + ".json") == dir + "/" + (group + ".json");
  }

  /** A group that is an absolute path replaces the directory entirely. */
  lemma AbsoluteGroupEscapes(top: string, group: string)
    requires IsAbsolute(group)
    ensures DataPath(top, group, "json") == group + ".json"
  {
    assert (group + ".json")[0] == group[0];
  }

  // ---------------------------------------------------------------------
  // DefaultClient

  /** The GP endpoint every request goes to. */
  const ElementsEndpoint: string := "https://celestrak.com/NORAD/elements/gp.php"

  /** A `GET` of `url` with the query parameters `GROUP` and `FORMAT`. */
  datatype Request = Request(url: string, group: string, format: string)

  /** An HTTP response body, as a handle the decoder reads from. */
  datatype Response = Response(handle: nat)

  /** `ureq::Error`: an error status, or a transport failure (an
      `io::Error` from decoding the body becomes one of these). */
  datatype UreqError = Status(code: nat) | Transport(reason: string)

  /** The network and the decoder one load sees: `call()` of a request and
      `into_json()` of the response. */
  datatype Network = Network(
    call: Request -> Result<Response, UreqError>,
    intoJson: Response -> Result<seq<Elements>, IoError>)

  type Key = (string, string)

  /** What one `DefaultClient::load` does: its result, the cache afterwards,
      and the request it sent, if any. */
  datatype CacheStep = CacheStep(result: Result<OrbitalData, UreqError>, cache: map<Key, OrbitalData>, sent: Option<Request>)

  /** The specification of `DefaultClient::load` on the cache `cache`. A
      cached key is answered from the cache, without a request and without
      changing the cache. A key not in the cache sends exactly one request
      for that group and format to the endpoint; on success the key maps to
      the fetched records, which are returned; on failure the error is
      returned (a failed decode as a transport error) and the key maps to
      the empty placeholder. No other key is touched. */
  function CacheLoad(cache: map<Key, OrbitalData>, group: string, format: string, net: Network): (step: CacheStep)
    ensures (group, format) in cache ==> step == CacheStep(Ok(cache[(group, format)]), cache, None)
    ensures (group, format) !in cache ==>
      && step.sent == Some(Request(ElementsEndpoint, group, format))
      && (step.result.Ok? ==> step.cache == cache[(group, format) := step.result.value])
      && (step.result.Err? ==> step.cache == cache[(group, format) := []])
      && (step.result.Ok? <==>
            net.call(Request(ElementsEndpoint, group, format)).Ok?
            && net.intoJson(net.call(Request(ElementsEndpoint, group, format)).value).Ok?)
      && (net.call(Request(ElementsEndpoint, group, format)).Err? ==>
            step.result == Err(net.call(Request(ElementsEndpoint, group, format)).error))
      && (net.call(Request(ElementsEndpoint, group, format)).Ok?
          && net.intoJson(net.call(Request(ElementsEndpoint, group, format)).value).Err? ==>
            step.result == Err(Transport(net.intoJson(net.call(Request(ElementsEndpoint, group, format)).value).error.reason)))
      && (step.result.Ok? ==>
            step.result.value == net.intoJson(net.call(Request(ElementsEndpoint, group, format)).value).value)
    ensures (group, format) in step.cache
    ensures forall k :: k != (group, format) ==> (k in step.cache <==> k in cache) && (k in cache ==> step.cache[k] == cache[k])
  {
    var key := (group, format);
    if key in cache then CacheStep(Ok(cache[key]), cache, None)
    else
      var request := Request(ElementsEndpoint, group, format);
      var placeholder := cache[key := []];
      match net.call(request)
      case Err(e) => CacheStep(Err(e), placeholder, Some(request))
      case Ok(response) =>
        match net.intoJson(response)
        case Err(e) => CacheStep(Err(Transport(e.reason)), placeholder, Some(request))
        case Ok(records) => CacheStep(Ok(records), cache[key := records], Some(request))
  }

  /** After a failed load, the next load of the same key succeeds with an
      empty list and sends nothing, whatever the network does then. */
  lemma FailureLeavesPlaceholder(cache: map<Key, OrbitalData>, group: string, format: string, net: Network, later: Network)
    requires CacheLoad(cache, group, format, net).result.Err?
    ensures CacheLoad(CacheLoad(cache, group, format, net).cache, group, format, later) ==
      CacheStep(Ok([]), CacheLoad(cache, group, format, net).cache, None)
  {
    assert (group, format) !in cache;
  }

  /** One call of a sequence of loads: the key and the network it sees. */
  datatype Call = Call(group: string, format: string, net: Network)

  /** The cache after a sequence of loads. */
  function RunLoads(cache: map<Key, OrbitalData>, calls: seq<Call>): map<Key, OrbitalData>
    decreases |calls|
  {
    if calls == [] then cache
    else RunLoads(CacheLoad(cache, calls[0].group, calls[0].format, calls[0].net).cache, calls[1..])
  }

  /** Once a key is cached it keeps its value for good: no later load, of
      that key or any other, changes it. */
  lemma {:induction false} CachedForever(cache: map<Key, OrbitalData>, calls: seq<Call>, key: Key)
    requires key in cache
    ensures key in RunLoads(cache, calls) && RunLoads(cache, calls)[key] == cache[key]
    decreases |calls|
  {
    if calls != [] {
      var next := CacheLoad(cache, calls[0].group, calls[0].format, calls[0].net).cache;
      assert key in next && next[key] == cache[key];
      CachedForever(next, calls[1..], key);
    }
  }

  /** `DefaultClient`: the cache shared by all clones (its lock is not
      modelled). */
  class DefaultClient {
    var cache: map<Key, OrbitalData>
    ghost var sent: seq<Request>

    /** `DefaultClient::new`: an empty cache. */
    constructor ()
      ensures cache == map[] && sent == []
    {
      cache := map[];
      sent := [];
    }

    /** `DefaultClient::load`: a hit returns the cached records; a miss
        stores the empty placeholder, sends the request, and on success
        stores and returns the records. */
    method Load(group: string, format: string, net: Network) returns (r: Result<OrbitalData, UreqError>)
      modifies this
      ensures var step := CacheLoad(old(cache), group, format, net);
        && r == step.result && cache == step.cache
        && sent == old(sent) + (if step.sent.Some? then [step.sent.value] else [])
    {
      var key := (group, format);
      if key in cache {
        r := Ok(cache[key]);
      } else {
        cache := cache[key := []];
        var request := Request(ElementsEndpoint, group, format);
        sent := sent + [request];
        var response := net.call(request);
        if response.Err? {
          r := Err(response.error);
          return;
        }
        var decoded := net.intoJson(response.value);
        if decoded.Err? {
          r := Err(Transport(decoded.error.reason));
          return;
        }
        cache := cache[key := decoded.value];
        r := Ok(decoded.value);
      }
    }
  }
}
