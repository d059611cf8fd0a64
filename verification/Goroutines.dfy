/**
 The objects a mount shares with its fetchers, and the fetcher itself.
 */
module Goroutines {
  import opened Wrappers
  import opened ResourceNames
  import opened RegionalClients
  import opened Fetching

  /** A buffered channel of resources. */
  class Channel {
    const capacity: nat
    var buffer: seq<Resource>
    var closed: bool

    constructor (capacity: nat)
      ensures this.capacity == capacity && buffer == [] && !closed
    {
      this.capacity := capacity;
      buffer := [];
      closed := false;
    }

    /** A send without a receiver needs room and an open channel. */
    method Send(item: Resource)
      requires !closed && |buffer| < capacity
      modifies this`buffer
      ensures buffer == old(buffer) + [item]
    {
      buffer := buffer + [item];
    }

    method Close()
      requires !closed
      modifies this`closed
      ensures closed
    {
      closed := true;
    }

    /** One turn of `range`: the oldest item, or none when the closed channel is empty. */
    method Receive() returns (item: Option<Resource>)
      requires closed
      modifies this`buffer
      ensures item == if old(buffer) == [] then None else Some(old(buffer)[0])
      ensures buffer == if old(buffer) == [] then [] else old(buffer)[1..]
    {
      if buffer == [] {
        item := None;
      } else {
        item := Some(buffer[0]);
        buffer := buffer[1..];
      }
    }
  }

  class WaitGroup {
    var counter: nat

    constructor ()
      ensures counter == 0
    {
      counter := 0;
    }

    method Add(n: nat)
      modifies this
      ensures counter == old(counter) + n
    {
      counter := counter + n;
    }

    method Done()
      requires counter > 0
      modifies this
      ensures counter == old(counter) - 1
    {
      counter := counter - 1;
    }
  }

  // ------------------------------------------------------------------ metrics

  /** One recording: which request kind, with which status. */
  datatype Record = Record(kind: string, status: string)

  class Metrics {
    var log: seq<Record>

    constructor ()
      ensures log == []
    {
      log := [];
    }

    method Observe(kind: string, status: string)
      modifies this
      ensures log == old(log) + [Record(kind, status)]
    {
      log := log + [Record(kind, status)];
    }
  }

  const SECRET_METRIC: string := "secretmanager_access_secret_version_requests"
  const PARAMETER_METRIC: string := "parametermanager_render_parameter_version_requests"
  const STATUS_OK: string := "ok"

  /** An error that is not a gRPC status is recorded as `ok`. */
  function StatusOf<T>(reply: Result<T, RpcError>): string {
    match reply
    case Ok(_) => STATUS_OK
    case Err(GrpcStatus(code)) => code
    case Err(PlainError) => STATUS_OK
  }

  /** What fetcher `i` records: one entry for the call it makes, none without a client. */
  function RecordsOf(env: Env, c: Clients, i: nat, e: Entry): seq<Record> {
    var route := RouteOf(e.resourceName);
    match ClientFor(c, route)
    case None => []
    case Some(client) =>
      match route
      case SecretIn(_) => [Record(SECRET_METRIC, StatusOf(env.access(i, client, e.resourceName)))]
      case ParameterIn(_) => [Record(PARAMETER_METRIC, StatusOf(env.render(i, client, e.resourceName)))]
      case Rejected(_) => []
  }

  // ------------------------------------------------------------------ fetcher

  datatype ResourceType = ParameterVersion | SecretRef

  class ResourceFetcher {
    var typeOfResource: ResourceType
    var metricName: string
    const resourceURI: string
    const fileName: string
    const path: string
    const extractJSONKey: string
    const extractYAMLKey: string

    constructor (e: Entry)
      ensures Config() == e.(mode := None)
    {
      typeOfResource := ParameterVersion;
      metricName := "";
      resourceURI := e.resourceName;
      fileName := e.fileName;
      path := e.path;
      extractJSONKey := e.extractJSONKey;
      extractYAMLKey := e.extractYAMLKey;
    }

    /** The entry this fetcher was made for; its mode is not copied. */
    function Config(): Entry {
      Entry(resourceURI, fileName, path, extractJSONKey, extractYAMLKey, None)
    }

    function Failure(err: FetchError): Resource {
      ErrorResource(Identity(resourceURI, fileName, path), err)
    }

    /** The tail both fetches share: select by key, and send the content or the error. */
    method DeliverContent(env: Env, version: string, payload: Bytes, resultChan: Channel)
      requires !BothKeys(Config())
      requires !resultChan.closed && |resultChan.buffer| < resultChan.capacity
      modifies resultChan`buffer
      ensures resultChan.buffer
           == old(resultChan.buffer) + [Package(Config(), version, SelectContent(env, Config(), payload))]
    {
      var content := Ok(payload);
      if |extractJSONKey| > 0 {
        content := ExtractContent(env.decodeJSON, payload, extractJSONKey);
      } else if |extractYAMLKey| > 0 {
        content := ExtractContent(env.decodeYAML, payload, extractYAMLKey);
      }
      match content {
        case Ok(bytes) => resultChan.Send(Resource(resourceURI, fileName, path, version, bytes, None));
        case Err(err) => resultChan.Send(Failure(err));
      }
    }

    method FetchSecrets(env: Env, i: nat, client: Option<Client>, resultChan: Channel, metrics: Metrics)
      returns (panicked: bool)
      requires !resultChan.closed && |resultChan.buffer| < resultChan.capacity
      modifies resultChan`buffer, metrics
      ensures
        match SecretOutcome(env, i, Config(), client)
        case Delivered(resource) => !panicked && resultChan.buffer == old(resultChan.buffer) + [resource]
        case _ => panicked && resultChan.buffer == old(resultChan.buffer)
      ensures metrics.log == old(metrics.log)
                             + if client.None? then []
                               else [Record(metricName, StatusOf(env.access(i, client.value, resourceURI)))]
      ensures client.Some? ==>
                && |metrics.log| == |old(metrics.log)| + 1
                && metrics.log[|old(metrics.log)|].status
                   == match env.access(i, client.value, resourceURI) case Err(GrpcStatus(code)) => code case _ => "ok"
    {
      if client.None? {
        return true;
      }
      var reply := env.access(i, client.value, resourceURI);
      if reply.Err? {
        metrics.Observe(metricName, match reply.error case GrpcStatus(code) => code case PlainError => STATUS_OK);
        resultChan.Send(Failure(RpcFailed(reply.error)));
        return false;
      }
      metrics.Observe(metricName, STATUS_OK);
      if |extractJSONKey| > 0 && |extractYAMLKey| > 0 {
        resultChan.Send(Failure(BothKeysSet));
        return false;
      }
      if reply.value.payload.None? {
        return true;
      }
      panicked := false;
      DeliverContent(env, reply.value.name, reply.value.payload.value, resultChan);
    }

    method FetchParameterVersions(env: Env, i: nat, client: Option<Client>, resultChan: Channel, metrics: Metrics)
      returns (panicked: bool)
      requires !resultChan.closed && |resultChan.buffer| < resultChan.capacity
      modifies resultChan`buffer, metrics
      ensures
        match ParameterOutcome(env, i, Config(), client)
        case Delivered(resource) => !panicked && resultChan.buffer == old(resultChan.buffer) + [resource]
        case _ => panicked && resultChan.buffer == old(resultChan.buffer)
      ensures metrics.log == old(metrics.log)
                             + if client.None? then []
                               else [Record(metricName, StatusOf(env.render(i, client.value, resourceURI)))]
      ensures client.Some? ==>
                && |metrics.log| == |old(metrics.log)| + 1
                && metrics.log[|old(metrics.log)|].status
                   == match env.render(i, client.value, resourceURI) case Err(GrpcStatus(code)) => code case _ => "ok"
    {
      if client.None? {
        return true;
      }
      panicked := false;
      var reply := env.render(i, client.value, resourceURI);
      if reply.Err? {
        metrics.Observe(metricName, match reply.error case GrpcStatus(code) => code case PlainError => STATUS_OK);
        resultChan.Send(Failure(RpcFailed(reply.error)));
        return;
      }
      metrics.Observe(metricName, STATUS_OK);
      if |extractJSONKey| > 0 && |extractYAMLKey| > 0 {
        resultChan.Send(Failure(BothKeysSet));
        return;
      }
      DeliverContent(env, reply.value.version, reply.value.rendered, resultChan);
    }

    /**
     The body of the goroutine: route again, fetch, and in every case run the deferred
     `Done`. Exactly one resource is sent, unless the body panics.
     */
    method Orchestrator(env: Env, i: nat, clients: Clients, resultChan: Channel, wg: WaitGroup, metrics: Metrics)
      returns (panicked: bool)
      requires !resultChan.closed && |resultChan.buffer| < resultChan.capacity
      requires wg.counter > 0
      modifies this, resultChan`buffer, wg, metrics
      ensures wg.counter == old(wg.counter) - 1
      ensures
        match OutcomeOf(env, clients, i, Config())
        case Delivered(resource) => !panicked && resultChan.buffer == old(resultChan.buffer) + [resource]
        case _ => panicked && resultChan.buffer == old(resultChan.buffer)
      ensures metrics.log == old(metrics.log) + RecordsOf(env, clients, i, Config())
      ensures
        var route := RouteOf(resourceURI);
        var client := ClientFor(clients, route);
        if client.None? then metrics.log == old(metrics.log)
        else
          var status :=
            match route
            case SecretIn(_) => (match env.access(i, client.value, resourceURI) case Err(GrpcStatus(code)) => code case _ => "ok")
            case _ => (match env.render(i, client.value, resourceURI) case Err(GrpcStatus(code)) => code case _ => "ok");
          var kind := if route.SecretIn? then "secretmanager_access_secret_version_requests"
                      else "parametermanager_render_parameter_version_requests";
          metrics.log == old(metrics.log) + [Record(kind, status)]
    {
      panicked := false;
      if IsSecretResource(resourceURI) {
        typeOfResource := SecretRef;
        var location := ExtractLocationFromSecretResource(resourceURI);
        if location.Err? {
          resultChan.Send(Failure(Unroutable(BadName(location.error))));
        } else {
          var client := if |location.value| == 0 then clients.secret else Lookup(clients.regionalSecret, location.value);
          metricName := SECRET_METRIC;
          panicked := FetchSecrets(env, i, client, resultChan, metrics);
        }
      } else if IsParameterManagerResource(resourceURI) {
        typeOfResource := ParameterVersion;
        var location := ExtractLocationFromParameterManagerResource(resourceURI);
        if location.Err? {
          resultChan.Send(Failure(Unroutable(BadName(location.error))));
        } else {
          var client := if |location.value| == 0 then clients.parameter else Lookup(clients.regionalParameter, location.value);
          metricName := PARAMETER_METRIC;
          panicked := FetchParameterVersions(env, i, client, resultChan, metrics);
        }
      } else {
        resultChan.Send(Failure(Unroutable(UnknownResourceType)));
      }
      wg.Done();
    }
  }

  /** Fetching never looks at an entry's file mode. */
  lemma ModeIsIrrelevant(env: Env, c: Clients, i: nat, e: Entry)
    ensures OutcomeOf(env, c, i, e.(mode := None)) == OutcomeOf(env, c, i, e)
    ensures RecordsOf(env, c, i, e.(mode := None)) == RecordsOf(env, c, i, e)
  {
  }

  /** A fetcher that delivers has recorded exactly once, or was never routable. */
  lemma OneRecordPerDelivery(env: Env, c: Clients, i: nat, e: Entry)
    ensures OutcomeOf(env, c, i, e).Delivered? && !RouteOf(e.resourceName).Rejected? ==> |RecordsOf(env, c, i, e)| == 1
    ensures OutcomeOf(env, c, i, e).NilClient? ==> RecordsOf(env, c, i, e) == []
  {
  }
}
