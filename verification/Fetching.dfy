/**
 One fetch: the remote call, key extraction and the single result it delivers.

 Remote calls and decoders are arbitrary functions of an `Env`; errors are kinds.
 */
module Fetching {
  import opened Wrappers
  import opened ResourceNames
  import opened RegionalClients

  newtype int32 = x: int | -0x8000_0000 <= x < 0x8000_0000
  newtype uint32 = x: int | 0 <= x < 0x1_0000_0000

  const MAX_INT32: uint32 := 0x7FFF_FFFF

  type Bytes = string

  /** One configured secret. */
  datatype Entry = Entry(
    resourceName: string,
    fileName: string,
    path: string,
    extractJSONKey: string,
    extractYAMLKey: string,
    mode: Option<int32>)
  {
    function PathString(): string {
      if path != "" then path else fileName
    }
  }

  datatype Identity = Identity(resourceName: string, fileName: string, path: string)

  function IdOf(e: Entry): Identity {
    Identity(e.resourceName, e.fileName, e.path)
  }

  // ------------------------------------------------------------------ oracles

  datatype RpcError = GrpcStatus(code: string) | PlainError

  datatype SecretReply = SecretReply(name: string, payload: Option<Bytes>)

  datatype ParameterReply = ParameterReply(version: string, rendered: Bytes)

  datatype Value = Text(text: Bytes) | NonText

  type Document = map<string, Value>

  type Decoder = Bytes -> Option<Document>

  /** Everything outside the program. A call is named by the index of its fetcher, so
      two fetchers of one name may get different answers. */
  datatype Env = Env(
    access: (nat, Client, string) -> Result<SecretReply, RpcError>,
    render: (nat, Client, string) -> Result<ParameterReply, RpcError>,
    decodeJSON: Decoder,
    decodeYAML: Decoder,
    construct: Constructor)

  // ----------------------------------------------------------- key extraction

  datatype FetchError =
    | Unroutable(reason: RouteError)
    | RpcFailed(error: RpcError)
    | BothKeysSet
    | Undecodable
    | KeyNotFound
    | NotText

  function GetValue(value: Value): Result<Bytes, FetchError> {
    match value
    case Text(text) => Ok(text)
    case NonText => Err(NotText)
  }

  function ExtractContent(decode: Decoder, payload: Bytes, key: string): Result<Bytes, FetchError> {
    match decode(payload)
    case None => Err(Undecodable)
    case Some(data) => if key in data then GetValue(data[key]) else Err(KeyNotFound)
  }

  predicate BothKeys(e: Entry) {
    e.extractJSONKey != "" && e.extractYAMLKey != ""
  }

  /** The payload, or the member of it that the entry's key selects. */
  function SelectContent(env: Env, e: Entry, payload: Bytes): Result<Bytes, FetchError>
    requires !BothKeys(e)
  {
    if e.extractJSONKey != "" then ExtractContent(env.decodeJSON, payload, e.extractJSONKey)
    else if e.extractYAMLKey != "" then ExtractContent(env.decodeYAML, payload, e.extractYAMLKey)
    else Ok(payload)
  }

  predicate FoundIn(document: Option<Document>, key: string, text: Bytes) {
    document.Some? && (key, Text(text)) in document.value.Items
  }

  /** Content comes out exactly when it is the whole payload and no key is set, or the
      text a decoder finds under the one key that is. */
  lemma ContentRule(env: Env, e: Entry, payload: Bytes, content: Bytes)
    requires !BothKeys(e)
    ensures SelectContent(env, e, payload) == Ok(content)
       <==> (e.extractJSONKey == "" && e.extractYAMLKey == "" && content == payload)
            || (e.extractJSONKey != "" && FoundIn(env.decodeJSON(payload), e.extractJSONKey, content))
            || (e.extractYAMLKey != "" && FoundIn(env.decodeYAML(payload), e.extractYAMLKey, content))
  {
  }

  /** Some payload holds a text under the key, as the decoder reads it. */
  ghost predicate Findable(decode: Decoder, key: string) {
    exists payload, text :: FoundIn(decode(payload), key, text)
  }

  /** Some payload would give this entry content: not both keys are set, and the one
      that is can be found. */
  ghost predicate Selectable(json: Decoder, yaml: Decoder, e: Entry) {
    && !BothKeys(e)
    && (e.extractJSONKey != "" ==> Findable(json, e.extractJSONKey))
    && (e.extractYAMLKey != "" ==> Findable(yaml, e.extractYAMLKey))
  }

  /** A payload that gives the entry content. */
  ghost function GoodPayload(json: Decoder, yaml: Decoder, e: Entry): (raw: Bytes)
    requires Selectable(json, yaml, e)
    ensures e.extractJSONKey != "" ==> exists text :: FoundIn(json(raw), e.extractJSONKey, text)
    ensures e.extractYAMLKey != "" ==> exists text :: FoundIn(yaml(raw), e.extractYAMLKey, text)
  {
    if e.extractJSONKey != "" then
      var raw, text :| FoundIn(json(raw), e.extractJSONKey, text);
      raw
    else if e.extractYAMLKey != "" then
      var raw, text :| FoundIn(yaml(raw), e.extractYAMLKey, text);
      raw
    else ""
  }

  /** An entry can get content from some payload exactly when it is selectable, and the
      payload above is one. */
  lemma SelectableExact(env: Env, e: Entry)
    requires !BothKeys(e)
    ensures (exists raw, content :: SelectContent(env, e, raw) == Ok(content))
       <==> Selectable(env.decodeJSON, env.decodeYAML, e)
    ensures Selectable(env.decodeJSON, env.decodeYAML, e) ==>
              SelectContent(env, e, GoodPayload(env.decodeJSON, env.decodeYAML, e)).Ok?
  {
    if raw, content :| SelectContent(env, e, raw) == Ok(content) {
      ContentRule(env, e, raw, content);
    }
    if Selectable(env.decodeJSON, env.decodeYAML, e) {
      var raw := GoodPayload(env.decodeJSON, env.decodeYAML, e);
      assert SelectContent(env, e, raw).Ok?;
      assert SelectContent(env, e, raw) == Ok(SelectContent(env, e, raw).value);
    }
  }

  // ---------------------------------------------------------------- resources

  datatype Resource = Resource(
    id: string,
    fileName: string,
    path: string,
    version: string,
    payload: Bytes,
    err: Option<FetchError>)

  function ErrorResource(id: Identity, err: FetchError): Resource {
    Resource(id.resourceName, id.fileName, id.path, "", "", Some(err))
  }

  function KeyOf(r: Resource): Identity {
    Identity(r.id, r.fileName, r.path)
  }

  /** Two entries share a slot of the result map exactly when their resource name, file
      name and path are all equal. */
  lemma SlotIsTriple(e: Entry, e': Entry)
    ensures IdOf(e) == IdOf(e') <==> e.resourceName == e'.resourceName && e.fileName == e'.fileName && e.path == e'.path
  {
  }

  function Package(e: Entry, version: string, content: Result<Bytes, FetchError>): Resource {
    match content
    case Ok(bytes) => Resource(e.resourceName, e.fileName, e.path, version, bytes, None)
    case Err(err) => ErrorResource(IdOf(e), err)
  }

  /** How a fetcher's body ends: one delivery, or a panic on a nil client or payload. */
  datatype Outcome = Delivered(resource: Resource) | NilClient | NilPayload

  function SecretOutcome(env: Env, i: nat, e: Entry, client: Option<Client>): Outcome {
    match client
    case None => NilClient
    case Some(c) =>
      match env.access(i, c, e.resourceName)
      case Err(error) => Delivered(ErrorResource(IdOf(e), RpcFailed(error)))
      case Ok(reply) =>
        if BothKeys(e) then Delivered(ErrorResource(IdOf(e), BothKeysSet))
        else match reply.payload
          case None => NilPayload
          case Some(data) => Delivered(Package(e, reply.name, SelectContent(env, e, data)))
  }

  function ParameterOutcome(env: Env, i: nat, e: Entry, client: Option<Client>): Outcome {
    match client
    case None => NilClient
    case Some(c) =>
      match env.render(i, c, e.resourceName)
      case Err(error) => Delivered(ErrorResource(IdOf(e), RpcFailed(error)))
      case Ok(reply) =>
        if BothKeys(e) then Delivered(ErrorResource(IdOf(e), BothKeysSet))
        else Delivered(Package(e, reply.version, SelectContent(env, e, reply.rendered)))
  }

  /** What fetcher `i` of a mount ends with, given the caches phase 1 left behind. */
  function OutcomeOf(env: Env, c: Clients, i: nat, e: Entry): Outcome {
    var route := RouteOf(e.resourceName);
    match route
    case SecretIn(_) => SecretOutcome(env, i, e, ClientFor(c, route))
    case ParameterIn(_) => ParameterOutcome(env, i, e, ClientFor(c, route))
    case Rejected(reason) => Delivered(ErrorResource(IdOf(e), Unroutable(reason)))
  }

  /** The remote call of fetcher `i` for this entry's own name answered with `raw`. */
  ghost predicate Answered(env: Env, client: Client, i: nat, e: Entry, version: string, raw: Bytes) {
    match RouteOf(e.resourceName)
    case SecretIn(_) => env.access(i, client, e.resourceName) == Ok(SecretReply(version, Some(raw)))
    case ParameterIn(_) => env.render(i, client, e.resourceName) == Ok(ParameterReply(version, raw))
    case Rejected(_) => false
  }

  /** A version and a payload come from a remote call made for this entry's own name,
      with the client its route selects. */
  ghost predicate FetchedFor(env: Env, c: Clients, i: nat, e: Entry, version: string, payload: Bytes) {
    var client := ClientFor(c, RouteOf(e.resourceName));
    && client.Some? && !BothKeys(e)
    && exists raw :: Answered(env, client.value, i, e, version, raw) && SelectContent(env, e, raw) == Ok(payload)
  }

  /** A delivery always carries its own entry's identity, and it is free of error
      exactly when it holds what the remote call for that entry returned. */
  lemma DeliveryIsOwn(env: Env, c: Clients, i: nat, e: Entry)
    requires OutcomeOf(env, c, i, e).Delivered?
    ensures KeyOf(OutcomeOf(env, c, i, e).resource) == IdOf(e)
    ensures
      var r := OutcomeOf(env, c, i, e).resource;
      r.id == e.resourceName && r.fileName == e.fileName && r.path == e.path
    ensures
      var r := OutcomeOf(env, c, i, e).resource;
      r.err.None? ==> FetchedFor(env, c, i, e, r.version, r.payload)
    ensures forall version, payload :: FetchedFor(env, c, i, e, version, payload) ==>
              OutcomeOf(env, c, i, e) == Delivered(Resource(e.resourceName, e.fileName, e.path, version, payload, None))
  {
  }

  // ------------------------------------------------------------------- failures

  /** The remote call of fetcher `i` for this entry's own name was refused. */
  ghost predicate Refused(env: Env, client: Client, i: nat, e: Entry, error: RpcError) {
    match RouteOf(e.resourceName)
    case SecretIn(_) => env.access(i, client, e.resourceName) == Err(error)
    case ParameterIn(_) => env.render(i, client, e.resourceName) == Err(error)
    case Rejected(_) => false
  }

  /** What is wrong with a document for a key. */
  predicate KeyFault(document: Option<Document>, key: string, error: FetchError) {
    match error
    case Undecodable => document == None
    case KeyNotFound => document.Some? && key !in document.value
    case NotText => document.Some? && (key, NonText) in document.value.Items
    case _ => false
  }

  /** The kind of every error: the refusal of the call, both keys set although the call
      was granted, or the fault the decoder of the one key finds in what was returned. */
  lemma ErrorKinds(env: Env, c: Clients, i: nat, e: Entry, error: FetchError)
    requires OutcomeOf(env, c, i, e).Delivered? && !RouteOf(e.resourceName).Rejected?
    ensures ClientFor(c, RouteOf(e.resourceName)).Some?
    ensures
      var client := ClientFor(c, RouteOf(e.resourceName)).value;
      var granted := forall rpc :: !Refused(env, client, i, e, rpc);
      OutcomeOf(env, c, i, e).resource.err == Some(error)
      <==> match error
           case Unroutable(_) => false
           case RpcFailed(rpc) => Refused(env, client, i, e, rpc)
           case BothKeysSet => granted && e.extractJSONKey != "" && e.extractYAMLKey != ""
           case _ =>
             exists version, raw ::
               && Answered(env, client, i, e, version, raw)
               && ((e.extractYAMLKey == "" && e.extractJSONKey != "" && KeyFault(env.decodeJSON(raw), e.extractJSONKey, error))
                   || (e.extractJSONKey == "" && e.extractYAMLKey != "" && KeyFault(env.decodeYAML(raw), e.extractYAMLKey, error)))
  {
    hide RouteOf;
    var client := ClientFor(c, RouteOf(e.resourceName)).value;
    match RouteOf(e.resourceName)
    case SecretIn(_) =>
      match env.access(i, client, e.resourceName) {
        case Err(rpc) => assert Refused(env, client, i, e, rpc);
        case Ok(SecretReply(version, Some(raw))) => assert Answered(env, client, i, e, version, raw);
        case Ok(SecretReply(_, None)) =>
      }
    case ParameterIn(_) =>
      match env.render(i, client, e.resourceName) {
        case Err(rpc) => assert Refused(env, client, i, e, rpc);
        case Ok(ParameterReply(version, raw)) => assert Answered(env, client, i, e, version, raw);
      }
  }

  /** The only panics: no client, or a secret granted without a payload that is looked at. */
  lemma PanicKinds(env: Env, c: Clients, i: nat, e: Entry)
    requires !RouteOf(e.resourceName).Rejected?
    ensures OutcomeOf(env, c, i, e).NilClient? <==> ClientFor(c, RouteOf(e.resourceName)) == None
    ensures OutcomeOf(env, c, i, e).NilPayload?
       <==> && RouteOf(e.resourceName).SecretIn? && (e.extractJSONKey == "" || e.extractYAMLKey == "")
            && ClientFor(c, RouteOf(e.resourceName)).Some?
            && exists version :: env.access(i, ClientFor(c, RouteOf(e.resourceName)).value, e.resourceName)
                                 == Ok(SecretReply(version, None))
  {
  }
}
