/**
 The regional client caches: one map per service, filled while mount requests are
 classified and never emptied.
 */
module RegionalClients {
  import opened Wrappers
  import opened Sequences
  import opened ResourceNames
  import opened ClientOptions

  /** A client remembers the service and the options it was constructed with. */
  datatype Client = Client(service: Service, options: seq<ClientOption>)

  /** The outcome of the constructor, which may differ from one attempt to the next. */
  type Constructor = (Service, nat, seq<ClientOption>) -> bool

  function FreshClient(construct: Constructor, attempt: nat, service: Service, region: string, base: seq<ClientOption>): Option<Client> {
    var options := base + [Endpoint(RegionalEndpoint(service, region))];
    if construct(service, attempt, options) then Some(Client(service, options)) else None
  }

  /** Build a regional client from the shared options; nil when construction fails. */
  method GetRegionalClient(service: Service, region: string, clientOptions: Slice, construct: Constructor, attempt: nat, room: nat)
    returns (client: Option<Client>)
    requires clientOptions.Valid()
    modifies clientOptions.backing
    ensures client == FreshClient(construct, attempt, service, region, old(clientOptions.View()))
    ensures
      var address := (match service case SecretManager => "secretmanager." case ParameterManager => "parametermanager.")
                     + region + ".rep.googleapis.com:443";
      var options := old(clientOptions.View()) + [Endpoint(address)];
      client == if construct(service, attempt, options) then Some(Client(service, options)) else None
    ensures clientOptions.View() == old(clientOptions.View())
    ensures clientOptions.backing[..]
         == Written(old(clientOptions.backing[..]), clientOptions.start, clientOptions.len, clientOptions.cap,
                    Endpoint(RegionalEndpoint(service, region)))
  {
    var allOptions := Append(clientOptions, Endpoint(RegionalEndpoint(service, region)), room);
    var options := allOptions.backing[allOptions.start..allOptions.start + allOptions.len];
    if construct(service, attempt, options) {
      client := Some(Client(service, options));
    } else {
      client := None;
    }
  }

  /**
   Start-up followed by the first regional client. The client gets the base options and
   its own endpoint; but when the base slice has spare capacity, this overwrites the last
   option of the slice the parameter manager's global client was built from.
   */
  method StartThenBuild(settings: seq<ClientOption>, proxy: bool, secretEndpoint: string, parameterEndpoint: string,
                        room: nat, service: Service, region: string, construct: Constructor)
    returns (clientOptions: Slice, parameterOptions: Slice, client: Option<Client>)
    requires |settings| == 4
    ensures clientOptions.Valid() && parameterOptions.Valid()
    ensures clientOptions.View() == settings + if proxy then [] else [Endpoint(secretEndpoint)]
    ensures client == FreshClient(construct, 0, service, region, clientOptions.View())
    ensures parameterOptions.View()
         == clientOptions.View()
            + [Endpoint(if clientOptions.len < clientOptions.cap then RegionalEndpoint(service, region) else parameterEndpoint)]
  {
    clientOptions, parameterOptions := StartupOptions(settings, proxy, secretEndpoint, parameterEndpoint, room);
    client := GetRegionalClient(service, region, clientOptions, construct, 0, room);
  }

  // ------------------------------------------------------------------- caches

  datatype Call = Call(service: Service, region: string)

  /** The clients of a server, and the constructor calls made for its caches so far. */
  datatype Clients = Clients(
    secret: Option<Client>,
    parameter: Option<Client>,
    regionalSecret: map<string, Option<Client>>,
    regionalParameter: map<string, Option<Client>>,
    calls: seq<Call>)

  function CacheOf(c: Clients, service: Service): map<string, Option<Client>> {
    match service
    case SecretManager => c.regionalSecret
    case ParameterManager => c.regionalParameter
  }

  /** Look the region up; construct and remember a client, or nil, when it is not there. */
  function EnsureRegion(construct: Constructor, base: seq<ClientOption>, c: Clients, service: Service, region: string): Clients {
    if region in CacheOf(c, service) then c
    else
      var client := FreshClient(construct, |c.calls|, service, region, base);
      var calls := c.calls + [Call(service, region)];
      match service
      case SecretManager => c.(regionalSecret := c.regionalSecret[region := client], calls := calls)
      case ParameterManager => c.(regionalParameter := c.regionalParameter[region := client], calls := calls)
  }

  function PrepareName(construct: Constructor, base: seq<ClientOption>, c: Clients, name: string): Clients {
    match RouteOf(name)
    case SecretIn(location) => EnsureRegion(construct, base, c, SecretManager, location)
    case ParameterIn(location) => EnsureRegion(construct, base, c, ParameterManager, location)
    case Rejected(_) => c
  }

  function PrepareAll(construct: Constructor, base: seq<ClientOption>, c: Clients, names: seq<string>): Clients {
    if names == [] then c
    else PrepareName(construct, base, PrepareAll(construct, base, c, names[..|names| - 1]), names[|names| - 1])
  }

  /** One mount: the constructor in force while it runs, and the names it configures. */
  datatype MountStep = MountStep(construct: Constructor, names: seq<string>)

  function AfterMounts(base: seq<ClientOption>, c: Clients, mounts: seq<MountStep>): Clients {
    if mounts == [] then c
    else
      var last := mounts[|mounts| - 1];
      PrepareAll(last.construct, base, AfterMounts(base, c, mounts[..|mounts| - 1]), last.names)
  }

  predicate RoutedTo(name: string, service: Service, region: string) {
    match RouteOf(name)
    case SecretIn(location) => service == SecretManager && region == location
    case ParameterIn(location) => service == ParameterManager && region == location
    case Rejected(_) => false
  }

  ghost predicate SomeRoutedTo(names: seq<string>, service: Service, region: string) {
    Any(names, name => RoutedTo(name, service, region))
  }

  ghost predicate Mentioned(mounts: seq<MountStep>, service: Service, region: string) {
    Any(mounts, (mount: MountStep) => SomeRoutedTo(mount.names, service, region))
  }

  // --------------------------------------------------------- cache invariants

  /** Entries are only added: what was cached stays, unchanged. */
  ghost predicate Grows(c: Clients, c': Clients) {
    && c'.secret == c.secret && c'.parameter == c.parameter
    && c.calls <= c'.calls
    && forall service, region {:trigger CacheOf(c', service)[region]} {:trigger region in CacheOf(c, service)} ::
         region in CacheOf(c, service) ==>
           region in CacheOf(c', service) && CacheOf(c', service)[region] == CacheOf(c, service)[region]
  }

  /** Every entry belongs to exactly one constructor call, and holds nil or a client
      built for that very service and region from the base options. */
  ghost predicate Consistent(base: seq<ClientOption>, c: Clients) {
    && NoDup(c.calls)
    && (forall service, region :: Call(service, region) in c.calls <==> region in CacheOf(c, service))
    && (forall service, region :: region in CacheOf(c, service) ==>
          CacheOf(c, service)[region] == None
          || CacheOf(c, service)[region] == Some(Client(service, base + [Endpoint(RegionalEndpoint(service, region))])))
  }

  lemma EnsureRegionConsistent(construct: Constructor, base: seq<ClientOption>, c: Clients, service: Service, region: string)
    requires Consistent(base, c) && region !in CacheOf(c, service)
    ensures Consistent(base, EnsureRegion(construct, base, c, service, region))
  {
    hide RegionalEndpoint, NoDup;
    var c' := EnsureRegion(construct, base, c, service, region);
    NoDupAppend(c.calls, Call(service, region));
    forall s, r
      ensures Call(s, r) in c'.calls <==> r in CacheOf(c', s)
    {
      assert Call(s, r) in c'.calls <==> Call(s, r) in c.calls || Call(s, r) == Call(service, region);
    }
  }

  lemma EnsureRegionKeeps(construct: Constructor, base: seq<ClientOption>, c: Clients, service: Service, region: string)
    ensures Grows(c, EnsureRegion(construct, base, c, service, region))
    ensures Consistent(base, c) ==> Consistent(base, EnsureRegion(construct, base, c, service, region))
    ensures forall s, r :: r in CacheOf(EnsureRegion(construct, base, c, service, region), s)
                      <==> r in CacheOf(c, s) || (s == service && r == region)
  {
    hide Consistent, FreshClient;
    if Consistent(base, c) && region !in CacheOf(c, service) {
      EnsureRegionConsistent(construct, base, c, service, region);
    }
  }

  lemma PrepareNameKeeps(construct: Constructor, base: seq<ClientOption>, c: Clients, name: string)
    ensures Grows(c, PrepareName(construct, base, c, name))
    ensures Consistent(base, c) ==> Consistent(base, PrepareName(construct, base, c, name))
    ensures forall s, r :: r in CacheOf(PrepareName(construct, base, c, name), s)
                      <==> r in CacheOf(c, s) || RoutedTo(name, s, r)
  {
    match RouteOf(name)
    case SecretIn(location) => EnsureRegionKeeps(construct, base, c, SecretManager, location);
    case ParameterIn(location) => EnsureRegionKeeps(construct, base, c, ParameterManager, location);
    case Rejected(_) =>
  }

  lemma GrowsTransitive(a: Clients, b: Clients, c: Clients)
    requires Grows(a, b) && Grows(b, c)
    ensures Grows(a, c)
  {
  }

  lemma {:induction false} PrepareAllKeeps(construct: Constructor, base: seq<ClientOption>, c: Clients, names: seq<string>)
    ensures Grows(c, PrepareAll(construct, base, c, names))
    ensures Consistent(base, c) ==> Consistent(base, PrepareAll(construct, base, c, names))
    ensures forall s, r :: r in CacheOf(PrepareAll(construct, base, c, names), s)
                      <==> r in CacheOf(c, s) || SomeRoutedTo(names, s, r)
  {
    if names == [] {
    } else {
      var init, last := names[..|names| - 1], names[|names| - 1];
      PrepareAllKeeps(construct, base, c, init);
      var mid := PrepareAll(construct, base, c, init);
      PrepareNameKeeps(construct, base, mid, last);
      GrowsTransitive(c, mid, PrepareName(construct, base, mid, last));
      forall s, r
        ensures SomeRoutedTo(names, s, r) <==> SomeRoutedTo(init, s, r) || RoutedTo(last, s, r)
      {
        AnyLast(names, name => RoutedTo(name, s, r));
      }
    }
  }

  /**
   Over any series of mounts, from any caches: nothing cached is removed or replaced,
   and the regions cached are those cached before plus those some name was routed to.
   */
  lemma {:induction false} CacheOnlyGrows(base: seq<ClientOption>, c: Clients, mounts: seq<MountStep>)
    ensures Grows(c, AfterMounts(base, c, mounts))
    ensures forall s, r :: r in CacheOf(AfterMounts(base, c, mounts), s)
                      <==> r in CacheOf(c, s) || Mentioned(mounts, s, r)
  {
    if mounts == [] {
    } else {
      var init, last := mounts[..|mounts| - 1], mounts[|mounts| - 1];
      CacheOnlyGrows(base, c, init);
      var mid := AfterMounts(base, c, init);
      PrepareAllKeeps(last.construct, base, mid, last.names);
      GrowsTransitive(c, mid, PrepareAll(last.construct, base, mid, last.names));
      forall s, r
        ensures Mentioned(mounts, s, r) <==> Mentioned(init, s, r) || SomeRoutedTo(last.names, s, r)
      {
        AnyLast(mounts, (mount: MountStep) => SomeRoutedTo(mount.names, s, r));
      }
    }
  }

  /**
   From empty caches, over any series of mounts whatever their constructors answer:
   each region of each service is constructed at most once, and its entry is nil or
   a client made for its own endpoint.
   */
  lemma {:induction false} CacheConsistentAlways(base: seq<ClientOption>, c: Clients, mounts: seq<MountStep>)
    requires c.regionalSecret == map[] && c.regionalParameter == map[] && c.calls == []
    ensures Consistent(base, AfterMounts(base, c, mounts))
  {
    if mounts == [] {
    } else {
      var init, last := mounts[..|mounts| - 1], mounts[|mounts| - 1];
      CacheConsistentAlways(base, c, init);
      PrepareAllKeeps(last.construct, base, AfterMounts(base, c, init), last.names);
    }
  }

  /** Over any series of mounts from empty caches, a cached client was built for its own
      service from the base options and the address of its region there. */
  lemma CachedAddresses(base: seq<ClientOption>, c: Clients, mounts: seq<MountStep>, region: string)
    requires c.regionalSecret == map[] && c.regionalParameter == map[] && c.calls == []
    ensures
      var after := AfterMounts(base, c, mounts);
      && (region in after.regionalSecret && after.regionalSecret[region].Some? ==>
            after.regionalSecret[region].value
            == Client(SecretManager, base + [Endpoint("secretmanager." + region + ".rep.googleapis.com:443")]))
      && (region in after.regionalParameter && after.regionalParameter[region].Some? ==>
            after.regionalParameter[region].value
            == Client(ParameterManager, base + [Endpoint("parametermanager." + region + ".rep.googleapis.com:443")]))
  {
    hide AfterMounts, NoDup;
    CacheConsistentAlways(base, c, mounts);
    var after := AfterMounts(base, c, mounts);
    assert region in CacheOf(after, SecretManager) <==> region in after.regionalSecret;
    assert region in CacheOf(after, ParameterManager) <==> region in after.regionalParameter;
  }

  // ------------------------------------------------------------------ routing

  /** A map read in Go: nil when the key is missing. */
  function Lookup(cache: map<string, Option<Client>>, region: string): Option<Client> {
    if region in cache then cache[region] else None
  }

  /** The client a fetcher uses: the global one for `""`, otherwise the cached one. */
  function ClientFor(c: Clients, route: Route): Option<Client> {
    match route
    case SecretIn(location) => if |location| == 0 then c.secret else Lookup(c.regionalSecret, location)
    case ParameterIn(location) => if |location| == 0 then c.parameter else Lookup(c.regionalParameter, location)
    case Rejected(_) => None
  }

  /** The same caches with other clients under the key that global names leave behind. */
  function WithEmptyKey(c: Clients, s: Option<Client>, p: Option<Client>): Clients {
    c.(regionalSecret := c.regionalSecret["" := s], regionalParameter := c.regionalParameter["" := p])
  }

  /** A regional name whose client is remembered as nil. */
  predicate DeadRegion(c: Clients, name: string) {
    match RouteOf(name)
    case SecretIn(location) => location != "" && location in c.regionalSecret && c.regionalSecret[location].None?
    case ParameterIn(location) => location != "" && location in c.regionalParameter && c.regionalParameter[location].None?
    case Rejected(_) => false
  }

  lemma DeadStaysDead(c: Clients, c': Clients, name: string)
    requires DeadRegion(c, name) && Grows(c, c')
    ensures DeadRegion(c', name) && ClientFor(c', RouteOf(name)) == None
  {
    match RouteOf(name)
    case SecretIn(location) => assert location in CacheOf(c, SecretManager);
    case ParameterIn(location) => assert location in CacheOf(c, ParameterManager);
  }

  /** A failed construction is never made good: over any further mounts, whatever their
      constructors would answer, the region's names get no client. */
  lemma NilNeverRecovers(base: seq<ClientOption>, c: Clients, mounts: seq<MountStep>, name: string)
    requires DeadRegion(c, name)
    ensures DeadRegion(AfterMounts(base, c, mounts), name)
    ensures ClientFor(AfterMounts(base, c, mounts), RouteOf(name)) == None
  {
    CacheOnlyGrows(base, c, mounts);
    DeadStaysDead(c, AfterMounts(base, c, mounts), name);
  }

  lemma MentionedBy(mounts: seq<MountStep>, m: nat, k: nat, service: Service, region: string)
    requires m < |mounts| && k < |mounts[m].names| && RoutedTo(mounts[m].names[k], service, region)
    ensures Mentioned(mounts, service, region)
  {
    AnyAt(mounts[m].names, name => RoutedTo(name, service, region), k);
    AnyAt(mounts, (mount: MountStep) => SomeRoutedTo(mount.names, service, region), m);
  }

  /**
   Routing after any series of mounts from empty caches, the last of which configures
   `name`: a regional name finds its key, and gets nil or a client of the right service
   for its own endpoint; a global name gets the global client, exactly then; and what
   is cached under "" is never read.
   */
  lemma RoutingAgreement(base: seq<ClientOption>, c: Clients, mounts: seq<MountStep>, k: nat, s: Option<Client>, p: Option<Client>)
    requires c.regionalSecret == map[] && c.regionalParameter == map[] && c.calls == []
    requires mounts != [] && k < |mounts[|mounts| - 1].names|
    ensures
      var name := mounts[|mounts| - 1].names[k];
      var after := AfterMounts(base, c, mounts);
      && ClientFor(WithEmptyKey(after, s, p), RouteOf(name)) == ClientFor(after, RouteOf(name))
      && match RouteOf(name)
         case Rejected(_) => true
         case SecretIn(location) =>
           (if location == "" then ClientFor(after, RouteOf(name)) == c.secret
            else location in after.regionalSecret
                 && ClientFor(after, RouteOf(name))
                    in {None, Some(Client(SecretManager, base + [Endpoint("secretmanager." + location + ".rep.googleapis.com:443")]))})
         case ParameterIn(location) =>
           (if location == "" then ClientFor(after, RouteOf(name)) == c.parameter
            else location in after.regionalParameter
                 && ClientFor(after, RouteOf(name))
                    in {None, Some(Client(ParameterManager, base + [Endpoint("parametermanager." + location + ".rep.googleapis.com:443")]))})
  {
    var name := mounts[|mounts| - 1].names[k];
    var after := AfterMounts(base, c, mounts);
    hide RouteOf, AfterMounts, Mentioned, NoDup;
    CacheConsistentAlways(base, c, mounts);
    CacheOnlyGrows(base, c, mounts);
    match RouteOf(name)
    case Rejected(_) =>
    case SecretIn(location) =>
      MentionedBy(mounts, |mounts| - 1, k, SecretManager, location);
      assert location in CacheOf(after, SecretManager);
    case ParameterIn(location) =>
      MentionedBy(mounts, |mounts| - 1, k, ParameterManager, location);
      assert location in CacheOf(after, ParameterManager);
  }
}
