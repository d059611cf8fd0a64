/**
 Go slices of client options over shared backing arrays, and `append`.
 */
module ClientOptions {

  datatype Service = SecretManager | ParameterManager

  datatype ClientOption = Endpoint(address: string) | Setting(id: nat)

  /** The address a regional client of `service` is built for. */
  function RegionalEndpoint(service: Service, region: string): string {
    match service
    case SecretManager => "secretmanager." + region + ".rep.googleapis.com:443"
    case ParameterManager => "parametermanager." + region + ".rep.googleapis.com:443"
  }

  /** Secrets of a region are asked of its secret manager and parameters of its parameter
      manager, and no two regions, and no two services, share an address. */
  lemma RegionalEndpointInjective(service: Service, region: string, service': Service, region': string)
    requires RegionalEndpoint(service, region) == RegionalEndpoint(service', region')
    ensures service == service' && region == region'
    ensures service == SecretManager ==> RegionalEndpoint(service, region) == "secretmanager." + region + ".rep.googleapis.com:443"
    ensures service == ParameterManager ==> RegionalEndpoint(service, region) == "parametermanager." + region + ".rep.googleapis.com:443"
  {
    var a, b := RegionalEndpoint(service, region), RegionalEndpoint(service', region');
    assert a[0] == b[0];
    assert service == service';
    var n := match service case SecretManager => |"secretmanager."| case ParameterManager => |"parametermanager."|;
    var m := |".rep.googleapis.com:443"|;
    assert region == a[n..|a| - m];
    assert region' == b[n..|b| - m];
  }

  /** A slice header: a window of length `len` and capacity `cap` into an array. */
  datatype Slice = Slice(backing: array<ClientOption>, start: nat, len: nat, cap: nat) {
    predicate Valid() {
      len <= cap && start + cap <= backing.Length
    }

    /** The visible elements. */
    ghost function View(): seq<ClientOption>
      requires Valid()
      reads backing
    {
      backing[start..start + len]
    }
  }

  /** The backing array after an append: the slot behind the window is written
      exactly when the capacity reaches it. */
  function Written(cells: seq<ClientOption>, start: nat, len: nat, cap: nat, x: ClientOption): seq<ClientOption>
    requires len <= cap && start + cap <= |cells|
  {
    if len < cap then cells[start + len := x] else cells
  }

  /**
   Go's `append(s, x)`. With spare capacity the element goes into the shared array;
   otherwise a new array is made, with `room` further slots chosen by the runtime.
   */
  method Append(s: Slice, x: ClientOption, room: nat) returns (r: Slice)
    requires s.Valid()
    modifies s.backing
    ensures r.Valid() && s.Valid()
    ensures r.View() == old(s.View()) + [x]
    ensures s.View() == old(s.View())
    ensures s.backing[..] == Written(old(s.backing[..]), s.start, s.len, s.cap, x)
    ensures r.backing == s.backing <==> s.len < s.cap
    ensures s.len < s.cap ==> r == s.(len := s.len + 1)
    ensures r.backing != s.backing ==> fresh(r.backing)
  {
    if s.len < s.cap {
      s.backing[s.start + s.len] := x;
      r := s.(len := s.len + 1);
    } else {
      var grown := new ClientOption[s.len + 1 + room];
      for k := 0 to s.len
        invariant forall j :: 0 <= j < k ==> grown[j] == s.backing[s.start + j]
        invariant s.backing[..] == old(s.backing[..])
      {
        grown[k] := s.backing[s.start + k];
      }
      grown[s.len] := x;
      r := Slice(grown, 0, s.len + 1, grown.Length);
      assert grown[..s.len] == s.View();
    }
  }

  /**
   Two appends to the same base slice with spare capacity. Neither changes the base,
   and the second reads back what it appended; but both share one slot, so the slice
   returned by the first survives exactly when the same option was appended again.
   */
  lemma EarlierAppendSurvives(cells: seq<ClientOption>, start: nat, len: nat, cap: nat, x: ClientOption, y: ClientOption)
    requires len < cap && start + cap <= |cells|
    ensures
      var once := Written(cells, start, len, cap, x);
      var twice := Written(once, start, len, cap, y);
      && twice[start..start + len] == cells[start..start + len]
      && twice[start..start + len + 1] == cells[start..start + len] + [y]
      && (twice[start..start + len + 1] == once[start..start + len + 1] <==> x == y)
  {
    var once := Written(cells, start, len, cap, x);
    var twice := Written(once, start, len, cap, y);
    assert once[start..start + len + 1][len] == x;
    assert twice[start..start + len + 1][len] == y;
  }

  /**
   The option slices built at start-up: a four-element literal, the global secret
   endpoint when no proxy is configured, and the parameter manager's own copy.
   */
  method StartupOptions(settings: seq<ClientOption>, proxy: bool, secretEndpoint: string, parameterEndpoint: string, room: nat)
    returns (clientOptions: Slice, parameterOptions: Slice)
    requires |settings| == 4
    ensures clientOptions.Valid() && parameterOptions.Valid()
    ensures fresh(clientOptions.backing) && fresh(parameterOptions.backing)
    ensures clientOptions.View() == settings + if proxy then [] else [Endpoint(secretEndpoint)]
    ensures parameterOptions.View() == clientOptions.View() + [Endpoint(parameterEndpoint)]
    ensures parameterOptions.backing == clientOptions.backing <==> clientOptions.len < clientOptions.cap
    ensures clientOptions.len < clientOptions.cap ==> parameterOptions == clientOptions.(len := clientOptions.len + 1)
    ensures clientOptions.len < clientOptions.cap ==> !proxy
  {
    var literal := new ClientOption[4](i requires 0 <= i < 4 => settings[i]);
    clientOptions := Slice(literal, 0, 4, 4);
    assert clientOptions.View() == settings;
    if !proxy {
      clientOptions := Append(clientOptions, Endpoint(secretEndpoint), room);
    }
    parameterOptions := Append(clientOptions, Endpoint(parameterEndpoint), room);
  }
}
