/** The network-data interpreters of BaseOpenStackService
    (cloudbaseinit/metadata/services/baseopenstackservice.py): the L2, L3
    and L4 parsers over a decoded network_data.json, and the choice between
    that document and the legacy `network_config` entry of meta_data.json. */
module OpenStackNetwork {
  import opened PyText
  import opened JsonValues
  import opened TypedEntries

  /** One link of the L2 configuration; `JNull` stands for a field left None. */
  datatype ParsedLink = ParsedLink(
    name: Json,
    linkType: Option<string>,
    metaType: Json,
    macAddress: Option<string>,
    mtu: Json,
    bondMembers: Json,
    bondMode: Json,
    vlanId: Json)

  /** One network of the L3 configuration. `id` and `linkName` are `None`
      where the source never adds the "id" or "link_name" key at all. */
  datatype ParsedNetwork = ParsedNetwork(
    id: Option<Json>,
    name: Json,
    netType: Option<string>,
    metaType: Json,
    linkName: Option<Json>,
    macAddress: Option<string>,
    ipAddress: Json,
    netmask: Json,
    gateway: Json,
    routes: Json)

  /** `base.AdvancedNetworkDetails(l2, l3, l4)`; `services` is the
      "dns_config" list of the L4 dict. */
  datatype AdvancedNetworkDetails = AdvancedNetworkDetails(
    links: Option<seq<ParsedLink>>,
    networks: Option<seq<ParsedNetwork>>,
    services: Option<seq<Json>>)

  /** What `get_network_details` settles on: the parsed network_data.json,
      the name of the legacy interfaces file to read, or None. */
  datatype NetworkSource =
    | Advanced(details: AdvancedNetworkDetails)
    | LegacyContent(contentName: string)
    | NoNetworkDetails

  /** The Python value of a field set only when its source is truthy. */
  function IfTruthy(j: Json): Json {
    if Truthy(j) then j else JNull
  }

  // ---------------------------------------------------------------- L2

  /** The `type` given to a link whose metadata type is the truthy `t`:
      "phy", "vlan" and "bond" are kept, everything else ("ovs", "vif" and
      unknown types) becomes "phy". */
  function NormalisedLinkType(t: Json): (r: string)
    ensures r == "phy" || r == "vlan" || r == "bond"
    ensures t == JStr("phy") || t == JStr("vlan") || t == JStr("bond") ==> JStr(r) == t
    ensures r != "phy" ==> JStr(r) == t
    ensures t == JStr("ovs") || t == JStr("vif") ==> r == "phy"
  {
    if t in [JStr("ovs"), JStr("vif")] then "phy"
    else if t in [JStr("phy"), JStr("vlan")] then t.s
    else if t == JStr("bond") then t.s
    else "phy"
  }

  /** One iteration of the L2 loop. `link["id"]` and `link["type"]` must
      exist; the MAC address is upper-cased, which fails on a non-string. */
  function ParseLink(link: Json): (r: Result<ParsedLink>)
    ensures !link.JObj? ==> r == Fail(TypeError)
    ensures link.JObj? && "id" !in link.fields ==> r == Fail(KeyError("id"))
    ensures link.JObj? && "id" in link.fields && "type" !in link.fields ==> r == Fail(KeyError("type"))
    ensures r.Ok? <==>
      && link.JObj? && "id" in link.fields && "type" in link.fields
      && (Truthy(GetField(link.fields, "ethernet_mac_address")) ==> GetField(link.fields, "ethernet_mac_address").JStr?)
    ensures r.Ok? ==>
      var t := link.fields["type"];
      && r.value.name == IfTruthy(link.fields["id"])
      && r.value.metaType == IfTruthy(t)
      && (r.value.linkType.Some? <==> Truthy(t))
      && (Truthy(t) ==> r.value.linkType == Some(NormalisedLinkType(t)))
      && (r.value.bondMembers != JNull || r.value.bondMode != JNull ==> t == JStr("bond"))
      && (t == JStr("bond") ==>
            r.value.bondMembers == IfTruthy(GetField(link.fields, "bond_links")) &&
            r.value.bondMode == IfTruthy(GetField(link.fields, "bond_mode")))
      && r.value.mtu == IfTruthy(GetField(link.fields, "mtu"))
      && r.value.vlanId == JNull
    ensures r.Ok? ==>
      var mac := GetField(link.fields, "ethernet_mac_address");
      && (r.value.macAddress.Some? <==> Truthy(mac))
      && (Truthy(mac) ==> r.value.macAddress == Some(Upper(mac.s)))
  {
    var id :- Subscript(link, "id");
    var ty :- Subscript(link, "type");
    // both lookups succeeded, so `link` is a dict and `link.get` cannot fail
    var isBond := Truthy(ty) && ty == JStr("bond");
    var bondLinks := GetField(link.fields, "bond_links");
    var bondMode := GetField(link.fields, "bond_mode");
    var mtu := GetField(link.fields, "mtu");
    var mac := GetField(link.fields, "ethernet_mac_address");
    var macAddress :-
      if !Truthy(mac) then Ok(None)
      else if mac.JStr? then Ok(Some(Upper(mac.s)))
      else Fail(AttributeError("upper"));
    Ok(ParsedLink(
      name := IfTruthy(id),
      linkType := if Truthy(ty) then Some(NormalisedLinkType(ty)) else None,
      metaType := IfTruthy(ty),
      macAddress := macAddress,
      mtu := IfTruthy(mtu),
      bondMembers := if isBond then IfTruthy(bondLinks) else JNull,
      bondMode := if isBond then IfTruthy(bondMode) else JNull,
      vlanId := JNull))
  }

  /** `_parse_l2_network_data`: None when the document or its "links" is
      falsy, otherwise one parsed link per input link. */
  function L2Config(networkData: Json): Result<Option<seq<ParsedLink>>> {
    if !Truthy(networkData) then Ok(None)
    else
      var links :- Subscript(networkData, "links");
      if !Truthy(links) then Ok(None)
      else
        var items :- IterateDicts(links, TypeError);
        var parsed :- MapAll(items, ParseLink);
        Ok(Some(parsed))
  }

  /** The L2 configuration is None exactly for a falsy document or a falsy
      "links"; otherwise it maps the links one to one, in order. */
  lemma L2ConfigOneToOne(networkData: Json)
    requires L2Config(networkData).Ok?
    ensures L2Config(networkData).value.None? <==>
      !Truthy(networkData) || !Truthy(networkData.fields["links"])
    ensures L2Config(networkData).value.Some? ==>
      && networkData.fields["links"].JArr?
      && var links := networkData.fields["links"].items;
         var parsed := L2Config(networkData).value.value;
         && parsed != []
         && |parsed| == |links|
         && forall i :: 0 <= i < |links| ==> Some(parsed[i]) == (match ParseLink(links[i]) case Ok(p) => Some(p) case Fail(_) => None)
  {
  }

  /** The L2 loop: parse each link in turn and append it. */
  method ParseL2NetworkData(networkData: Json) returns (r: Result<Option<seq<ParsedLink>>>)
    ensures r == L2Config(networkData)
  {
    if !Truthy(networkData) {
      return Ok(None);
    }
    var links := Subscript(networkData, "links");
    if links.Fail? {
      return Fail(links.fault);
    }
    if !Truthy(links.value) {
      return Ok(None);
    }
    var items := IterateDicts(links.value, TypeError);
    if items.Fail? {
      return Fail(items.fault);
    }
    var parsedLinks: seq<ParsedLink> := [];
    for i := 0 to |items.value|
      invariant MapAll(items.value[..i], ParseLink) == Ok(parsedLinks)
    {
      MapAllStep(items.value, ParseLink, i);
      var parsed := ParseLink(items.value[i]);
      if parsed.Fail? {
        return Fail(parsed.fault);
      }
      parsedLinks := parsedLinks + [parsed.value];
    }
    assert items.value[..|items.value|] == items.value;
    return Ok(Some(parsedLinks));
  }

  // ---------------------------------------------------------------- L3

  /** The L3 types that are copied to `type`. */
  predicate IsL3Type(t: Json) {
    t in [JStr("ipv4"), JStr("ipv6"), JStr("ipv4_dhcp"), JStr("ipv6_dhcp")]
  }

  /** A route to 0.0.0.0/0.0.0.0 or ::/:: (looked up with `route.get`). */
  predicate IsDefaultRoute(route: Json) {
    route.JObj? &&
    var network, netmask := GetField(route.fields, "network"), GetField(route.fields, "netmask");
    (network == JStr("0.0.0.0") && netmask == JStr("0.0.0.0")) || (network == JStr("::") && netmask == JStr("::"))
  }

  /** The gateway of a truthy `routes` value: the comprehension reads
      `route.get(...)` on every route, then the first default route's
      "gateway" is taken when it is truthy. */
  function RouteGateway(routes: Json): (r: Result<Json>)
    ensures r.Ok? ==> routes.JArr? || routes == JStr([]) || routes == JObj(map[])
    ensures routes.JArr? ==>
      var rs := routes.items;
      && ((exists i :: 0 <= i < |rs| && !rs[i].JObj?) ==> r == Fail(AttributeError("get")))
      && ((forall i :: 0 <= i < |rs| ==> rs[i].JObj?) ==>
            && ((forall i :: 0 <= i < |rs| ==> !IsDefaultRoute(rs[i])) ==> r == Ok(JNull))
            && (forall k :: 0 <= k < |rs| && IsDefaultRoute(rs[k]) && (forall i :: 0 <= i < k ==> !IsDefaultRoute(rs[i])) ==>
                  r == (if "gateway" in rs[k].fields then Ok(IfTruthy(rs[k].fields["gateway"])) else Fail(KeyError("gateway")))))
  {
    var items :- IterateDicts(routes, AttributeError("get"));
    if exists i :: 0 <= i < |items| && !items[i].JObj? then Fail(AttributeError("get"))
    else
      var k := FirstIndex(items, IsDefaultRoute);
      if k == |items| then Ok(JNull)
      else
        var gateway :- Subscript(items[k], "gateway");
        Ok(IfTruthy(gateway))
  }

  /** The MAC address of the first L2 link named `link` (line 159 iterates
      the L2 configuration, which fails when it is None), kept when truthy. */
  function LinkMac(l2: Option<seq<ParsedLink>>, link: Json): (r: Result<Option<string>>)
    ensures l2.None? <==> r.Fail?
    ensures l2.Some? && r.value.Some? ==>
      exists k :: 0 <= k < |l2.value| && l2.value[k].name == link && l2.value[k].macAddress == r.value
                  && r.value.value != [] && forall i :: 0 <= i < k ==> l2.value[i].name != link
    ensures l2.Some? && (forall i :: 0 <= i < |l2.value| ==> l2.value[i].name != link) ==> r == Ok(None)
    ensures l2.Some? ==> forall k ::
      0 <= k < |l2.value| && l2.value[k].name == link && (forall i :: 0 <= i < k ==> l2.value[i].name != link) ==>
        r == (if l2.value[k].macAddress.Some? && l2.value[k].macAddress.value != [] then Ok(l2.value[k].macAddress)
              else Ok(None))
  {
    match l2
    case None => Fail(TypeError)
    case Some(links) =>
      var k := FirstIndex(links, (x: ParsedLink) => x.name == link);
      assert forall j :: 0 <= j < |links| && links[j].name == link && (forall i :: 0 <= i < j ==> links[i].name != link) ==> j == k;
      if k < |links| && links[k].macAddress.Some? && links[k].macAddress.value != [] then Ok(links[k].macAddress)
      else Ok(None)
  }

  /** One iteration of the L3 loop. */
  function ParseNetwork(network: Json, l2: Option<seq<ParsedLink>>): (r: Result<ParsedNetwork>)
    ensures !network.JObj? ==> r == Fail(TypeError)
    ensures network.JObj? ==> var f := network.fields;
      && ("network_id" !in f ==> r == Fail(KeyError("network_id")))
      && ("network_id" in f && "id" !in f ==> r == Fail(KeyError("id")))
      && ("network_id" in f && "id" in f && "type" !in f ==> r == Fail(KeyError("type")))
      && ("network_id" in f && "id" in f && "type" in f && "link" !in f ==> r == Fail(KeyError("link")))
    ensures network.JObj? ==> var f := network.fields;
      "network_id" in f && "id" in f && "type" in f && "link" in f ==>
      && (Truthy(f["link"]) && l2.None? ==> r == Fail(TypeError))
      && ((Truthy(f["link"]) ==> l2.Some?) && "ip_address" !in f ==> r == Fail(KeyError("ip_address")))
      && ((Truthy(f["link"]) ==> l2.Some?) && "ip_address" in f && "routes" !in f ==> r == Fail(KeyError("routes")))
      && ((Truthy(f["link"]) ==> l2.Some?) && "ip_address" in f && "routes" in f && Truthy(f["routes"]) ==>
            var gateway := RouteGateway(f["routes"]);
            gateway.Fail? ==> r == Fail(gateway.fault))
    ensures r.Ok? <==> network.JObj? && var f := network.fields;
      && "network_id" in f && "id" in f && "type" in f && "link" in f && "ip_address" in f && "routes" in f
      && (Truthy(f["link"]) ==> l2.Some?)
      && (Truthy(f["routes"]) ==> RouteGateway(f["routes"]).Ok?)
    ensures r.Ok? ==> network.JObj? && var f := network.fields;
      && "network_id" in f && "id" in f && "type" in f && "link" in f && "ip_address" in f && "routes" in f
      && r.value.id == (if Truthy(f["network_id"]) then Some(f["network_id"]) else None)
      && r.value.name == IfTruthy(f["id"])
      && r.value.metaType == IfTruthy(f["type"])
      && (r.value.netType.Some? <==> IsL3Type(f["type"]))
      && (r.value.netType.Some? ==> JStr(r.value.netType.value) == f["type"])
      && r.value.linkName == (if Truthy(f["link"]) then Some(f["link"]) else None)
      && (Truthy(f["link"]) ==> Ok(r.value.macAddress) == LinkMac(l2, f["link"]))
      && (!Truthy(f["link"]) ==> r.value.macAddress.None?)
      && r.value.ipAddress == IfTruthy(f["ip_address"])
      && r.value.netmask == IfTruthy(GetField(f, "netmask"))
      && r.value.routes == IfTruthy(f["routes"])
      && (Truthy(f["routes"]) ==> Ok(r.value.gateway) == RouteGateway(f["routes"]))
      && (!Truthy(f["routes"]) ==> r.value.gateway == JNull)
  {
    var networkId :- Subscript(network, "network_id");
    var id :- Subscript(network, "id");
    var ty :- Subscript(network, "type");
    var link :- Subscript(network, "link");
    var macAddress :- if Truthy(link) then LinkMac(l2, link) else Ok(None);
    var ipAddress :- Subscript(network, "ip_address");
    var netmask := GetField(network.fields, "netmask");
    var routes :- Subscript(network, "routes");
    var gateway :- if Truthy(routes) then RouteGateway(routes) else Ok(JNull);
    Ok(ParsedNetwork(
      id := if Truthy(networkId) then Some(networkId) else None,
      name := IfTruthy(id),
      netType := if Truthy(ty) && IsL3Type(ty) then Some(ty.s) else None,
      metaType := IfTruthy(ty),
      linkName := if Truthy(link) then Some(link) else None,
      macAddress := macAddress,
      ipAddress := IfTruthy(ipAddress),
      netmask := IfTruthy(netmask),
      gateway := gateway,
      routes := IfTruthy(routes)))
  }

  function NetworkParser(l2: Option<seq<ParsedLink>>): Json -> Result<ParsedNetwork> {
    network => ParseNetwork(network, l2)
  }

  /** `_parse_l3_network_data`: None when the document or its "networks" is
      falsy, otherwise one parsed network per input network. */
  function L3Config(networkData: Json, l2: Option<seq<ParsedLink>>): Result<Option<seq<ParsedNetwork>>> {
    if !Truthy(networkData) then Ok(None)
    else
      var networks :- Subscript(networkData, "networks");
      if !Truthy(networks) then Ok(None)
      else
        var items :- IterateDicts(networks, TypeError);
        var parsed :- MapAll(items, NetworkParser(l2));
        Ok(Some(parsed))
  }

  /** The L3 configuration is None exactly for a falsy document or a falsy
      "networks"; otherwise it maps the networks one to one, in order, each
      parsed against the same L2 configuration. */
  lemma L3ConfigOneToOne(networkData: Json, l2: Option<seq<ParsedLink>>)
    requires L3Config(networkData, l2).Ok?
    ensures L3Config(networkData, l2).value.None? <==>
      !Truthy(networkData) || !Truthy(networkData.fields["networks"])
    ensures L3Config(networkData, l2).value.Some? ==>
      && networkData.fields["networks"].JArr?
      && var networks := networkData.fields["networks"].items;
         var parsed := L3Config(networkData, l2).value.value;
         && parsed != []
         && |parsed| == |networks|
         && forall i :: 0 <= i < |networks| ==> ParseNetwork(networks[i], l2) == Ok(parsed[i])
  {
    if L3Config(networkData, l2).value.Some? {
      var networks := networkData.fields["networks"].items;
      assert forall i :: 0 <= i < |networks| ==> NetworkParser(l2)(networks[i]) == ParseNetwork(networks[i], l2);
    }
  }

  /** The L3 loop: parse each network in turn and append it. */
  method ParseL3NetworkData(networkData: Json, l2: Option<seq<ParsedLink>>) returns (r: Result<Option<seq<ParsedNetwork>>>)
    ensures r == L3Config(networkData, l2)
  {
    if !Truthy(networkData) {
      return Ok(None);
    }
    var networks := Subscript(networkData, "networks");
    if networks.Fail? {
      return Fail(networks.fault);
    }
    if !Truthy(networks.value) {
      return Ok(None);
    }
    var items := IterateDicts(networks.value, TypeError);
    if items.Fail? {
      return Fail(items.fault);
    }
    var parsedNetworks: seq<ParsedNetwork> := [];
    for i := 0 to |items.value|
      invariant MapAll(items.value[..i], NetworkParser(l2)) == Ok(parsedNetworks)
    {
      MapAllStep(items.value, NetworkParser(l2), i);
      var parsed := ParseNetwork(items.value[i], l2);
      if parsed.Fail? {
        return Fail(parsed.fault);
      }
      parsedNetworks := parsedNetworks + [parsed.value];
    }
    assert items.value[..|items.value|] == items.value;
    return Ok(Some(parsedNetworks));
  }

  // ---------------------------------------------------------------- L4

  /** `_parse_l4_network_data`: None when the document or its "services" is
      falsy, otherwise the "address" of every "dns" service, in order. */
  function L4Config(networkData: Json): Result<Option<seq<Json>>> {
    if !Truthy(networkData) then Ok(None)
    else
      var services :- Subscript(networkData, "services");
      if !Truthy(services) then Ok(None)
      else
        var items :- IterateDicts(services, TypeError);
        var dns :- SelectByType(items, "dns", "address");
        Ok(Some(dns))
  }

  /** The L4 configuration is None exactly for a falsy document or a falsy
      "services"; otherwise "services" is a list of dicts with a "type", and
      the configuration lists exactly the "address" of its "dns" services. */
  lemma L4DnsAddresses(networkData: Json)
    requires L4Config(networkData).Ok?
    ensures L4Config(networkData).value.None? <==>
      !Truthy(networkData) || !Truthy(networkData.fields["services"])
    ensures L4Config(networkData).value.Some? ==>
      && networkData.fields["services"].JArr?
      && var services := networkData.fields["services"].items;
         && Selectable(services, "dns", "address")
         && forall v :: v in L4Config(networkData).value.value <==> IsSelected(services, "dns", "address", v)
  {
    if Truthy(networkData) && Truthy(networkData.fields["services"]) {
      SelectByTypeCharacterised(networkData.fields["services"].items, "dns", "address");
    }
  }

  /** The L4 loop, which collects the addresses of the "dns" services. */
  method ParseL4NetworkData(networkData: Json) returns (r: Result<Option<seq<Json>>>)
    ensures r == L4Config(networkData)
  {
    if !Truthy(networkData) {
      return Ok(None);
    }
    var services := Subscript(networkData, "services");
    if services.Fail? {
      return Fail(services.fault);
    }
    if !Truthy(services.value) {
      return Ok(None);
    }
    var items := IterateDicts(services.value, TypeError);
    if items.Fail? {
      return Fail(items.fault);
    }
    var dns := CollectByType(items.value, "dns", "address");
    if dns.Fail? {
      return Fail(dns.fault);
    }
    return Ok(Some(dns.value));
  }

  // ---------------------------------------------------------------- source selection

  /** `_parse_network_data`: the three layers, parsed in the order L2, L3, L4. */
  function ParseNetworkData(networkData: Json): (r: Result<Option<AdvancedNetworkDetails>>)
    ensures !Truthy(networkData) ==> r == Ok(None)
    ensures Truthy(networkData) && L2Config(networkData).Fail? ==> r == Fail(L2Config(networkData).fault)
    ensures Truthy(networkData) && L2Config(networkData).Ok? ==>
      var l3 := L3Config(networkData, L2Config(networkData).value);
      && (l3.Fail? ==> r == Fail(l3.fault))
      && (l3.Ok? && L4Config(networkData).Fail? ==> r == Fail(L4Config(networkData).fault))
    ensures r.Ok? && Truthy(networkData) ==>
      && r.value.Some?
      && var details := r.value.value;
      && L2Config(networkData) == Ok(details.links)
      && L3Config(networkData, details.links) == Ok(details.networks)
      && L4Config(networkData) == Ok(details.services)
  {
    if !Truthy(networkData) then Ok(None)
    else
      var l2 :- L2Config(networkData);
      var l3 :- L3Config(networkData, l2);
      var l4 :- L4Config(networkData);
      Ok(Some(AdvancedNetworkDetails(l2, l3, l4)))
  }

  /** `get_network_details` up to the point where the legacy interfaces
      file would be read. `networkData` is the decoded network_data.json
      (`JNull` when it is missing or empty), `metaData` the decoded
      meta_data.json. */
  function NetworkDetails(networkData: Json, metaData: Json): (r: Result<NetworkSource>)
    ensures Truthy(networkData) ==>
      r == (match ParseNetworkData(networkData)
            case Ok(details) => Ok(Advanced(details.value))
            case Fail(e) => Fail(e))
    ensures !Truthy(networkData) && !metaData.JObj? ==> r == Fail(AttributeError("get"))
    ensures !Truthy(networkData) && metaData.JObj? ==>
      var config := GetField(metaData.fields, "network_config");
      && (!Truthy(config) ==> r == Ok(NoNetworkDetails))
      && (config.JObj? && Truthy(config) && "content_path" !in config.fields ==> r == Ok(NoNetworkDetails))
      && (config.JObj? && "content_path" in config.fields && config.fields["content_path"].JStr? ==>
            r == Ok(LegacyContent(LastSegment(config.fields["content_path"].s))))
  {
    if Truthy(networkData) then
      var details :- ParseNetworkData(networkData);
      Ok(Advanced(details.value))
    else
      var config :- Get(metaData, "network_config");
      if !Truthy(config) then Ok(NoNetworkDetails)
      else
        var hasPath :- Contains(config, "content_path");
        if !hasPath then Ok(NoNetworkDetails)
        else
          var contentPath :- Subscript(config, "content_path");
          if contentPath.JStr? then Ok(LegacyContent(LastSegment(contentPath.s)))
          else Fail(AttributeError("rsplit"))
  }

  /** meta_data.json is consulted only when network_data.json is missing or
      falsy. */
  lemma NetworkDataTakesPrecedence(networkData: Json, metaData1: Json, metaData2: Json)
    requires Truthy(networkData)
    ensures NetworkDetails(networkData, metaData1) == NetworkDetails(networkData, metaData2)
  {
  }

  /** `get_network_details` with the three parsing loops. */
  method GetNetworkDetails(networkData: Json, metaData: Json) returns (r: Result<NetworkSource>)
    ensures r == NetworkDetails(networkData, metaData)
  {
    if Truthy(networkData) {
      var l2 := ParseL2NetworkData(networkData);
      if l2.Fail? {
        return Fail(l2.fault);
      }
      var l3 := ParseL3NetworkData(networkData, l2.value);
      if l3.Fail? {
        return Fail(l3.fault);
      }
      var l4 := ParseL4NetworkData(networkData);
      if l4.Fail? {
        return Fail(l4.fault);
      }
      return Ok(Advanced(AdvancedNetworkDetails(l2.value, l3.value, l4.value)));
    }
    r := NetworkDetails(networkData, metaData);
  }
}
