/** The six cluster objects of one ingest deployment: their names, how they are built, and how the leased
    port is found again inside them. */
module IngestResources {
  import opened Wrappers
  import opened PortRanges

  newtype int32 = x: int | -0x8000_0000 <= x < 0x8000_0000

  const OWNED_BY := "app.kubernetes.io/owned-by"
  const CREATED_BY := "app.kubernetes.io/created-by"
  const BROADCASTER_ID := "romashorodok.github.io/ingest.broadcaster-id"
  const WEBRTC_UDP := "webrtc-udp"
  const WEBRTC_TCP := "webrtc-tcp"
  const UDP_GATEWAY_SUFFIX := "-webrtc-udp-gateway"
  const TCP_GATEWAY_SUFFIX := "-webrtc-tcp-gateway"
  const DEFAULT_GATEWAY_PORT: int32 := 80

  // ---------- Cluster objects ----------

  datatype Kind = DeploymentKind | ServiceKind | GatewayKind | VirtualServiceKind

  datatype Key = Key(kind: Kind, namespace: string, name: string)

  type Labels = map<string, string>

  datatype ContainerPort = ContainerPort(name: string, containerPort: int32, protocol: string)

  datatype ServicePort = ServicePort(name: string, port: int32, protocol: string)

  datatype Container = Container(name: string, image: string, ports: seq<ContainerPort>)

  datatype Route = Route(host: string, number: int32)

  datatype Object =
    | Deployment(labels: Labels, podApp: string, containers: seq<Container>)
    | Service(labels: Labels, selector: string, headless: bool, servicePorts: seq<ServicePort>)
    | Gateway(labels: Labels, host: string, number: int32)
    | VirtualService(labels: Labels, host: string, gateway: string, routes: seq<Route>)

  predicate OfKind(o: Object, kind: Kind) {
    match kind
    case DeploymentKind => o.Deployment?
    case ServiceKind => o.Service?
    case GatewayKind => o.Gateway?
    case VirtualServiceKind => o.VirtualService?
  }

  type Cluster = map<Key, Object>

  // ---------- Names ----------

  datatype App = App(namespace: string, name: string)

  // One goroutine, and one object, of Start and Stop.
  datatype Slot = Ingest | Headless | UdpGateway | TcpGateway | IstioGateway | Routing

  const ALL_SLOTS: set<Slot> := {Ingest, Headless, UdpGateway, TcpGateway, IstioGateway, Routing}

  lemma EverySlot()
    ensures forall s :: s in ALL_SLOTS
  {
    forall s
      ensures s in ALL_SLOTS
    {
      match s case Ingest => case Headless => case UdpGateway => case TcpGateway => case IstioGateway => case Routing =>
    }
  }

  function KeyOf(app: App, slot: Slot): Key {
    match slot
    case Ingest => Key(DeploymentKind, app.namespace, app.name)
    case Headless => Key(ServiceKind, app.namespace, app.name)
    case UdpGateway => Key(ServiceKind, app.namespace, app.name + UDP_GATEWAY_SUFFIX)
    case TcpGateway => Key(ServiceKind, app.namespace, app.name + TCP_GATEWAY_SUFFIX)
    case IstioGateway => Key(GatewayKind, app.namespace, app.name + "-gateway")
    case Routing => Key(VirtualServiceKind, app.namespace, app.name + "-virtual-service")
  }

  predicate EndsWith(s: string, suffix: string) {
    |suffix| <= |s| && s[|s| - |suffix|..] == suffix
  }

  // Names no other app's gateway services can be called by.
  predicate GoodName(app: App) {
    !EndsWith(app.name, "-webrtc-udp-gateway") && !EndsWith(app.name, "-webrtc-tcp-gateway")
  }

  lemma SuffixDecides(a: string, b: string, suffix: string)
    requires a + suffix == b + suffix
    ensures a == b
  {
    assert a == (a + suffix)[..|a|];
    assert b == (b + suffix)[..|b|];
  }

  lemma GatewaySuffixesDiffer(a: string, b: string)
    ensures a + UDP_GATEWAY_SUFFIX != b + TCP_GATEWAY_SUFFIX
  {
    assert |UDP_GATEWAY_SUFFIX| == |TCP_GATEWAY_SUFFIX|;
    assert (a + UDP_GATEWAY_SUFFIX)[|a| + 8] == 'u';
    assert (b + TCP_GATEWAY_SUFFIX)[|b| + 8] == 't';
  }

  // The six keys of one app are distinct, whatever its name.
  lemma SlotsHaveOwnKeys(app: App)
    ensures forall s, t | KeyOf(app, s) == KeyOf(app, t) :: s == t
  {
    GatewaySuffixesDiffer(app.name, app.name);
  }

  predicate IsGatewayOf(a: App, b: App) {
    && a.namespace == b.namespace
    && (a.name == b.name + "-webrtc-udp-gateway" || a.name == b.name + "-webrtc-tcp-gateway")
  }

  // One of the two apps is called like a webrtc gateway service of the other.
  predicate Collide(a: App, b: App) {
    IsGatewayOf(a, b) || IsGatewayOf(b, a)
  }

  // Two apps share a key exactly when they collide.
  lemma AppsShareKey(a: App, b: App)
    requires a != b
    ensures (exists s, t :: KeyOf(a, s) == KeyOf(b, t)) <==> Collide(a, b)
  {
    if s, t :| KeyOf(a, s) == KeyOf(b, t) {
      AppsShareNoKey(a, b, s, t);
    }
    if Collide(a, b) {
      CollidingKeys(a, b);
    }
  }

  // Where the names of colliding apps meet: a gateway service of one is the headless service of the other.
  lemma CollidingKeys(a: App, b: App)
    requires Collide(a, b)
    ensures exists s, t ::
              KeyOf(a, s) == KeyOf(b, t) && (s == Headless <==> IsGatewayOf(a, b))
              && (t == Headless <==> !IsGatewayOf(a, b))
  {
    var (long, short) := if IsGatewayOf(a, b) then (a, b) else (b, a);
    var gateway := if long.name == short.name + UDP_GATEWAY_SUFFIX then UdpGateway else TcpGateway;
    assert KeyOf(long, Headless) == KeyOf(short, gateway);
    var s, t := if IsGatewayOf(a, b) then Headless else gateway, if IsGatewayOf(a, b) then gateway else Headless;
    assert KeyOf(a, s) == KeyOf(b, t);
  }

  // Apps with good names share no key.
  lemma AppsShareNoKey(a: App, b: App, s: Slot, t: Slot)
    requires a != b && KeyOf(a, s) == KeyOf(b, t)
    ensures Collide(a, b)
    ensures !GoodName(a) || !GoodName(b)
  {
    GatewaySuffixesDiffer(a.name, b.name);
    GatewaySuffixesDiffer(b.name, a.name);
    if s == t {
      SameSlot(a, b, s);
    } else {
      assert EndsWith(a.name + UDP_GATEWAY_SUFFIX, UDP_GATEWAY_SUFFIX);
      assert EndsWith(a.name + TCP_GATEWAY_SUFFIX, TCP_GATEWAY_SUFFIX);
      assert EndsWith(b.name + UDP_GATEWAY_SUFFIX, UDP_GATEWAY_SUFFIX);
      assert EndsWith(b.name + TCP_GATEWAY_SUFFIX, TCP_GATEWAY_SUFFIX);
    }
  }

  // An app that is called like a gateway service does share a key with another app.
  lemma BadNameCollides(b: App)
    requires !GoodName(b)
    ensures exists a, s, t :: a != b && KeyOf(a, s) == KeyOf(b, t)
  {
    var udp := EndsWith(b.name, UDP_GATEWAY_SUFFIX);
    var suffix := if udp then UDP_GATEWAY_SUFFIX else TCP_GATEWAY_SUFFIX;
    var a := App(b.namespace, b.name[..|b.name| - |suffix|]);
    assert b.name == a.name + suffix;
    assert KeyOf(a, if udp then UdpGateway else TcpGateway) == KeyOf(b, Headless);
  }

  lemma SameSlot(a: App, b: App, s: Slot)
    requires KeyOf(a, s) == KeyOf(b, s)
    ensures a == b
  {
    match s
    case Ingest =>
    case Headless =>
    case UdpGateway => SuffixDecides(a.name, b.name, UDP_GATEWAY_SUFFIX);
    case TcpGateway => SuffixDecides(a.name, b.name, TCP_GATEWAY_SUFFIX);
    case IstioGateway => SuffixDecides(a.name, b.name, "-gateway");
    case Routing => SuffixDecides(a.name, b.name, "-virtual-service");
  }

  // ---------- Building the objects ----------

  datatype IngestTemplate = IngestTemplate(name: string, image: string, ports: seq<ContainerPort>)

  datatype Launch = Launch(app: App, template: IngestTemplate, broadcasterID: string)

  function IngestDeploymentByTemplate(launch: Launch, port: Port): Object {
    Deployment(
      map[OWNED_BY := launch.app.name, CREATED_BY := launch.template.name, BROADCASTER_ID := launch.broadcasterID],
      launch.app.name,
      [Container(launch.app.name, launch.template.image,
                 launch.template.ports
                 + [ContainerPort(WEBRTC_TCP, port as int32, "TCP"), ContainerPort(WEBRTC_UDP, port as int32, "UDP")])])
  }

  function ServicePorts(ports: seq<ContainerPort>): seq<ServicePort> {
    seq(|ports|, i requires 0 <= i < |ports| => ServicePort(ports[i].name, ports[i].containerPort, ports[i].protocol))
  }

  function ServiceLabels(launch: Launch, serviceName: string): Labels {
    map["app" := serviceName, CREATED_BY := launch.template.name, OWNED_BY := launch.app.name]
  }

  function HeadlessService(launch: Launch): Object {
    Service(ServiceLabels(launch, launch.app.name), launch.app.name, true, ServicePorts(launch.template.ports))
  }

  method IngestHeadlessService(launch: Launch) returns (service: Object)
    ensures service == HeadlessService(launch)
  {
    service := Service(ServiceLabels(launch, launch.app.name), launch.app.name, true, []);
    for i := 0 to |launch.template.ports|
      invariant service == Service(ServiceLabels(launch, launch.app.name), launch.app.name, true,
                                   ServicePorts(launch.template.ports)[..i])
    {
      var port := launch.template.ports[i];
      service := service.(servicePorts := service.servicePorts
                          + [ServicePort(port.name, port.containerPort, port.protocol)]);
    }
  }

  function WebrtcGatewayService(launch: Launch, serviceName: string, portName: string, protocol: string,
                                port: Port)
    : Object
  {
    Service(ServiceLabels(launch, serviceName), launch.app.name, false,
            [ServicePort(portName, port as int32, protocol)])
  }

  function HostName(app: App): string {
    app.name + ".localhost"
  }

  function TcpRoutes(ports: seq<ContainerPort>, host: string): seq<Route> {
    if ports == [] then []
    else
      var before := TcpRoutes(ports[..|ports| - 1], host);
      var last := ports[|ports| - 1];
      if last.protocol == "TCP" then before + [Route(host, last.containerPort)] else before
  }

  function VirtualServiceOf(launch: Launch): Object {
    VirtualService(map[OWNED_BY := launch.app.name], HostName(launch.app), launch.app.name + "-gateway",
                   TcpRoutes(launch.template.ports, launch.app.name))
  }

  method IstioVirtualService(launch: Launch) returns (virtService: Object)
    ensures virtService == VirtualServiceOf(launch)
  {
    var ports := launch.template.ports;
    var http: seq<Route> := [];
    for i := 0 to |ports|
      invariant http == TcpRoutes(ports[..i], launch.app.name)
    {
      assert ports[..i + 1][..i] == ports[..i];
      if ports[i].protocol != "TCP" {
        continue;
      }
      http := http + [Route(launch.app.name, ports[i].containerPort)];
    }
    assert ports[..|ports|] == ports;
    virtService := VirtualService(map[OWNED_BY := launch.app.name], HostName(launch.app), launch.app.name + "-gateway",
                                  http);
  }

  // The object that the goroutine of a slot creates.
  function Build(launch: Launch, port: Port, slot: Slot): (o: Object)
    ensures OfKind(o, KeyOf(launch.app, slot).kind)
    ensures OWNED_BY in o.labels && o.labels[OWNED_BY] == launch.app.name
  {
    match slot
    case Ingest => IngestDeploymentByTemplate(launch, port)
    case Headless => HeadlessService(launch)
    case UdpGateway => WebrtcGatewayService(launch, launch.app.name + UDP_GATEWAY_SUFFIX, WEBRTC_UDP, "UDP", port)
    case TcpGateway => WebrtcGatewayService(launch, launch.app.name + TCP_GATEWAY_SUFFIX, WEBRTC_TCP, "TCP", port)
    case IstioGateway => Gateway(map[OWNED_BY := launch.app.name], HostName(launch.app), DEFAULT_GATEWAY_PORT)
    case Routing => VirtualServiceOf(launch)
  }

  method BuildObject(launch: Launch, port: Port, slot: Slot) returns (o: Object)
    ensures o == Build(launch, port, slot)
  {
    match slot {
      case Headless => o := IngestHeadlessService(launch);
      case Routing => o := IstioVirtualService(launch);
      case _ => o := Build(launch, port, slot);
    }
  }

  // Each route of the virtual service leads to a TCP port of the headless service, and each such port has a route.
  lemma {:induction false} RoutesMeetService(ports: seq<ContainerPort>, host: string, number: int32)
    ensures Route(host, number) in TcpRoutes(ports, host)
            <==> exists i ::
                   0 <= i < |ports| && ServicePorts(ports)[i].port == number
                   && ServicePorts(ports)[i].protocol == "TCP"
    ensures forall r :: r in TcpRoutes(ports, host) ==> r.host == host
  {
    if ports != [] {
      var n := |ports| - 1;
      RoutesMeetService(ports[..n], host, number);
      assert forall i :: 0 <= i < n ==> ServicePorts(ports[..n])[i] == ServicePorts(ports)[i];
      if ports[n].protocol == "TCP" && ports[n].containerPort == number {
        assert ServicePorts(ports)[n].port == number;
      }
    }
  }

  // ---------- Finding the port again ----------

  predicate IsWebrtcName(name: string) {
    name == WEBRTC_TCP || name == WEBRTC_UDP
  }

  function FirstContainerPort(ports: seq<ContainerPort>): Option<int32> {
    if ports == [] then None
    else if IsWebrtcName(ports[0].name) then Some(ports[0].containerPort)
    else FirstContainerPort(ports[1..])
  }

  function FirstInContainers(containers: seq<Container>): Option<int32> {
    if containers == [] then None
    else
      var found := FirstContainerPort(containers[0].ports);
      if found.Some? then found else FirstInContainers(containers[1..])
  }

  function FirstServicePort(ports: seq<ServicePort>): Option<int32> {
    if ports == [] then None
    else if IsWebrtcName(ports[0].name) then Some(ports[0].port)
    else FirstServicePort(ports[1..])
  }

  function DeploymentPort(ingest: Option<Object>): Option<int32> {
    if ingest.Some? && ingest.value.Deployment? then FirstInContainers(ingest.value.containers) else None
  }

  function ServicePortOf(service: Option<Object>): Option<int32> {
    if service.Some? && service.value.Service? then FirstServicePort(service.value.servicePorts) else None
  }

  method FindDeploymentIngestWebrtcPort(ingest: Option<Object>) returns (r: Option<int32>)
    requires ingest.Some? ==> ingest.value.Deployment?
    ensures r == DeploymentPort(ingest)
  {
    if ingest.None? {
      return None;
    }
    var containers := ingest.value.containers;
    for c := 0 to |containers|
      invariant FirstInContainers(containers) == FirstInContainers(containers[c..])
    {
      var ports := containers[c].ports;
      for i := 0 to |ports|
        invariant FirstContainerPort(ports) == FirstContainerPort(ports[i..])
      {
        if IsWebrtcName(ports[i].name) {
          return Some(ports[i].containerPort);
        }
      }
    }
    return None;
  }

  method FindServiceIngestWebrtcPort(service: Option<Object>) returns (r: Option<int32>)
    requires service.Some? ==> service.value.Service?
    ensures r == ServicePortOf(service)
  {
    if service.None? {
      return None;
    }
    var ports := service.value.servicePorts;
    for i := 0 to |ports|
      invariant FirstServicePort(ports) == FirstServicePort(ports[i..])
    {
      if IsWebrtcName(ports[i].name) {
        return Some(ports[i].port);
      }
    }
    return None;
  }

  // Go's conversion of an int32 to uint16 keeps the low sixteen bits.
  function ToPort(x: int32): Port {
    ((x as int) % 0x1_0000) as Port
  }

  // The search returns the value at the least index with a webrtc name.
  lemma {:induction false} FirstContainerPortIsFirst(ports: seq<ContainerPort>)
    ensures FirstContainerPort(ports).None?
            <==> forall i :: 0 <= i < |ports| ==> ports[i].name != "webrtc-tcp" && ports[i].name != "webrtc-udp"
    ensures forall i ::
              && 0 <= i < |ports| && (ports[i].name == "webrtc-tcp" || ports[i].name == "webrtc-udp")
              && (forall j :: 0 <= j < i ==> ports[j].name != "webrtc-tcp" && ports[j].name != "webrtc-udp")
              ==> FirstContainerPort(ports) == Some(ports[i].containerPort)
  {
    if ports != [] {
      FirstContainerPortIsFirst(ports[1..]);
      assert forall i :: 1 <= i < |ports| ==> ports[i] == ports[1..][i - 1];
    }
  }

  // No port of the template is called like the two that the operator adds.
  predicate NoWebrtcPorts(template: IngestTemplate) {
    forall i :: 0 <= i < |template.ports| ==>
      template.ports[i].name != "webrtc-tcp" && template.ports[i].name != "webrtc-udp"
  }

  lemma {:induction false} SearchPassesBy(ports: seq<ContainerPort>, rest: seq<ContainerPort>)
    ensures FirstContainerPort(ports + rest)
            == if FirstContainerPort(ports).Some? then FirstContainerPort(ports) else FirstContainerPort(rest)
  {
    if ports == [] {
      assert ports + rest == rest;
    } else {
      SearchPassesBy(ports[1..], rest);
      assert (ports + rest)[1..] == ports[1..] + rest;
    }
  }

  // What the search finds in a deployment built from a template: the template's own webrtc port if it has one.
  lemma FoundInBuiltDeployment(launch: Launch, port: Port)
    ensures var own := FirstContainerPort(launch.template.ports);
            DeploymentPort(Some(Build(launch, port, Ingest))) == if own.Some? then own else Some(port as int32)
  {
    var added := [ContainerPort(WEBRTC_TCP, port as int32, "TCP"), ContainerPort(WEBRTC_UDP, port as int32, "UDP")];
    SearchPassesBy(launch.template.ports, added);
    assert FirstContainerPort(added) == Some(port as int32);
  }

  // Both gateway services give the port back without loss, for every template and every port.
  lemma GatewayRoundTrip(launch: Launch, port: Port, slot: Slot)
    requires slot == UdpGateway || slot == TcpGateway
    ensures ServicePortOf(Some(Build(launch, port, slot))) == Some(port as int32)
    ensures ToPort(port as int32) == port
  {
  }

  // The deployment gives every port back exactly when the template names no port like the webrtc ports.
  lemma DeploymentRoundTrip(launch: Launch)
    ensures (forall port: Port :: DeploymentPort(Some(Build(launch, port, Ingest))) == Some(port as int32))
            <==> NoWebrtcPorts(launch.template)
  {
    FirstContainerPortIsFirst(launch.template.ports);
    forall port: Port
      ensures var own := FirstContainerPort(launch.template.ports);
              DeploymentPort(Some(Build(launch, port, Ingest))) == if own.Some? then own else Some(port as int32)
    {
      FoundInBuiltDeployment(launch, port);
    }
    if FirstContainerPort(launch.template.ports).Some? {
      var own := FirstContainerPort(launch.template.ports).value;
      var other: Port := if own == 1 then 2 else 1;
      assert DeploymentPort(Some(Build(launch, other, Ingest))) != Some(other as int32);
    }
  }

  // A template whose own port is called webrtc-tcp: the lease 20001 is forgotten and 20000 is found instead.
  lemma DeploymentRoundTripCanFail()
    ensures exists launch: Launch ::
              DeploymentPort(Some(Build(launch, 20001, Ingest))) == Some(20000)
  {
    var launch := Launch(App("default", "alice"),
                         IngestTemplate("t", "i", [ContainerPort(WEBRTC_TCP, 20000, "TCP")]), "b");
    FoundInBuiltDeployment(launch, 20001);
    assert DeploymentPort(Some(Build(launch, 20001, Ingest))) == Some(20000);
  }

  // ---------- How the six objects fit ----------

  // A webrtc gateway service leads to the pod, and exposes one port: one that the pod's container has, by name, number
  // and protocol.
  predicate Exposes(service: Object, deployment: Object, port: ServicePort) {
    && service.Service? && !service.headless && deployment.Deployment? && |deployment.containers| == 1
    && service.selector == deployment.podApp
    && service.servicePorts == [port]
    && ContainerPort(port.name, port.port, port.protocol) in deployment.containers[0].ports
  }

  // The headless service leads to the pod, and exposes the template's ports, all of which the pod's container has.
  predicate Covers(service: Object, deployment: Object, template: IngestTemplate) {
    && service.Service? && service.headless && deployment.Deployment? && |deployment.containers| == 1
    && service.selector == deployment.podApp
    && |service.servicePorts| == |template.ports| && |deployment.containers[0].ports| == |template.ports| + 2
    && forall i :: 0 <= i < |template.ports| ==>
         && deployment.containers[0].ports[i] == template.ports[i]
         && service.servicePorts[i].name == template.ports[i].name
         && service.servicePorts[i].port == template.ports[i].containerPort
         && service.servicePorts[i].protocol == template.ports[i].protocol
  }

  // The virtual service listens at the gateway that it names, for the gateway's host, and routes to the service: to
  // exactly the numbers of its TCP ports.
  ghost predicate RoutesTo(routing: Object, gateway: Object, gatewayName: string, service: Object,
                           serviceName: string)
  {
    && routing.VirtualService? && gateway.Gateway? && service.Service?
    && routing.gateway == gatewayName && routing.host == gateway.host && gateway.number == 80
    && (forall r :: r in routing.routes ==>
          r.host == serviceName && exists p :: p in service.servicePorts && p.port == r.number && p.protocol == "TCP")
    && forall p :: p in service.servicePorts && p.protocol == "TCP" ==> Route(serviceName, p.port) in routing.routes
  }

  predicate OwnedByName(o: Object, name: string) {
    "app.kubernetes.io/owned-by" in o.labels && o.labels["app.kubernetes.io/owned-by"] == name
  }

  // The cluster serves an app at a port: its six objects are there, by their names, and fit one another.
  ghost predicate Serves(objects: Cluster, app: App, template: IngestTemplate, broadcasterID: string, port: Port) {
    var deployment := Key(DeploymentKind, app.namespace, app.name);
    var headless := Key(ServiceKind, app.namespace, app.name);
    var udp := Key(ServiceKind, app.namespace, app.name + "-webrtc-udp-gateway");
    var tcp := Key(ServiceKind, app.namespace, app.name + "-webrtc-tcp-gateway");
    var gateway := Key(GatewayKind, app.namespace, app.name + "-gateway");
    var routing := Key(VirtualServiceKind, app.namespace, app.name + "-virtual-service");
    && deployment in objects && headless in objects && udp in objects && tcp in objects && gateway in objects
    && routing in objects
    && (forall k :: k in {deployment, headless, udp, tcp, gateway, routing} ==> OwnedByName(objects[k], app.name))
    && Exposes(objects[udp], objects[deployment], ServicePort("webrtc-udp", port as int32, "UDP"))
    && Exposes(objects[tcp], objects[deployment], ServicePort("webrtc-tcp", port as int32, "TCP"))
    && Covers(objects[headless], objects[deployment], template)
    && RoutesTo(objects[routing], objects[gateway], gateway.name, objects[headless], headless.name)
    && objects[gateway].host == app.name + ".localhost"
    && objects[deployment].containers[0].name == app.name && objects[deployment].containers[0].image == template.image
    && objects[deployment].labels == map["app.kubernetes.io/owned-by" := app.name,
                                         "app.kubernetes.io/created-by" := template.name,
                                         "romashorodok.github.io/ingest.broadcaster-id" := broadcasterID]
    && (forall k :: k in {headless, udp, tcp} ==>
          objects[k].labels == map["app" := k.name, "app.kubernetes.io/owned-by" := app.name,
                                   "app.kubernetes.io/created-by" := template.name])
    && objects[gateway].labels == objects[routing].labels == map["app.kubernetes.io/owned-by" := app.name]
  }

  lemma RoutesFit(launch: Launch, port: Port)
    ensures RoutesTo(Build(launch, port, Routing), Build(launch, port, IstioGateway),
                     KeyOf(launch.app, IstioGateway).name, Build(launch, port, Headless),
                     KeyOf(launch.app, Headless).name)
  {
    var ports, host := launch.template.ports, launch.app.name;
    var routes, served := TcpRoutes(ports, host), ServicePorts(ports);
    forall r | r in routes
      ensures r.host == host && exists p :: p in served && p.port == r.number && p.protocol == "TCP"
    {
      RoutesMeetService(ports, host, r.number);
      var i :| 0 <= i < |ports| && served[i].port == r.number && served[i].protocol == "TCP";
      assert served[i] in served;
    }
    forall p | p in served && p.protocol == "TCP"
      ensures Route(host, p.port) in routes
    {
      RoutesMeetService(ports, host, p.port);
    }
  }

  // The objects that Start builds fit.
  lemma BuiltObjectsServe(objects: Cluster, launch: Launch, port: Port)
    requires forall s :: KeyOf(launch.app, s) in objects && objects[KeyOf(launch.app, s)] == Build(launch, port, s)
    ensures Serves(objects, launch.app, launch.template, launch.broadcasterID, port)
  {
    hide RoutesTo, TcpRoutes;
    RoutesFit(launch, port);
    var added := [ContainerPort(WEBRTC_TCP, port as int32, "TCP"), ContainerPort(WEBRTC_UDP, port as int32, "UDP")];
    var all := launch.template.ports + added;
    assert all[|launch.template.ports|] == added[0] && all[|launch.template.ports| + 1] == added[1];
    assert objects[KeyOf(launch.app, Ingest)].containers[0].ports == all;
    var headless, deployment := objects[KeyOf(launch.app, Headless)], objects[KeyOf(launch.app, Ingest)];
    assert Covers(headless, deployment, launch.template);
    assert Exposes(objects[KeyOf(launch.app, UdpGateway)], deployment, ServicePort("webrtc-udp", port as int32, "UDP"));
    assert Exposes(objects[KeyOf(launch.app, TcpGateway)], deployment, ServicePort("webrtc-tcp", port as int32, "TCP"));
    assert KeyOf(launch.app, Routing) in objects && KeyOf(launch.app, IstioGateway) in objects;
  }
}
