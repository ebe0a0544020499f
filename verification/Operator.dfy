/** The reconciler, as functions of the world it runs in. */
module Operator {
  import opened Kube
  import opened Cloud
  import opened Selection
  import opened Network
  import Text
  import opened Worlds
  import opened Calls
  import opened Retry
  import opened Requests

  /** What a step reports: ask for another pass, and whether it failed. */
  datatype Verdict = Verdict(requeue: bool, err: bool)

  const DONE := Verdict(false, false)

  predicate MatchesClass(svc: Service, className: string) {
    || svc.spec.lbClass == Some(className)
    || (LoadBalancerClass in svc.annotations && svc.annotations[LoadBalancerClass] == className)
  }

  predicate HasAnnotation(svc: Service, name: AnnotationName) {
    Annotation(svc, name) != ""
  }

  predicate HasResources(svc: Service) {
    HasAnnotation(svc, PortID) || HasAnnotation(svc, FloatingIPID)
  }

  function OwnerOf(svc: Service): Owner {
    Owner(svc.key, svc.uid)
  }

  // ----- Teardown (resource_cleanup.go, utils.go) -----

  /** What became of a series of deletions: some failed; the watched id was among those deleted. */
  datatype Sweep = Sweep(failed: bool, hit: bool)

  function DeleteAll(w: World, kind: Kind, ids: seq<string>, watched: string): Out<Sweep>
    decreases |ids|
  {
    if ids == [] then Out(w, Sweep(false, false)) else
      var d := DeleteResource(w, kind, ids[0]);
      var rest := DeleteAll(d.w, kind, ids[1..], watched);
      Out(rest.w, Sweep(!d.v || rest.v.failed, (d.v && ids[0] == watched) || rest.v.hit))
  }

  function PortIDs(ps: seq<Port>): seq<string> {
    seq(|ps|, i requires 0 <= i < |ps| => ps[i].id)
  }

  function FloatingIPIDs(fs: seq<FloatingIP>): seq<string> {
    seq(|fs|, i requires 0 <= i < |fs| => fs[i].id)
  }

  function Blanks(fip: bool, port: bool): Annotations {
    (if fip then map[FloatingIPID := ""] else map[]) + (if port then map[PortID := ""] else map[])
  }

  /** The deletions of a cleanup, floating IPs before ports. */
  function Sweeps(w: World, svc: Service, fips: seq<FloatingIP>, ports: seq<Port>): Out<(Sweep, Sweep)> {
    var portID, fipID := Annotation(svc, PortID), Annotation(svc, FloatingIPID);
    var f := DeleteAll(w, FloatingIPKind, FloatingIPIDs(FloatingIPsFor(fips, svc.key, portID, fipID)), fipID);
    var p := DeleteAll(f.w, PortKind, PortIDs(PortsFor(ports, svc.key, portID)), portID);
    Out(p.w, (f.v, p.v))
  }

  /** CleanupResourcesForService */
  function Cleanup(w: World, svc: Service): Out<Verdict> {
    var fips := ListFloatingIPs(w);
    if fips.v.None? then Out(fips.w, Verdict(true, true)) else
      var ports := ListPorts(fips.w);
      if ports.v.None? then Out(ports.w, Verdict(true, true)) else
        var s := Sweeps(ports.w, svc, fips.v.value, ports.v.value);
        var edits := Blanks(s.v.0.hit, s.v.1.hit);
        var u := if edits == map[] then Out(s.w, true) else EditAnnotations(s.w, svc.key, edits, STEPS);
        Out(u.w, Verdict(s.v.0.failed || s.v.1.failed || !u.v || HasResources(svc), false))
  }

  /** forceFinalizerRemoval */
  function ForceRemoval(w: World, svc: Service): Out<bool> {
    if !svc.terminating then Out(w, true) else PatchService(w, svc.key)
  }

  predicate ShouldForce(svc: Service) {
    svc.terminating && ServiceFinalizer in svc.finalizers && HasResources(svc)
  }

  function Forced(w: World, svc: Service): Out<Verdict> {
    var f := ForceRemoval(w, svc);
    Out(f.w, if f.v then DONE else Verdict(true, true))
  }

  /** Removes the finalizer by an ordinary update, or by force when that fails. */
  function DropFinalizer(w: World, svc: Service): Out<Verdict> {
    var u := WriteService(w, svc.(finalizers := RemoveFinalizer(svc.finalizers, ServiceFinalizer)), STEPS);
    if u.v then Out(u.w, DONE) else Forced(u.w, svc)
  }

  /** The same for a service that is not terminating: there is nothing to force, but an error whose
      text speaks of a conflict is passed over. */
  function DropLiveFinalizer(w: World, svc: Service): Out<Verdict> {
    var u := WriteService(w, svc.(finalizers := RemoveFinalizer(svc.finalizers, ServiceFinalizer)), STEPS);
    if u.v then Out(u.w, DONE)
    else if Text.Contains(Next(w).text, "conflict") then Forced(u.w, svc)
    else Out(u.w, Verdict(true, true))
  }

  /** HandleServiceFinalizationWithForce */
  function Finalize(w: World, svc: Service): Out<Verdict> {
    if ServiceFinalizer !in svc.finalizers then Out(w, DONE) else
      var c := Cleanup(w, svc);
      if c.v != DONE then
        if ShouldForce(svc) then Forced(c.w, svc) else Out(c.w, Verdict(true, c.v.err))
      else if svc.terminating then DropFinalizer(c.w, svc)
      else DropLiveFinalizer(c.w, svc)
  }

  // ----- The service handler (service_handler.go) -----

  function Miss(w: World): World {
    w.(log := w.log.(misses := w.log.misses + 1))
  }

  /** The load balancers whose class the service has, tried in turn. */
  function ClientOfMatching(w: World, svc: Service, lbs: seq<LoadBalancer>): Out<bool>
    decreases |lbs|
  {
    if lbs == [] then Out(w, false)
    else if !MatchesClass(svc, lbs[0].spec.className) then ClientOfMatching(w, svc, lbs[1..])
    else
      var c := NewClient(w, lbs[0].spec.secret);
      if c.v then c else ClientOfMatching(c.w, svc, lbs[1..])
  }

  /** getOpenStackClientFromService */
  function ClientOfService(w: World, svc: Service): Out<bool> {
    var secret := SecretRef(Annotation(svc, CredentialsSecretName), Annotation(svc, CredentialsSecretNamespace));
    if secret.name != "" && secret.namespace != "" then NewClient(w, secret) else
      var l := ListLBs(w);
      if l.v.None? then Out(Miss(l.w), false) else
        var c := ClientOfMatching(l.w, svc, l.v.value);
        if c.v then c
        else if l.v.value == [] then Out(Miss(c.w), false)
        else NewClient(c.w, l.v.value[0].spec.secret)
  }

  function Credentials(lb: LoadBalancer): Annotations {
    map[CredentialsSecretName := lb.spec.secret.name, CredentialsSecretNamespace := lb.spec.secret.namespace]
  }

  function FirstMatching(svc: Service, lbs: seq<LoadBalancer>): Option<LoadBalancer> {
    if lbs == [] then None
    else if MatchesClass(svc, lbs[0].spec.className) then Some(lbs[0])
    else FirstMatching(svc, lbs[1..])
  }

  /** The terminating half of reconcileService. */
  function FinalizeService(w: World, svc: Service): Out<Verdict> {
    var c := ClientOfService(w, svc);
    if c.v then Finalize(c.w, svc)
    else if ServiceFinalizer in svc.finalizers then DropFinalizer(c.w, svc)
    else Out(c.w, Verdict(true, true))
  }

  /** The other half: make sure a service of ours carries the finalizer and the credentials. */
  function AdoptService(w: World, svc: Service): Out<Verdict> {
    if svc.spec.serviceType != LoadBalancerType then Out(w, DONE) else
      var l := ListLBs(w);
      if l.v.None? then Out(l.w, Verdict(true, true)) else
        var lb := FirstMatching(svc, l.v.value);
        if !(lb.Some? || HasResources(svc)) || ServiceFinalizer in svc.finalizers then Out(l.w, DONE) else
          var u := WriteService(l.w, svc.(finalizers := AddFinalizer(svc.finalizers, ServiceFinalizer)), STEPS);
          if !u.v then Out(u.w, Verdict(true, true))
          else if lb.None? then Out(u.w, DONE)
          else
            var e := EditAnnotations(u.w, svc.key, Credentials(lb.value), STEPS);
            Out(e.w, Verdict(!e.v, !e.v))
  }

  /** reconcileService */
  function ReconcileService(w: World, req: Key): Out<Verdict> {
    match ServiceName(req.name) {
      case None => Out(w, DONE)
      case Some(name) =>
        var got := GetService(w, Key(req.namespace, name));
        match got.v {
          case Missing => Out(got.w, DONE)
          case Failed => Out(got.w, Verdict(false, true))
          case Found(svc) => if svc.terminating then FinalizeService(got.w, svc) else AdoptService(got.w, svc)
        }
    }
  }

  // ----- Provisioning (openstackloadbalancer_controller.go) -----

  function SetCondition(cs: seq<Condition>, kind: ConditionKind, status: bool, reason: Reason,
      detail: seq<string>, now: nat)
    : seq<Condition>
  {
    if cs == [] then [Condition(kind, status, reason, detail, now)]
    else if cs[0].kind == kind then
      if cs[0].status != status || cs[0].reason != reason || cs[0].detail != detail
      then [Condition(kind, status, reason, detail, now)] + cs[1..]
      else cs
    else [cs[0]] + SetCondition(cs[1..], kind, status, reason, detail, now)
  }

  function Note(w: World, lb: LoadBalancer, kind: ConditionKind, status: bool, reason: Reason, detail: seq<string>)
    : LoadBalancer
  {
    lb.(status := lb.status.(conditions := SetCondition(lb.status.conditions, kind, status, reason, detail, w.time)))
  }

  function ErrorText(w: World): seq<string> {
    [Next(w).text]
  }

  /** A provisioning step also carries the load balancer whose status it edits in memory. */
  datatype Step = Step(lb: LoadBalancer, v: Verdict)

  /** ensureServiceHasFinalizer */
  function EnsureFinalizer(w: World, svc: Service): Out<Verdict> {
    if ServiceFinalizer in svc.finalizers then Out(w, DONE) else
      var u := WriteService(w, svc.(finalizers := AddFinalizer(svc.finalizers, ServiceFinalizer)), STEPS);
      Out(u.w, Verdict(true, !u.v))
  }

  /** ensureServiceHasCredentials */
  function EnsureCredentials(w: World, svc: Service, lb: LoadBalancer): Out<Verdict> {
    if HasAnnotation(svc, CredentialsSecretName) && HasAnnotation(svc, CredentialsSecretNamespace)
    then Out(w, DONE)
    else
      var u := EditAnnotations(w, svc.key, Credentials(lb), STEPS);
      Out(u.w, Verdict(!u.v, !u.v))
  }

  /** DetectNetworkForIP */
  function FindSubnet(w: World, ip: string): Out<Option<Subnet>> {
    if ip !in w.texts.addresses then Out(w, None) else
      var l := ListSubnets(w);
      if l.v.None? then Out(l.w, None)
      else Out(l.w, FirstMatch(w.texts, l.v.value, w.texts.addresses[ip]))
  }

  predicate NetworkKnown(lb: LoadBalancer) {
    lb.status.networkID != "" && lb.status.subnetID != ""
  }

  /** detectNetworkForLB */
  function DetectNetwork(w: World, lb: LoadBalancer, ip: string): Out<Step> {
    if NetworkKnown(lb) then Out(w, Step(lb, DONE)) else
      var s := FindSubnet(w, ip);
      match s.v {
        case None => Out(s.w, Step(Note(s.w, lb, NetworkDetected, false, DetectionFailed, ErrorText(w)),
          Verdict(true, true)))
        case Some(subnet) =>
          var found := lb.(status := lb.status.(networkID := subnet.networkID, subnetID := subnet.id));
          Out(s.w, Step(Note(s.w, found, NetworkDetected, true, Detected, [subnet.networkID, subnet.id, ip]), DONE))
      }
  }

  datatype PortStep = PortStep(portID: string, lb: LoadBalancer, v: Verdict)

  /** The half of ensurePortExists for a service that records a port. */
  function CheckPort(w: World, lb: LoadBalancer, svc: Service): Out<PortStep> {
    var portID := Annotation(svc, PortID);
    var g := GetResource(w, PortKind, portID);
    if g.v.None? then Out(g.w, PortStep("", lb, Verdict(true, true)))
    else if g.v.value then Out(g.w, PortStep(portID, lb, DONE))
    else
      var u := EditAnnotations(g.w, svc.key, map[PortID := ""], STEPS);
      Out(u.w, PortStep("", lb, Verdict(true, !u.v)))
  }

  /** The half of ensurePortExists for a service that records none. */
  function MakePort(w: World, lb: LoadBalancer, svc: Service, ip: string): Out<PortStep> {
    var c := CreatePort(w, OwnerOf(svc), lb.status.networkID, lb.status.subnetID, ip);
    match c.v {
      case None =>
        Out(c.w, PortStep("", Note(c.w, lb, PortCreated, false, CreationFailed, ErrorText(w)), Verdict(true, true)))
      case Some(id) =>
        var u := EditAnnotations(c.w, svc.key, map[PortID := id], STEPS);
        if u.v
        then Out(Recorded(u.w, OwnerOf(svc), id),
                 PortStep(id, Note(u.w, lb, PortCreated, true, Created, [id, ip]), DONE))
        else Out(Mishap(u.w, OwnerOf(svc)), PortStep(id, lb, Verdict(true, true)))
    }
  }

  /** ensurePortExists */
  function EnsurePort(w: World, lb: LoadBalancer, svc: Service, ip: string): Out<PortStep> {
    if HasAnnotation(svc, PortID) then CheckPort(w, lb, svc) else MakePort(w, lb, svc, ip)
  }

  datatype AddressStep = AddressStep(address: string, lb: LoadBalancer, v: Verdict)

  /** Records a floating IP on the service. */
  function RecordFloatingIP(w: World, lb: LoadBalancer, svc: Service, id: string, address: string,
      reason: Reason, portID: string)
    : Out<AddressStep>
  {
    var u := EditAnnotations(w, svc.key, map[FloatingIPID := id], STEPS);
    if u.v
    then Out(u.w, AddressStep(address, Note(u.w, lb, FloatingIPCreated, true, reason, [id, address, portID]), DONE))
    else Out(u.w, AddressStep(address, lb, Verdict(true, true)))
  }

  function MakeFloatingIP(w: World, lb: LoadBalancer, svc: Service, portID: string): Out<AddressStep> {
    var c := CreateFloatingIP(w, OwnerOf(svc), portID);
    match c.v {
      case None =>
        Out(c.w, AddressStep("", Note(c.w, lb, FloatingIPCreated, false, CreationFailed, ErrorText(w)),
          Verdict(true, true)))
      case Some(n) => RecordFloatingIP(c.w, lb, svc, n.id, n.address, Created, portID)
    }
  }

  /** createOrFindFloatingIP */
  function CreateOrFind(w: World, lb: LoadBalancer, svc: Service, portID: string): Out<AddressStep> {
    if lb.spec.floatingIPNetworkID == "" then
      Out(w, AddressStep("", Note(w, lb, FloatingIPCreated, false, MissingFloatingIPNetwork, []), Verdict(true, true)))
    else
      var f := FindFloatingIP(w, portID);
      match f.v {
        case None => Out(f.w, AddressStep("", lb, Verdict(true, true)))
        case Some(Some(fip)) => RecordFloatingIP(f.w, lb, svc, fip.id, fip.address, FoundExisting, portID)
        case Some(None) => MakeFloatingIP(f.w, lb, svc, portID)
      }
  }

  /** The half of handleFloatingIP for a service that records a floating IP. */
  function CheckFloatingIP(w: World, lb: LoadBalancer, svc: Service): Out<AddressStep> {
    var id := Annotation(svc, FloatingIPID);
    var g := GetResource(w, FloatingIPKind, id);
    if g.v.None? then Out(g.w, AddressStep("", lb, Verdict(true, true)))
    else if !g.v.value then
      var u := EditAnnotations(g.w, svc.key, map[FloatingIPID := ""], STEPS);
      Out(u.w, AddressStep("", lb, Verdict(true, !u.v)))
    else
      var a := GetAddress(g.w, id);
      if a.v.None? then Out(a.w, AddressStep("", lb, Verdict(true, true)))
      else Out(a.w, AddressStep(a.v.value, lb, DONE))
  }

  /** handleFloatingIP */
  function HandleFloatingIP(w: World, lb: LoadBalancer, svc: Service, portID: string): Out<Step> {
    var a := if HasAnnotation(svc, FloatingIPID) then CheckFloatingIP(w, lb, svc) else CreateOrFind(w, lb, svc, portID);
    if a.v.v != DONE || a.v.address == "" then Out(a.w, Step(a.v.lb, a.v.v)) else
      var e := AddExternalIP(a.w, svc.key, a.v.address, STEPS);
      Out(e.w, Step(a.v.lb, Verdict(!e.v, !e.v)))
  }

  /** Steps 3 to 5 of processService. */
  function Provision(w: World, lb: LoadBalancer, svc: Service, ip: string): Out<Step> {
    var d := DetectNetwork(w, lb, ip);
    if d.v.v != DONE then d else
      var p := EnsurePort(d.w, d.v.lb, svc, ip);
      if p.v.v != DONE || !lb.spec.createFloatingIP then Out(p.w, Step(p.v.lb, p.v.v))
      else HandleFloatingIP(p.w, p.v.lb, svc, p.v.portID)
  }

  /** processService */
  function ProcessService(w: World, lb: LoadBalancer, svc: Service, ip: string): Out<Step> {
    if svc.terminating then Out(w, Step(lb, DONE)) else
      var f := EnsureFinalizer(w, svc);
      if f.v != DONE then Out(f.w, Step(lb, f.v)) else
        var c := EnsureCredentials(f.w, svc, lb);
        if c.v != DONE then Out(c.w, Step(lb, c.v)) else Provision(c.w, lb, svc, ip)
  }

  // ----- Passes -----

  /** The services a pass over a load balancer provisions. */
  predicate Eligible(svc: Service, className: string) {
    && MatchesClass(svc, className)
    && svc.spec.serviceType == LoadBalancerType
    && !svc.terminating
    && svc.status.ingress != [] && svc.status.ingress[0] != ""
  }

  /** What the service loop has gathered: the load balancer, and its three flags. */
  datatype Tally = Tally(lb: LoadBalancer, processed: bool, err: bool, requeue: bool)

  function ProvisionAll(w: World, svcs: seq<Service>, t: Tally): Out<Tally>
    decreases |svcs|
  {
    if svcs == [] then Out(w, t)
    else if !Eligible(svcs[0], t.lb.spec.className) then ProvisionAll(w, svcs[1..], t)
    else
      var p := ProcessService(w, t.lb, svcs[0], svcs[0].status.ingress[0]);
      ProvisionAll(p.w, svcs[1..], Tally(p.v.lb, true, t.err || p.v.v.err, t.requeue || p.v.v.requeue))
  }

  function Judge(w: World, t: Tally): LoadBalancer {
    if !t.processed then Note(w, t.lb, Ready, false, NoMatchingService, [t.lb.spec.className])
    else if t.err then Note(w, t.lb, Ready, false, ProcessingError, ErrorText(w))
    else
      var lb := Note(w, t.lb, Ready, true, ResourcesReady, []);
      lb.(status := lb.status.(ready := true))
  }

  /** The end of a pass: store the status, then report. */
  function Conclude(w: World, t: Tally): Out<Verdict> {
    var lb := Judge(w, t);
    var u := WriteStatus(w, lb.key, lb.status, STEPS);
    Out(u.w, if u.v then Verdict(t.requeue, false) else Verdict(false, true))
  }

  /** The provisioning part of Reconcile. */
  function ReconcileLive(w: World, lb: LoadBalancer): Out<Verdict> {
    var c := NewClient(w, lb.spec.secret);
    if !c.v then
      var bad := Note(c.w, lb, Ready, false, OpenStackClientError, ErrorText(w));
      var u := WriteStatus(c.w, bad.key, bad.status, STEPS);
      Out(u.w, Verdict(false, !u.v))
    else
      var l := ListServices(c.w);
      if l.v.None? then Out(l.w, Verdict(false, true)) else
        var p := ProvisionAll(l.w, l.v.value, Tally(lb, false, false, false));
        Conclude(p.w, p.v)
  }

  function DropLBFinalizer(w: World, lb: LoadBalancer): Out<Verdict> {
    var u := WriteLB(w, lb.(finalizers := RemoveFinalizer(lb.finalizers, LoadBalancerFinalizer)), STEPS);
    Out(u.w, Verdict(false, !u.v))
  }

  /** The services whose resources go with a load balancer. */
  predicate Involved(svc: Service, className: string) {
    MatchesClass(svc, className) || HasResources(svc)
  }

  function CleanService(w: World, svc: Service): Out<Verdict> {
    if svc.terminating then Finalize(w, svc) else Cleanup(w, svc)
  }

  function CleanAll(w: World, svcs: seq<Service>, className: string, requeue: bool): Out<bool>
    decreases |svcs|
  {
    if svcs == [] then Out(w, requeue)
    else if !Involved(svcs[0], className) then CleanAll(w, svcs[1..], className, requeue)
    else
      var c := CleanService(w, svcs[0]);
      CleanAll(c.w, svcs[1..], className, requeue || c.v != DONE)
  }

  /** handleDeletion */
  function HandleDeletion(w: World, lb: LoadBalancer): Out<Verdict> {
    var c := NewClient(w, lb.spec.secret);
    if !c.v then DropLBFinalizer(c.w, lb) else
      var l := ListServices(c.w);
      if l.v.None? then Out(l.w, Verdict(false, true)) else
        var d := CleanAll(l.w, l.v.value, lb.spec.className, false);
        if d.v then Out(d.w, Verdict(true, false)) else DropLBFinalizer(d.w, lb)
  }

  function ReconcileLB(w: World, k: Key): Out<Verdict> {
    var got := GetLB(w, k);
    match got.v {
      case Missing => Out(got.w, DONE)
      case Failed => Out(got.w, Verdict(false, true))
      case Found(lb) =>
        if LoadBalancerFinalizer !in lb.finalizers && !lb.terminating then
          var u := WriteLB(got.w, lb.(finalizers := AddFinalizer(lb.finalizers, LoadBalancerFinalizer)), STEPS);
          Out(u.w, Verdict(false, !u.v))
        else if lb.terminating then HandleDeletion(got.w, lb)
        else ReconcileLive(got.w, lb)
    }
  }

  /** Reconcile */
  function Reconcile(w: World, req: Key): Out<Verdict> {
    if IsServiceRequest(req.name) then ReconcileService(w, req) else ReconcileLB(w, req)
  }

  /** A run: passes one after the other, in the order the queue delivers the requests. */
  function Run(w: World, reqs: seq<Key>): World
    decreases |reqs|
  {
    if reqs == [] then w else Run(Reconcile(w, reqs[0]).w, reqs[1..])
  }
}
