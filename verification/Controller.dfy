/** The reconciler in the form of internal/controller/openstackloadbalancer_controller.go: steps that
    change the surroundings and edit the load balancer in memory, and the loops over services. */
module Controller {
  import opened Kube
  import opened Cloud
  import opened Network
  import opened Worlds
  import opened Calls
  import opened Retry
  import opened Requests
  import opened Operator
  import opened Client
  import opened Helpers
  import opened CleanupHandler
  import opened ServiceHandler
  import opened Evolution
  import opened Orphans
  import opened Runs
  import opened Accounting
  import opened Ledger

  // ----- The steps of processService -----

  method EnsureServiceHasFinalizer(c: Cluster, svc: Service) returns (requeue: bool, err: bool)
    modifies c
    ensures Out(c.world, Verdict(requeue, err)) == EnsureFinalizer(old(c.world), svc)
  {
    hide WriteService;
    if ServiceFinalizer in svc.finalizers {
      return false, false;
    }
    var ok := UpdateServiceWithRetry(c, svc.(finalizers := AddFinalizer(svc.finalizers, ServiceFinalizer)));
    if !ok {
      return true, true;
    }
    return true, false;
  }

  method EnsureServiceHasCredentials(c: Cluster, svc: Service, d: Draft) returns (requeue: bool, err: bool)
    modifies c
    ensures Out(c.world, Verdict(requeue, err)) == EnsureCredentials(old(c.world), svc, d.lb)
  {
    hide EditAnnotations, HasAnnotation;
    if HasAnnotation(svc, CredentialsSecretName) && HasAnnotation(svc, CredentialsSecretNamespace) {
      return false, false;
    }
    var ok := UpdateServiceAnnotations(c, svc.key, Credentials(d.lb));
    if !ok {
      return true, true;
    }
    return false, false;
  }

  method DetectNetworkForLB(c: Cluster, d: Draft, ip: string) returns (requeue: bool, err: bool)
    modifies c, d
    ensures Out(c.world, Step(d.lb, Verdict(requeue, err))) == DetectNetwork(old(c.world), old(d.lb), ip)
  {
    hide ListSubnets, SetCondition, FirstMatch;
    if d.lb.status.networkID != "" && d.lb.status.subnetID != "" {
      return false, false;
    }
    var text := ErrorText(c.world);
    var detected := None;
    if ip in c.world.texts.addresses {
      var texts := c.world.texts;
      var listed := ListSubnets(c.world);
      c.world := listed.w;
      if listed.v.Some? {
        detected := DetectSubnet(texts, listed.v.value, texts.addresses[ip]);
      }
    }
    if detected.None? {
      SetConditionOn(d, NetworkDetected, false, DetectionFailed, text, c.world.time);
      return true, true;
    }
    var subnet := detected.value;
    d.lb := d.lb.(status := d.lb.status.(networkID := subnet.networkID, subnetID := subnet.id));
    SetConditionOn(d, NetworkDetected, true, Detected, [subnet.networkID, subnet.id, ip], c.world.time);
    return false, false;
  }

  method EnsurePortExists(c: Cluster, d: Draft, svc: Service, ip: string)
    returns (portID: string, requeue: bool, err: bool)
    modifies c, d
    ensures Out(c.world, PortStep(portID, d.lb, Verdict(requeue, err))) == EnsurePort(old(c.world), old(d.lb), svc, ip)
  {
    hide GetResource, EditAnnotations, CreatePort, SetCondition;
    if Annotation(svc, PortID) != "" {
      portID := Annotation(svc, PortID);
      var found := GetResource(c.world, PortKind, portID);
      c.world := found.w;
      if found.v.None? {
        return "", true, true;
      }
      if !found.v.value {
        var ok := UpdateServiceAnnotations(c, svc.key, map[PortID := ""]);
        return "", true, !ok;
      }
      return portID, false, false;
    }
    var text := ErrorText(c.world);
    var created := CreatePortForService(c, OwnerOf(svc), d.lb.status.networkID, d.lb.status.subnetID, ip);
    if created.None? {
      SetConditionOn(d, PortCreated, false, CreationFailed, text, c.world.time);
      return "", true, true;
    }
    portID := created.value;
    var ok := UpdateServiceAnnotations(c, svc.key, map[PortID := portID]);
    if !ok {
      c.world := Mishap(c.world, OwnerOf(svc));
      return portID, true, true;
    }
    SetConditionOn(d, PortCreated, true, Created, [portID, ip], c.world.time);
    c.world := Recorded(c.world, OwnerOf(svc), portID);
    return portID, false, false;
  }

  method CreateOrFindFloatingIP(c: Cluster, d: Draft, svc: Service, portID: string)
    returns (address: string, requeue: bool, err: bool)
    modifies c, d
    ensures Out(c.world, AddressStep(address, d.lb, Verdict(requeue, err)))
      == CreateOrFind(old(c.world), old(d.lb), svc, portID)
  {
    hide FindFloatingIP, EditAnnotations, CreateFloatingIP, SetCondition;
    if d.lb.spec.floatingIPNetworkID == "" {
      SetConditionOn(d, FloatingIPCreated, false, MissingFloatingIPNetwork, [], c.world.time);
      return "", true, true;
    }
    var existing := FindFloatingIP(c.world, portID);
    c.world := existing.w;
    if existing.v.None? {
      return "", true, true;
    }
    if existing.v.value.Some? {
      var fip := existing.v.value.value;
      var ok := UpdateServiceAnnotations(c, svc.key, map[FloatingIPID := fip.id]);
      if !ok {
        return fip.address, true, true;
      }
      SetConditionOn(d, FloatingIPCreated, true, FoundExisting, [fip.id, fip.address, portID], c.world.time);
      return fip.address, false, false;
    }
    var text := ErrorText(c.world);
    var created := CreateFloatingIPForService(c, OwnerOf(svc), portID);
    if created.None? {
      SetConditionOn(d, FloatingIPCreated, false, CreationFailed, text, c.world.time);
      return "", true, true;
    }
    var ok := UpdateServiceAnnotations(c, svc.key, map[FloatingIPID := created.value.id]);
    if !ok {
      return created.value.address, true, true;
    }
    SetConditionOn(d, FloatingIPCreated, true, Created, [created.value.id, created.value.address, portID],
      c.world.time);
    return created.value.address, false, false;
  }

  /** The half of handleFloatingIP for a floating IP on record. */
  method CheckRecordedFloatingIP(c: Cluster, d: Draft, svc: Service) returns (address: string, requeue: bool, err: bool)
    modifies c
    ensures Out(c.world, AddressStep(address, d.lb, Verdict(requeue, err))) == CheckFloatingIP(old(c.world), d.lb, svc)
  {
    hide GetResource, GetAddress, EditAnnotations;
    var id := Annotation(svc, FloatingIPID);
    var found := GetResource(c.world, FloatingIPKind, id);
    c.world := found.w;
    if found.v.None? {
      return "", true, true;
    }
    if !found.v.value {
      var ok := UpdateServiceAnnotations(c, svc.key, map[FloatingIPID := ""]);
      return "", true, !ok;
    }
    var details := GetAddress(c.world, id);
    c.world := details.w;
    if details.v.None? {
      return "", true, true;
    }
    return details.v.value, false, false;
  }

  method HandleServiceFloatingIP(c: Cluster, d: Draft, svc: Service, portID: string) returns (requeue: bool, err: bool)
    modifies c, d
    ensures Out(c.world, Step(d.lb, Verdict(requeue, err))) == HandleFloatingIP(old(c.world), old(d.lb), svc, portID)
  {
    hide CheckFloatingIP, CreateOrFind, AddExternalIP;
    var address;
    if Annotation(svc, FloatingIPID) != "" {
      address, requeue, err := CheckRecordedFloatingIP(c, d, svc);
    } else {
      address, requeue, err := CreateOrFindFloatingIP(c, d, svc, portID);
    }
    if requeue || err {
      return;
    }
    if address != "" {
      var ok := UpdateServiceExternalIPs(c, svc.key, address);
      if !ok {
        return true, true;
      }
    }
    return false, false;
  }

  /** processService */
  method ProcessOneService(c: Cluster, d: Draft, svc: Service, ip: string) returns (requeue: bool, err: bool)
    modifies c, d
    ensures Out(c.world, Step(d.lb, Verdict(requeue, err))) == ProcessService(old(c.world), old(d.lb), svc, ip)
  {
    hide EnsureFinalizer, EnsureCredentials, DetectNetwork, EnsurePort, HandleFloatingIP;
    if svc.terminating {
      return false, false;
    }
    requeue, err := EnsureServiceHasFinalizer(c, svc);
    if requeue || err {
      return;
    }
    requeue, err := EnsureServiceHasCredentials(c, svc, d);
    if requeue || err {
      return;
    }
    var createFloatingIP := d.lb.spec.createFloatingIP;
    requeue, err := DetectNetworkForLB(c, d, ip);
    if requeue || err {
      return;
    }
    var portID;
    portID, requeue, err := EnsurePortExists(c, d, svc, ip);
    if requeue || err {
      return;
    }
    if createFloatingIP {
      requeue, err := HandleServiceFloatingIP(c, d, svc, portID);
      if requeue || err {
        return;
      }
    }
    return false, false;
  }

  // ----- The loops -----

  lemma ProvisionAllStep(w: World, svcs: seq<Service>, t: Tally)
    ensures svcs == [] ==> ProvisionAll(w, svcs, t) == Out(w, t)
    ensures svcs != [] && !Eligible(svcs[0], t.lb.spec.className) ==>
      ProvisionAll(w, svcs, t) == ProvisionAll(w, svcs[1..], t)
    ensures svcs != [] && Eligible(svcs[0], t.lb.spec.className) ==>
      var p := ProcessService(w, t.lb, svcs[0], svcs[0].status.ingress[0]);
      ProvisionAll(w, svcs, t) == ProvisionAll(p.w, svcs[1..],
        Tally(p.v.lb, true, t.err || p.v.v.err, t.requeue || p.v.v.requeue))
  {
    hide ProcessService, MatchesClass;
  }

  /** The loop of Reconcile over the listed services, with its three flags. */
  method ProcessServices(c: Cluster, d: Draft, svcs: seq<Service>)
    returns (processedAtLeastOne: bool, lastError: bool, needsRequeue: bool)
    modifies c, d
    ensures Out(c.world, Tally(d.lb, processedAtLeastOne, lastError, needsRequeue))
         == ProvisionAll(old(c.world), svcs, Tally(old(d.lb), false, false, false))
  {
    hide ProcessService, MatchesClass, ProvisionAll;
    processedAtLeastOne, lastError, needsRequeue := false, false, false;
    ghost var all := ProvisionAll(c.world, svcs, Tally(d.lb, false, false, false));
    assert svcs[0..] == svcs;
    for i := 0 to |svcs|
      invariant ProvisionAll(c.world, svcs[i..], Tally(d.lb, processedAtLeastOne, lastError, needsRequeue)) == all
    {
      ProvisionAllStep(c.world, svcs[i..], Tally(d.lb, processedAtLeastOne, lastError, needsRequeue));
      assert svcs[i..][1..] == svcs[i + 1..];
      var svc := svcs[i];
      if !MatchesClass(svc, d.lb.spec.className) || svc.spec.serviceType != LoadBalancerType {
        continue;
      }
      if svc.terminating {
        continue;
      }
      if |svc.status.ingress| == 0 || svc.status.ingress[0] == "" {
        continue;
      }
      var requeue, err := ProcessOneService(c, d, svc, svc.status.ingress[0]);
      if err {
        lastError := true;
      }
      if requeue {
        needsRequeue := true;
      }
      processedAtLeastOne := true;
    }
    ProvisionAllStep(c.world, svcs[|svcs|..], Tally(d.lb, processedAtLeastOne, lastError, needsRequeue));
  }

  lemma CleanAllStep(w: World, svcs: seq<Service>, className: string, requeue: bool)
    ensures svcs == [] ==> CleanAll(w, svcs, className, requeue) == Out(w, requeue)
    ensures svcs != [] && !Involved(svcs[0], className) ==>
      CleanAll(w, svcs, className, requeue) == CleanAll(w, svcs[1..], className, requeue)
    ensures svcs != [] && Involved(svcs[0], className) ==>
      var c := CleanService(w, svcs[0]);
      CleanAll(w, svcs, className, requeue) == CleanAll(c.w, svcs[1..], className, requeue || c.v != DONE)
  {
    hide CleanService, Involved;
  }

  /** The loop of handleDeletion. */
  method CleanServices(c: Cluster, svcs: seq<Service>, className: string) returns (needsRequeue: bool)
    modifies c
    ensures Out(c.world, needsRequeue) == CleanAll(old(c.world), svcs, className, false)
  {
    hide Finalize, Cleanup, MatchesClass, CleanAll, HasAnnotation;
    needsRequeue := false;
    ghost var all := CleanAll(c.world, svcs, className, false);
    assert svcs[0..] == svcs;
    for i := 0 to |svcs|
      invariant CleanAll(c.world, svcs[i..], className, needsRequeue) == all
    {
      CleanAllStep(c.world, svcs[i..], className, needsRequeue);
      assert svcs[i..][1..] == svcs[i + 1..];
      var svc := svcs[i];
      if MatchesClass(svc, className) || HasAnnotation(svc, PortID) || HasAnnotation(svc, FloatingIPID) {
        var needs, err;
        if svc.terminating {
          needs, err := HandleServiceFinalizationWithForce(c, svc);
        } else {
          needs, err := CleanupResourcesForService(c, svc);
        }
        if err {
          needsRequeue := true;
        } else if needs {
          needsRequeue := true;
        }
      }
    }
    CleanAllStep(c.world, svcs[|svcs|..], className, needsRequeue);
  }

  /** handleDeletion */
  method HandleLBDeletion(c: Cluster, d: Draft) returns (requeue: bool, err: bool)
    modifies c, d
    ensures Out(c.world, Verdict(requeue, err)) == HandleDeletion(old(c.world), old(d.lb))
  {
    hide NewClient, ListServices, CleanAll, WriteLB, RemoveFinalizer;
    var client := NewClient(c.world, d.lb.spec.secret);
    c.world := client.w;
    if !client.v {
      d.lb := d.lb.(finalizers := RemoveFinalizer(d.lb.finalizers, LoadBalancerFinalizer));
      var ok := UpdateLBWithRetry(c, d.lb);
      return false, !ok;
    }
    var listed := ListServices(c.world);
    c.world := listed.w;
    if listed.v.None? {
      return false, true;
    }
    var needsRequeue := CleanServices(c, listed.v.value, d.lb.spec.className);
    if needsRequeue {
      return true, false;
    }
    d.lb := d.lb.(finalizers := RemoveFinalizer(d.lb.finalizers, LoadBalancerFinalizer));
    var ok := UpdateLBWithRetry(c, d.lb);
    return false, !ok;
  }

  /** The provisioning part of Reconcile. */
  method ReconcileLiveLB(c: Cluster, d: Draft) returns (requeue: bool, err: bool)
    modifies c, d
    ensures Out(c.world, Verdict(requeue, err)) == ReconcileLive(old(c.world), old(d.lb))
  {
    hide NewClient, ListServices, ProvisionAll, WriteStatus, SetCondition;
    var text := ErrorText(c.world);
    var client := NewClient(c.world, d.lb.spec.secret);
    c.world := client.w;
    if !client.v {
      SetConditionOn(d, Ready, false, OpenStackClientError, text, c.world.time);
      var ok := UpdateStatusWithRetry(c, d.lb);
      return false, !ok;
    }
    var listed := ListServices(c.world);
    c.world := listed.w;
    if listed.v.None? {
      return false, true;
    }
    var processedAtLeastOne, lastError, needsRequeue := ProcessServices(c, d, listed.v.value);
    if !processedAtLeastOne {
      SetConditionOn(d, Ready, false, NoMatchingService, [d.lb.spec.className], c.world.time);
    } else if lastError {
      SetConditionOn(d, Ready, false, ProcessingError, ErrorText(c.world), c.world.time);
    } else {
      SetConditionOn(d, Ready, true, ResourcesReady, [], c.world.time);
      d.lb := d.lb.(status := d.lb.status.(ready := true));
    }
    var ok := UpdateStatusWithRetry(c, d.lb);
    if !ok {
      return false, true;
    }
    return needsRequeue, false;
  }

  /** Reconcile.  Whatever happens during the pass, well-formed surroundings stay so; new orphans mean
      that it was troubled or misled by its listing; if the others attach no floating IPs, no port ends
      up with two of the operator's; and if tags can be read, nothing without the tag is deleted. */
  method ReconcileRequest(c: Cluster, req: Key) returns (requeue: bool, err: bool)
    modifies c
    ensures Out(c.world, Verdict(requeue, err)) == Reconcile(old(c.world), req)
    ensures WF(old(c.world)) ==> WF(c.world) && c.world.rules == old(c.world).rules
    ensures WF(old(c.world)) && Guarded(old(c.world)) ==>
      forall id :: Orphan(c.world, id) ==>
        Orphan(old(c.world), id) || Troubled(old(c.world), c.world) || Misled(old(c.world), req, c.world.log.made[id])
    ensures WF(old(c.world)) && !old(c.world).rules.binds ==> OneBound(c.world.cloud, c.world.log.made)
    ensures WF(old(c.world)) && TagsReadable(old(c.world).script) ==> c.world.log.seized == old(c.world).log.seized
  {
    hide ReconcileService, GetLB, WriteLB, HandleDeletion, ReconcileLive, IsServiceRequest, WF, Orphan, Misled;
    hide TagsReadable, OneBound;
    PassFacts(c.world, req);
    if IsServiceRequest(req.name) {
      requeue, err := ReconcileServiceRequest(c, req);
      return;
    }
    var got := GetLB(c.world, req);
    c.world := got.w;
    match got.v {
      case Missing => return false, false;
      case Failed => return false, true;
      case Found(lb) =>
        var d := new Draft(lb);
        if LoadBalancerFinalizer !in lb.finalizers && !lb.terminating {
          d.lb := d.lb.(finalizers := AddFinalizer(d.lb.finalizers, LoadBalancerFinalizer));
          var ok := UpdateLBWithRetry(c, d.lb);
          return false, !ok;
        }
        if lb.terminating {
          requeue, err := HandleLBDeletion(c, d);
        } else {
          requeue, err := ReconcileLiveLB(c, d);
        }
    }
  }

  lemma PassFacts(w: World, req: Key)
    ensures WF(w) ==> WF(Reconcile(w, req).w) && Reconcile(w, req).w.rules == w.rules
    ensures var r := Reconcile(w, req).w;
      WF(w) && Guarded(w) ==>
        forall id :: Orphan(r, id) ==> Orphan(w, id) || Troubled(w, r) || Misled(w, req, r.log.made[id])
    ensures WF(w) && !w.rules.binds ==> OneBound(Reconcile(w, req).w.cloud, Reconcile(w, req).w.log.made)
    ensures WF(w) && TagsReadable(w.script) ==> Reconcile(w, req).w.log.seized == w.log.seized
  {
    hide WF, Reconcile, OneBound, TagsReadable, Owned, Misled;
    if WF(w) {
      assert Run(w, [req]) == Reconcile(w, req).w by { assert Run(Reconcile(w, req).w, []) == Reconcile(w, req).w; }
      RunKeeps(w, [req]);
      if TagsReadable(w.script) {
        RunSparesForeign(w, [req]);
      }
      if Guarded(w) {
        var r := Reconcile(w, req).w;
        forall id | Orphan(r, id) ensures Orphan(w, id) || Troubled(w, r) || Misled(w, req, r.log.made[id]) {
          PassOrphans(w, req, id);
        }
      }
    }
  }

  /** The single worker: it takes the requests one after the other.  The run theorems hold of it: on
      orphans, on floating IPs and on foreign resources from wherever it starts, and on the number of
      ports of a service from where nothing has been made yet. */
  method Work(c: Cluster, reqs: seq<Key>)
    modifies c
    ensures c.world == Run(old(c.world), reqs)
    ensures WF(old(c.world)) ==> WF(c.world)
    ensures WF(old(c.world)) && Guarded(old(c.world)) ==>
      forall id :: Orphan(c.world, id) ==>
        Orphan(old(c.world), id) || exists i :: 0 <= i < |reqs| && OrphanedAt(old(c.world), reqs, i, id)
    ensures WF(old(c.world)) && !old(c.world).rules.binds ==>
      forall portID :: portID != "" ==> |MadeOn(c.world, portID)| <= 1 + |LostFrom(c.world, portID)|
    ensures WF(old(c.world)) && TagsReadable(old(c.world).script) ==> c.world.log.seized == old(c.world).log.seized
    ensures Setting(old(c.world)) && AllSee(old(c.world), reqs) && Unmade(old(c.world).log) ==>
      forall o :: Lives(c.world, o) ==> |PortsOf(c.world, o)| <= 1 + MishapsOf(c.world.log, o)
  {
    hide Reconcile, WF, Orphan, OrphanedAt, TagsReadable, Setting, AllSee, MadeOn, LostFrom, PortsOf, MishapsOf, Misled;
    RunFacts(c.world, reqs);
    assert reqs[0..] == reqs;
    for i := 0 to |reqs|
      invariant Run(c.world, reqs[i..]) == Run(old(c.world), reqs)
    {
      assert reqs[i..][1..] == reqs[i + 1..];
      var requeue, err := ReconcileRequest(c, reqs[i]);
    }
  }

  /** Nothing has been made so far. */
  predicate Unmade(log: Log) {
    log.made == map[] && log.strays == map[] && log.mishaps == map[]
  }

  lemma RunFacts(w: World, reqs: seq<Key>)
    ensures var r := Run(w, reqs);
      && (WF(w) ==> WF(r))
      && (WF(w) && Guarded(w) ==>
            forall id :: Orphan(r, id) ==> Orphan(w, id) || exists i :: 0 <= i < |reqs| && OrphanedAt(w, reqs, i, id))
      && (WF(w) && !w.rules.binds ==> forall portID :: portID != "" ==>
             |MadeOn(r, portID)| <= 1 + |LostFrom(r, portID)|)
      && (WF(w) && TagsReadable(w.script) ==> r.log.seized == w.log.seized)
      && (Setting(w) && AllSee(w, reqs) && Unmade(w.log) ==>
            forall o :: Lives(r, o) ==> |PortsOf(r, o)| <= 1 + MishapsOf(r.log, o))
  {
    hide Run, WF, Orphan, OrphanedAt, TagsReadable, Setting, AllSee, MadeOn, LostFrom, PortsOf, MishapsOf, Lives;
    var r := Run(w, reqs);
    if WF(w) {
      RunKeeps(w, reqs);
      if TagsReadable(w.script) {
        RunSparesForeign(w, reqs);
      }
    }
    if WF(w) && Guarded(w) {
      forall id | Orphan(r, id) ensures Orphan(w, id) || exists i :: 0 <= i < |reqs| && OrphanedAt(w, reqs, i, id) {
        RunOrphans(w, reqs, id);
      }
    }
    if WF(w) && !w.rules.binds {
      forall portID | portID != "" ensures |MadeOn(r, portID)| <= 1 + |LostFrom(r, portID)| {
        RunFloatingIPs(w, reqs, portID);
      }
    }
    if Setting(w) && AllSee(w, reqs) && Unmade(w.log) {
      forall o | Lives(r, o) ensures |PortsOf(r, o)| <= 1 + MishapsOf(r.log, o) {
        RunPorts(w, reqs, o);
      }
    }
  }
}
