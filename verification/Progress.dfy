/** The provisioning steps for one stored service when nobody else acts: what each leaves stored,
    and how far the service has got. */
module Progress {
  import opened Kube
  import opened Cloud
  import opened Selection
  import opened Network
  import opened Worlds
  import opened Calls
  import opened Retry
  import opened Operator
  import opened Evolution
  import opened Passes
  import opened Refinement
  import opened Undisturbed

  /** The parts of a service that provisioning leaves alone once the finalizer is on. */
  ghost predicate Alike(o: Service, svc: Service) {
    && o.key == svc.key && o.uid == svc.uid && o.terminating == svc.terminating
    && o.finalizers == svc.finalizers && o.status == svc.status
    && o.spec.(externalIPs := []) == svc.spec.(externalIPs := [])
    && (LoadBalancerClass in o.annotations <==> LoadBalancerClass in svc.annotations)
    && Annotation(o, LoadBalancerClass) == Annotation(svc, LoadBalancerClass)
  }

  /** The service refers to credentials, or writing the load balancer's would change nothing. */
  predicate Credited(o: Service, secret: SecretRef) {
    || (HasAnnotation(o, CredentialsSecretName) && HasAnnotation(o, CredentialsSecretNamespace))
    || (&& CredentialsSecretName in o.annotations && o.annotations[CredentialsSecretName] == secret.name
        && CredentialsSecretNamespace in o.annotations && o.annotations[CredentialsSecretNamespace] == secret.namespace)
  }

  /** The service is stored with these records and its credentials. */
  ghost predicate Stands(w: World, svc: Service, secret: SecretRef, portID: string, fipID: string) {
    && Still(w)
    && svc.key in w.services.objects
    && var o := w.services.objects[svc.key];
       Alike(o, svc) && Credited(o, secret) && Annotation(o, PortID) == portID && Annotation(o, FloatingIPID) == fipID
  }

  /** Writing an object that is not terminating stores just that. */
  lemma ReplaceStores(s: Store<ServiceSpec, ServiceStatus>, o: Service)
    requires Valid(s) && o.key in s.objects && o.uid == s.objects[o.key].uid && !o.terminating
    ensures var t := Replace(s, o); o.key in t.objects && t.objects[o.key] == o.(version := t.objects[o.key].version)
    ensures s.objects[o.key] == o ==> Replace(s, o) == s
  {
    hide Valid;
    ReplaceOutside(s, o, {o.key});
  }

  function After(edits: Annotations, name: AnnotationName, before: string): string {
    if name in edits then edits[name] else before
  }

  lemma RecordsEdited(o: Service, edits: Annotations, version: nat, svc: Service, secret: SecretRef)
    requires Alike(o, svc) && Credited(o, secret) && edits.Keys <= {PortID, FloatingIPID}
    ensures var e := Annotated(o, edits).(version := version);
      && Alike(e, svc) && Credited(e, secret)
      && Annotation(e, PortID) == After(edits, PortID, Annotation(o, PortID))
      && Annotation(e, FloatingIPID) == After(edits, FloatingIPID, Annotation(o, FloatingIPID))
  {
    assert CredentialsSecretName !in edits && CredentialsSecretNamespace !in edits && LoadBalancerClass !in edits;
  }

  lemma CredentialsEdited(svc: Service, lb: LoadBalancer, version: nat)
    ensures var e := Annotated(svc, Credentials(lb)).(version := version);
      && Alike(e, svc) && Credited(e, lb.spec.secret)
      && Annotation(e, PortID) == Annotation(svc, PortID)
      && Annotation(e, FloatingIPID) == Annotation(svc, FloatingIPID)
    ensures Credited(svc, lb.spec.secret) ==>
      (HasAnnotation(svc, CredentialsSecretName) && HasAnnotation(svc, CredentialsSecretNamespace))
        || Annotated(svc, Credentials(lb)) == svc
  {
    var edits := Credentials(lb);
    assert CredentialsSecretName in edits && CredentialsSecretNamespace in edits;
    if Credited(svc, lb.spec.secret)
      && !(HasAnnotation(svc, CredentialsSecretName) && HasAnnotation(svc, CredentialsSecretNamespace)) {
      assert svc.annotations + edits == svc.annotations;
    }
  }

  /** An edit of the two records. */
  lemma EditStands(w: World, svc: Service, secret: SecretRef, portID: string, fipID: string, edits: Annotations)
    requires Stands(w, svc, secret, portID, fipID) && !svc.terminating && edits.Keys <= {PortID, FloatingIPID}
    ensures var r := EditAnnotations(w, svc.key, edits, STEPS);
      && Follows(w, r.w) && r.w.cloud == w.cloud && r.w.lbs == w.lbs
      && (w.script == [] ==> r.v)
      && (r.v ==> Stands(r.w, svc, secret, After(edits, PortID, portID), After(edits, FloatingIPID, fipID)))
  {
    hide EditAnnotations, Replace, Quiet, Fresh, ValidCloud, Marked, OneBound, Valid, Credited, Annotation, After;
    var o := w.services.objects[svc.key];
    EditStill(w, svc.key, edits, STEPS);
    if w.script == [] {
      CalmUpdates(w, svc.key, edits, "", STEPS);
    }
    assert o.key == svc.key;
    ReplaceStores(w.services, Annotated(o, edits));
    var s := Replace(w.services, Annotated(o, edits));
    RecordsEdited(o, edits, s.objects[svc.key].version, svc, secret);
    hide Alike, Annotated;
  }

  /** ensureServiceHasCredentials on a service as stored. */
  lemma CredentialsStand(w: World, svc: Service, lb: LoadBalancer)
    requires Still(w) && !svc.terminating && svc.key in w.services.objects && w.services.objects[svc.key] == svc
    ensures var c := EnsureCredentials(w, svc, lb);
      && Follows(w, c.w) && c.w.cloud == w.cloud && c.w.lbs == w.lbs
      && (w.script == [] ==> c.v == DONE)
      && (c.v == DONE ==> Stands(c.w, svc, lb.spec.secret, Annotation(svc, PortID), Annotation(svc, FloatingIPID)))
      && (Credited(svc, lb.spec.secret) ==> c.w.services == w.services)
  {
    hide EditAnnotations, Replace, Quiet, Fresh, ValidCloud, Marked, OneBound, Valid, Credentials, HasAnnotation;
    hide Annotation;
    var edits := Credentials(lb);
    EditStill(w, svc.key, edits, STEPS);
    if w.script == [] {
      CalmUpdates(w, svc.key, edits, "", STEPS);
    }
    ReplaceStores(w.services, Annotated(svc, edits));
    var s := Replace(w.services, Annotated(svc, edits));
    CredentialsEdited(svc, lb, s.objects[svc.key].version);
    assert HasAnnotation(svc, CredentialsSecretName) && HasAnnotation(svc, CredentialsSecretNamespace) ==>
      Credited(svc, lb.spec.secret);
    hide Credited;
  }

  lemma FaultStill(w: World)
    requires Still(w)
    ensures Follows(w, Tick(w)) && Same(w, Tick(w)) && Follows(w, Fault(Tick(w))) && Same(w, Fault(Tick(w)))
    ensures w.script == [] ==> Ok(w)
  {
    hide Tick, Quiet, Fresh, ValidCloud, Marked, OneBound, Valid;
    TickStill(w);
  }

  lemma StandsSame(a: World, b: World, svc: Service, secret: SecretRef, portID: string, fipID: string)
    requires Stands(a, svc, secret, portID, fipID) && Still(b) && a.services == b.services
    ensures Stands(b, svc, secret, portID, fipID)
  {
    hide Still, Alike, Credited;
  }

  /** The address lies in a subnet whose ids are not empty. */
  predicate Locatable(w: World, ip: string) {
    && ip in w.texts.addresses
    && FirstMatch(w.texts, w.cloud.subnets, w.texts.addresses[ip]).Some?
    && FirstMatch(w.texts, w.cloud.subnets, w.texts.addresses[ip]).value.networkID != ""
    && FirstMatch(w.texts, w.cloud.subnets, w.texts.addresses[ip]).value.id != ""
  }

  lemma DetectStill(w: World, lb: LoadBalancer, ip: string)
    requires Still(w)
    ensures var d := DetectNetwork(w, lb, ip);
      && Follows(w, d.w) && Same(w, d.w) && d.v.lb.spec == lb.spec && d.v.lb.key == lb.key
      && (NetworkKnown(lb) ==> d == Out(w, Step(lb, DONE)))
      && (w.script == [] && Locatable(w, ip) ==> d.v.v == DONE && NetworkKnown(d.v.lb))
  {
    hide Tick, Quiet, Fresh, WF, FirstMatch, SetCondition, Fault;
    FaultStill(w);
  }

  // ----- The port -----

  lemma CheckPortStill(w: World, lb: LoadBalancer, svc: Service, secret: SecretRef, fipID: string)
    requires Stands(w, svc, secret, Annotation(svc, PortID), fipID) && !svc.terminating
    ensures var p, portID := CheckPort(w, lb, svc), Annotation(svc, PortID);
      && p.v.lb == lb && Follows(w, p.w) && p.w.lbs == w.lbs && p.w.cloud == w.cloud
      && (p.v.v == DONE ==> p.w.services == w.services && p.v.portID == portID && portID in w.cloud.ports)
      && (w.script == [] && portID in w.cloud.ports ==> p.v.v == DONE)
      && (w.script == [] && portID !in w.cloud.ports ==> p.v.v == Verdict(true, false))
      && (p.v.v == Verdict(true, false) ==> portID !in w.cloud.ports && Stands(p.w, svc, secret, "", fipID))
  {
    hide Tick, Still, Fault, EditAnnotations, Alike, Credited;
    var portID := Annotation(svc, PortID);
    FaultStill(w);
    var g := GetResource(w, PortKind, portID);
    if g.v == Some(false) {
      StandsSame(w, g.w, svc, secret, portID, fipID);
      EditStands(g.w, svc, secret, portID, fipID, map[PortID := ""]);
    }
  }

  lemma CreatePortStill(w: World, owner: Owner, networkID: string, subnetID: string, ip: string)
    requires Still(w)
    ensures var c := CreatePort(w, owner, networkID, subnetID, ip);
      && Follows(w, c.w) && c.w.services == w.services && c.w.lbs == w.lbs
      && (w.script == [] ==> c.v.Some?)
      && (c.v.Some? ==> c.v.value in c.w.cloud.ports)
  {
    hide Quiet, Fresh, TagsReadable, Valid, ValidCloud, Marked, OneBound, StoresEvolve, CloudEvolves, CreatePort;
    hide Spares;
    var sc := Scope({}, {}, {}, {owner}, false);
    CreatePortEvolves(w, owner, networkID, subnetID, ip, sc);
    CreatePortStores(w, owner, networkID, subnetID, ip);
  }

  lemma CreatePortStores(w: World, owner: Owner, networkID: string, subnetID: string, ip: string)
    requires Still(w)
    ensures var c := CreatePort(w, owner, networkID, subnetID, ip);
      && c.w.services == w.services && c.w.lbs == w.lbs
      && (w.script == [] ==> c.v.Some?)
      && (c.v.Some? ==> c.v.value in c.w.cloud.ports)
  {
    hide Tick, Quiet, Fresh, WF, PortName, PortDescription, TagList, NewID;
    TickStill(w);
    var t := Tick(w);
    var id := NewID(t.cloud, Next(w).id);
    var p := PlacePort(t, id, owner, networkID, subnetID, ip);
    if Next(w).fate == Succeeds {
      PlacePortEvolves(t, id, owner, networkID, subnetID, ip, Scope({}, {}, {}, {owner}, false));
      assert Still(p) by { hide StoresEvolve, CloudEvolves, TagsReadable, Spares, PlacePort; }
      TickStill(p);
    }
  }

  lemma MakePortStill(w: World, lb: LoadBalancer, svc: Service, ip: string, secret: SecretRef, fipID: string)
    requires Stands(w, svc, secret, Annotation(svc, PortID), fipID) && !svc.terminating
    ensures var p := MakePort(w, lb, svc, ip);
      && (w.script == [] ==> p.v.v == DONE)
      && (p.v.v == DONE ==>
            && Follows(w, p.w) && p.w.lbs == w.lbs
            && Stands(p.w, svc, secret, p.v.portID, fipID) && p.v.portID in p.w.cloud.ports)
  {
    hide Still, CreatePort, EditAnnotations, Alike, Credited, SetCondition, Recorded;
    var c := CreatePort(w, OwnerOf(svc), lb.status.networkID, lb.status.subnetID, ip);
    CreatePortStill(w, OwnerOf(svc), lb.status.networkID, lb.status.subnetID, ip);
    if c.v.Some? {
      StandsSame(w, c.w, svc, secret, Annotation(svc, PortID), fipID);
      EditStands(c.w, svc, secret, Annotation(svc, PortID), fipID, map[PortID := c.v.value]);
      var u := EditAnnotations(c.w, svc.key, map[PortID := c.v.value], STEPS);
      NotesStill(u.w, OwnerOf(svc), c.v.value);
      if u.v {
        StandsSame(u.w, Recorded(u.w, OwnerOf(svc), c.v.value), svc, secret, c.v.value, fipID);
      }
    }
  }

  lemma NotesStill(w: World, owner: Owner, id: string)
    requires Still(w)
    ensures Follows(w, Recorded(w, owner, id)) && Same(w, Recorded(w, owner, id))
    ensures Follows(w, Mishap(w, owner)) && Same(w, Mishap(w, owner))
  {
    hide Quiet, Fresh, Valid, ValidCloud, Marked, OneBound;
  }

  // ----- The floating IP -----

  /** The floating IP is live, and its address, if any, is among the external IPs. */
  predicate Reachable(o: Service, c: Neutron, fipID: string) {
    fipID in c.fips && (c.fips[fipID].address == "" || c.fips[fipID].address in o.spec.externalIPs)
  }

  /** The service records a live port and, if asked for, a live floating IP. */
  predicate Served(o: Service, c: Neutron, fip: bool) {
    Annotation(o, PortID) in c.ports && (fip ==> Reachable(o, c, Annotation(o, FloatingIPID)))
  }

  lemma ExposeStands(w: World, svc: Service, secret: SecretRef, portID: string, fipID: string, ip: string)
    requires Stands(w, svc, secret, portID, fipID) && !svc.terminating
    ensures var r := AddExternalIP(w, svc.key, ip, STEPS);
      && Follows(w, r.w) && r.w.cloud == w.cloud && r.w.lbs == w.lbs
      && (w.script == [] ==> r.v)
      && (r.v ==> Stands(r.w, svc, secret, portID, fipID) && ip in r.w.services.objects[svc.key].spec.externalIPs)
      && (ip in w.services.objects[svc.key].spec.externalIPs ==> r.w.services == w.services)
  {
    hide AddExternalIP, Replace, Quiet, Fresh, ValidCloud, Marked, OneBound, Valid;
    var o := w.services.objects[svc.key];
    ExposeStill(w, svc.key, ip, STEPS);
    if w.script == [] {
      CalmUpdates(w, svc.key, map[], ip, STEPS);
    }
    assert o.key == svc.key;
    ReplaceStores(w.services, Exposed(o, ip));
  }

  lemma RecordStill(w: World, lb: LoadBalancer, svc: Service, secret: SecretRef, portID: string, fipID: string,
                    id: string, address: string, reason: Reason)
    requires Stands(w, svc, secret, portID, fipID) && !svc.terminating
    ensures var r := RecordFloatingIP(w, lb, svc, id, address, reason, portID);
      && Follows(w, r.w) && r.w.cloud == w.cloud && r.w.lbs == w.lbs
      && (w.script == [] ==> r.v.v == DONE)
      && (r.v.v == DONE ==> Stands(r.w, svc, secret, portID, id) && r.v.address == address)
  {
    hide Still, EditAnnotations, Alike, Credited, SetCondition;
    EditStands(w, svc, secret, portID, fipID, map[FloatingIPID := id]);
  }

  lemma CreateFloatingIPStores(w: World, owner: Owner, portID: string)
    requires Still(w) && portID != "" && Unbound(w, portID)
    ensures var c := CreateFloatingIP(w, owner, portID);
      && c.w.services == w.services && c.w.lbs == w.lbs
      && (w.script == [] ==> c.v.Some?)
      && (c.v.Some? ==> c.v.value.id in c.w.cloud.fips && c.w.cloud.fips[c.v.value.id].address == c.v.value.address)
  {
    hide Tick, Quiet, Fresh, WF, PortName, PortDescription, FloatingIPDescription, TagList, NewID;
    TickStill(w);
    var t := Tick(w);
    var id := NewID(t.cloud, Next(w).id);
    var address := if Next(w).text == "" then id else Next(w).text;
    var f := PlaceFloatingIP(t, id, address, owner, portID);
    if Next(w).fate == Succeeds {
      PlaceFloatingIPEvolves(t, id, address, owner, portID, Scope({}, {}, {}, {owner}, false));
      assert Still(f) by { hide StoresEvolve, CloudEvolves, TagsReadable, Spares, PlaceFloatingIP; }
      TickStill(f);
    }
  }

  lemma CreateFloatingIPStill(w: World, owner: Owner, portID: string)
    requires Still(w) && portID != "" && Unbound(w, portID)
    ensures var c := CreateFloatingIP(w, owner, portID);
      && Follows(w, c.w) && c.w.services == w.services && c.w.lbs == w.lbs && KeepsLive(w.cloud, c.w.cloud)
      && (w.script == [] ==> c.v.Some?)
      && (c.v.Some? ==> c.v.value.id in c.w.cloud.fips && c.w.cloud.fips[c.v.value.id].address == c.v.value.address)
  {
    hide Quiet, Fresh, TagsReadable, Valid, ValidCloud, Marked, OneBound, StoresEvolve, CreateFloatingIP, Spares;
    hide LogGrows, Ages, Unbinds, KeepsLive, Unbound;
    CreateFloatingIPEvolves(w, owner, portID, Scope({}, {}, {}, {owner}, false));
    CreateFloatingIPStores(w, owner, portID);
  }

  lemma CreateOrFindStill(w: World, lb: LoadBalancer, svc: Service, secret: SecretRef, portID: string)
    returns (id: string)
    requires Stands(w, svc, secret, portID, "") && !svc.terminating && portID in w.cloud.ports
    ensures var r := CreateOrFind(w, lb, svc, portID);
      && (w.script == [] && lb.spec.floatingIPNetworkID != "" ==> r.v.v == DONE)
      && (r.v.v == DONE ==>
            && Follows(w, r.w) && r.w.lbs == w.lbs && KeepsLive(w.cloud, r.w.cloud)
            && Stands(r.w, svc, secret, portID, id)
            && id in r.w.cloud.fips && r.w.cloud.fips[id].address == r.v.address)
  {
    hide Tick, Still, Fault, RecordFloatingIP, CreateFloatingIP, FindFloatingIP, Alike, Credited, SetCondition;
    hide KeepsLive, Unbound;
    assert portID != "" by { NoEmptyPort(w); }
    var f := FindFloatingIP(w, portID);
    id := "";
    FindStill(w, portID);
    match f.v {
      case None =>
      case Some(Some(fip)) =>
        id := fip.id;
        StandsSame(w, f.w, svc, secret, portID, "");
        RecordStill(f.w, lb, svc, secret, portID, "", fip.id, fip.address, FoundExisting);
        KeepsLiveReflexive(w.cloud);
      case Some(None) =>
        CreateFloatingIPStill(f.w, OwnerOf(svc), portID);
        var c := CreateFloatingIP(f.w, OwnerOf(svc), portID);
        if c.v.Some? {
          id := c.v.value.id;
          StandsSame(w, c.w, svc, secret, portID, "");
          RecordStill(c.w, lb, svc, secret, portID, "", id, c.v.value.address, Created);
        }
    }
  }

  lemma KeepsLiveReflexive(c: Neutron)
    ensures KeepsLive(c, c)
  {
  }

  lemma NoEmptyPort(w: World)
    requires Still(w)
    ensures "" !in w.cloud.ports && "" !in w.cloud.fips
  {
    hide Quiet, Fresh, Valid, Marked, OneBound;
  }

  lemma FindStill(w: World, portID: string)
    requires Still(w)
    ensures var f := FindFloatingIP(w, portID);
      && (w.script == [] ==> f.v.Some?)
      && Follows(w, f.w) && Same(w, f.w)
      && (f.v == Some(None) ==> Unbound(f.w, portID))
      && (f.v.Some? && f.v.value.Some? ==>
             var fip := f.v.value.value; fip.id in f.w.cloud.fips && f.w.cloud.fips[fip.id] == fip)
  {
    hide Tick, WF, Quiet, Fresh, StoresEvolve, CloudEvolves, BoundTo, FloatingIPList, Evolves;
    FaultStill(w);
    FindFloatingIPFacts(w, portID, Scope({}, {}, {}, {}, false));
  }

  lemma CheckFloatingIPStill(w: World, lb: LoadBalancer, svc: Service, secret: SecretRef, portID: string)
    requires Stands(w, svc, secret, portID, Annotation(svc, FloatingIPID)) && !svc.terminating
    ensures var r, id := CheckFloatingIP(w, lb, svc), Annotation(svc, FloatingIPID);
      && r.v.lb == lb && Follows(w, r.w) && r.w.lbs == w.lbs && r.w.cloud == w.cloud
      && (r.v.v == DONE ==> r.w.services == w.services && id in w.cloud.fips && r.v.address == w.cloud.fips[id].address)
      && (w.script == [] && id in w.cloud.fips ==> r.v.v == DONE)
      && (w.script == [] && id !in w.cloud.fips ==> r.v.v == Verdict(true, false))
      && (r.v.v == Verdict(true, false) ==> id !in w.cloud.fips && Stands(r.w, svc, secret, portID, ""))
  {
    hide Tick, Still, EditAnnotations, Alike, Credited;
    var id := Annotation(svc, FloatingIPID);
    FaultStill(w);
    var g := GetResource(w, FloatingIPKind, id);
    if g.v == Some(false) {
      StandsSame(w, g.w, svc, secret, portID, id);
      EditStands(g.w, svc, secret, portID, id, map[FloatingIPID := ""]);
    } else if g.v == Some(true) {
      FaultStill(g.w);
    }
  }

  /** The service is stored with this port, and served, floating IP included. */
  ghost predicate Reaches(w: World, svc: Service, secret: SecretRef, portID: string) {
    && svc.key in w.services.objects
    && Stands(w, svc, secret, portID, Annotation(w.services.objects[svc.key], FloatingIPID))
    && Served(w.services.objects[svc.key], w.cloud, true)
  }

  lemma HandleKnown(w: World, lb: LoadBalancer, svc: Service, secret: SecretRef, portID: string)
    requires Stands(w, svc, secret, portID, Annotation(svc, FloatingIPID)) && !svc.terminating
    requires portID in w.cloud.ports
    requires HasAnnotation(svc, FloatingIPID)
    ensures var r, id := HandleFloatingIP(w, lb, svc, portID), Annotation(svc, FloatingIPID);
      && r.v.lb == lb && r.w.cloud == w.cloud && r.w.lbs == w.lbs
      && (r.v.v == DONE ==> Reaches(r.w, svc, secret, portID) && Stands(r.w, svc, secret, portID, id))
      && (w.script == [] && id in w.cloud.fips ==> r.v.v == DONE)
      && (w.script == [] && id !in w.cloud.fips ==> r.v.v == Verdict(true, false))
      && (r.v.v == Verdict(true, false) ==> id !in w.cloud.fips && Stands(r.w, svc, secret, portID, ""))
      && (w.script == [] && Reachable(w.services.objects[svc.key], w.cloud, id) ==> r.w.services == w.services)
  {
    hide Tick, Still, AddExternalIP, CheckFloatingIP, Alike, Credited;
    var id := Annotation(svc, FloatingIPID);
    CheckFloatingIPStill(w, lb, svc, secret, portID);
    var a := CheckFloatingIP(w, lb, svc);
    if a.v.v == DONE {
      StandsSame(w, a.w, svc, secret, portID, id);
      ExposeStands(a.w, svc, secret, portID, id, a.v.address);
    }
  }

  lemma HandleNew(w: World, lb: LoadBalancer, svc: Service, secret: SecretRef, portID: string)
    requires Stands(w, svc, secret, portID, Annotation(svc, FloatingIPID)) && !svc.terminating
    requires portID in w.cloud.ports
    requires !HasAnnotation(svc, FloatingIPID)
    ensures var r := HandleFloatingIP(w, lb, svc, portID);
      && (r.v.v == DONE ==> r.w.lbs == w.lbs && Reaches(r.w, svc, secret, portID))
      && (w.script == [] && lb.spec.floatingIPNetworkID != "" ==> r.v.v == DONE)
  {
    hide Tick, Still, AddExternalIP, CreateOrFind, Alike, Credited, KeepsLive;
    var made := CreateOrFindStill(w, lb, svc, secret, portID);
    var a := CreateOrFind(w, lb, svc, portID);
    if a.v.v == DONE {
      assert portID in a.w.cloud.ports by { PortStays(w.cloud, a.w.cloud, portID); }
      ExposeStands(a.w, svc, secret, portID, made, a.v.address);
    }
  }

  lemma PortStays(a: Neutron, b: Neutron, portID: string)
    requires KeepsLive(a, b) && portID in a.ports
    ensures portID in b.ports
  {
  }
}
