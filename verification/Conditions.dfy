/** What the conditions of a load balancer say after a provisioning step and after a pass. */
module Conditions {
  import opened Kube
  import opened Worlds
  import opened Calls
  import opened Retry
  import opened Operator

  /** The condition of a kind: the first one of that kind in the list. */
  function FirstOf(cs: seq<Condition>, kind: ConditionKind): Option<Condition> {
    if cs == [] then None else if cs[0].kind == kind then Some(cs[0]) else FirstOf(cs[1..], kind)
  }

  predicate Says(cs: seq<Condition>, kind: ConditionKind, status: bool, reason: Reason) {
    FirstOf(cs, kind).Some? && FirstOf(cs, kind).value.status == status && FirstOf(cs, kind).value.reason == reason
  }

  /** The conditions of the other kinds are as before. */
  ghost predicate OthersSay(a: LoadBalancer, b: LoadBalancer, kind: ConditionKind) {
    && (forall other :: other != kind ==> FirstOf(b.status.conditions, other) == FirstOf(a.status.conditions, other))
    && b.status.ready == a.status.ready && b.key == a.key && b.spec == a.spec
  }

  lemma {:induction false} SetSays(cs: seq<Condition>, kind: ConditionKind, status: bool, reason: Reason,
                                   detail: seq<string>, now: nat)
    ensures var r := SetCondition(cs, kind, status, reason, detail, now);
      && Says(r, kind, status, reason) && FirstOf(r, kind).value.detail == detail
      && forall other :: other != kind ==> FirstOf(r, other) == FirstOf(cs, other)
  {
    if cs != [] && cs[0].kind != kind {
      SetSays(cs[1..], kind, status, reason, detail, now);
    }
  }

  lemma NoteSays(w: World, lb: LoadBalancer, kind: ConditionKind, status: bool, reason: Reason, detail: seq<string>)
    ensures var n := Note(w, lb, kind, status, reason, detail);
      && Says(n.status.conditions, kind, status, reason) && FirstOf(n.status.conditions, kind).value.detail == detail
      && OthersSay(lb, n, kind) && n.status.networkID == lb.status.networkID && n.status.subnetID == lb.status.subnetID
  {
    hide SetCondition;
    SetSays(lb.status.conditions, kind, status, reason, detail, w.time);
  }

  // ----- Steps -----

  /** Detection says NetworkDetected=True with the ids it stores, or False when it fails; once both ids
      are known it says nothing. */
  lemma DetectSays(w: World, lb: LoadBalancer, ip: string)
    ensures var d := DetectNetwork(w, lb, ip); var after := d.v.lb;
      if lb.status.networkID != "" && lb.status.subnetID != "" then d == Out(w, Step(lb, DONE))
      else if d.v.v == DONE then
        && OthersSay(lb, after, NetworkDetected)
        && Says(after.status.conditions, NetworkDetected, true, Detected)
        && FirstOf(after.status.conditions, NetworkDetected).value.detail
             == [after.status.networkID, after.status.subnetID, ip]
      else
        && d.v.v == Verdict(true, true) && OthersSay(lb, after, NetworkDetected)
        && Says(after.status.conditions, NetworkDetected, false, DetectionFailed)
        && after.status.networkID == lb.status.networkID && after.status.subnetID == lb.status.subnetID
  {
    hide Note, FindSubnet, FirstOf;
    var s := FindSubnet(w, ip);
    if !NetworkKnown(lb) {
      match s.v {
        case None => NoteSays(s.w, lb, NetworkDetected, false, DetectionFailed, ErrorText(w));
        case Some(subnet) =>
          var found := lb.(status := lb.status.(networkID := subnet.networkID, subnetID := subnet.id));
          NoteSays(s.w, found, NetworkDetected, true, Detected, [subnet.networkID, subnet.id, ip]);
      }
    }
  }

  /** A port made and recorded is announced, one that could not be made is reported; checking a recorded
      port and failing to record a new one say nothing. */
  lemma PortSays(w: World, lb: LoadBalancer, svc: Service, ip: string)
    ensures var p := EnsurePort(w, lb, svc, ip);
      var made := CreatePort(w, OwnerOf(svc), lb.status.networkID, lb.status.subnetID, ip).v;
      if HasAnnotation(svc, PortID) then p.v.lb == lb
      else if made.None? then
        p.v.v == Verdict(true, true) && OthersSay(lb, p.v.lb, PortCreated)
        && Says(p.v.lb.status.conditions, PortCreated, false, CreationFailed)
      else if p.v.v == DONE then
        && p.v.portID == made.value && OthersSay(lb, p.v.lb, PortCreated)
        && Says(p.v.lb.status.conditions, PortCreated, true, Created)
        && FirstOf(p.v.lb.status.conditions, PortCreated).value.detail == [made.value, ip]
      else p.v.v == Verdict(true, true) && p.v.lb == lb
  {
    hide Note, CreatePort, EditAnnotations, GetResource, Recorded, Mishap, FirstOf, HasAnnotation;
    if !HasAnnotation(svc, PortID) {
      var c := CreatePort(w, OwnerOf(svc), lb.status.networkID, lb.status.subnetID, ip);
      NoteSays(c.w, lb, PortCreated, false, CreationFailed, ErrorText(w));
      if c.v.Some? {
        var u := EditAnnotations(c.w, svc.key, map[PortID := c.v.value], STEPS);
        NoteSays(u.w, lb, PortCreated, true, Created, [c.v.value, ip]);
      }
    }
  }

  /** The same for floating IPs: a missing network and a failed creation are reported, one made or found
      and recorded is announced as such. */
  lemma FloatingIPSays(w: World, lb: LoadBalancer, svc: Service, portID: string)
    ensures var a, found := CreateOrFind(w, lb, svc, portID), FindFloatingIP(w, portID);
      var cs := a.v.lb.status.conditions;
      if lb.spec.floatingIPNetworkID == "" then
        && a.v.v == Verdict(true, true) && a.w == w && OthersSay(lb, a.v.lb, FloatingIPCreated)
        && Says(cs, FloatingIPCreated, false, MissingFloatingIPNetwork)
      else if a.v.v == DONE then
        && found.v.Some? && OthersSay(lb, a.v.lb, FloatingIPCreated)
        && Says(cs, FloatingIPCreated, true, if found.v.value.Some? then FoundExisting else Created)
      else
        && a.v.v == Verdict(true, true)
        && (a.v.lb != lb ==>
              && found.v == Some(None) && CreateFloatingIP(found.w, OwnerOf(svc), portID).v.None?
              && OthersSay(lb, a.v.lb, FloatingIPCreated) && Says(cs, FloatingIPCreated, false, CreationFailed))
        && (found.v == Some(None) && CreateFloatingIP(found.w, OwnerOf(svc), portID).v.None? ==>
              Says(cs, FloatingIPCreated, false, CreationFailed))
  {
    hide Note, FindFloatingIP, CreateFloatingIP, EditAnnotations, FirstOf;
    NoteSays(w, lb, FloatingIPCreated, false, MissingFloatingIPNetwork, []);
    var f := FindFloatingIP(w, portID);
    match f.v {
      case None =>
      case Some(Some(fip)) =>
        var u := EditAnnotations(f.w, svc.key, map[FloatingIPID := fip.id], STEPS);
        NoteSays(u.w, lb, FloatingIPCreated, true, FoundExisting, [fip.id, fip.address, portID]);
      case Some(None) =>
        var c := CreateFloatingIP(f.w, OwnerOf(svc), portID);
        NoteSays(c.w, lb, FloatingIPCreated, false, CreationFailed, ErrorText(f.w));
        if c.v.Some? {
          var u := EditAnnotations(c.w, svc.key, map[FloatingIPID := c.v.value.id], STEPS);
          NoteSays(u.w, lb, FloatingIPCreated, true, Created, [c.v.value.id, c.v.value.address, portID]);
        }
    }
  }

  /** The step for the floating IP reports like the lookup or creation it starts with. */
  lemma HandleSays(w: World, lb: LoadBalancer, svc: Service, portID: string)
    ensures var h := HandleFloatingIP(w, lb, svc, portID);
      h.v.lb == if HasAnnotation(svc, FloatingIPID) then lb else CreateOrFind(w, lb, svc, portID).v.lb
  {
    hide CreateOrFind, AddExternalIP, GetResource, GetAddress, EditAnnotations, HasAnnotation;
  }

  /** Provisioning a service leaves the readiness of the load balancer alone. */
  lemma ProcessKeeps(w: World, lb: LoadBalancer, svc: Service, ip: string)
    ensures var after := ProcessService(w, lb, svc, ip).v.lb;
      after.key == lb.key && after.spec == lb.spec && after.status.ready == lb.status.ready
  {
    hide EnsureFinalizer, EnsureCredentials, DetectNetwork, EnsurePort, HandleFloatingIP, FirstOf, CreatePort;
    hide FindFloatingIP, CreateFloatingIP, CreateOrFind, Says;
    var f := EnsureFinalizer(w, svc);
    var c := EnsureCredentials(f.w, svc, lb);
    DetectSays(c.w, lb, ip);
    var d := DetectNetwork(c.w, lb, ip);
    PortSays(d.w, d.v.lb, svc, ip);
    var p := EnsurePort(d.w, d.v.lb, svc, ip);
    FloatingIPSays(p.w, p.v.lb, svc, p.v.portID);
    HandleSays(p.w, p.v.lb, svc, p.v.portID);
  }
}
