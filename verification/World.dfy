/** The operator's surroundings: the two stores, everybody else who writes to them, and the fate
    of every call.

    A world carries a script with one turn per call the operator makes.  A turn says what the
    others do just before the call, whether the call succeeds, and what a cached read shows.
    When the script is used up every call succeeds and nobody interferes, so the empty script is
    the calm world.  Results proved for every script hold for every run. */
module Worlds {
  import opened Kube
  import opened Cloud
  import opened Selection
  import opened Network

  // ----- The two kinds of Kubernetes object -----

  datatype ServiceType = LoadBalancerType | OtherType

  datatype ServiceSpec = ServiceSpec(
    serviceType: ServiceType, lbClass: Option<string>, externalIPs: seq<string>, rest: string)

  datatype ServiceStatus = ServiceStatus(ingress: seq<string>)

  type Service = Object<ServiceSpec, ServiceStatus>

  datatype ConditionKind = Ready | NetworkDetected | PortCreated | FloatingIPCreated

  datatype Reason =
    | OpenStackClientError | NoMatchingService | ProcessingError | ResourcesReady
    | DetectionFailed | Detected
    | CreationFailed | Created | FoundExisting | MissingFloatingIPNetwork

  /** `detail` holds what the message text is made from. */
  datatype Condition = Condition(
    kind: ConditionKind, status: bool, reason: Reason, detail: seq<string>, since: nat)

  datatype SecretRef = SecretRef(name: string, namespace: string)

  datatype LBSpec = LBSpec(
    className: string, secret: SecretRef, createFloatingIP: bool, floatingIPNetworkID: string)

  datatype LBStatus = LBStatus(conditions: seq<Condition>, networkID: string, subnetID: string, ready: bool)

  type LoadBalancer = Object<LBSpec, LBStatus>

  // ----- Turns -----

  datatype Act =
    | PutService(service: Service)
    | DeleteService(key: Key)
    | PutLB(lb: LoadBalancer)
    | DeleteLB(key: Key)
    | AddForeignPort(port: Port)
    | AddForeignFloatingIP(fip: FloatingIP)
    | Drop(kind: Kind, id: string)
    | Bind(id: string, portID: string)
    | SetSubnets(subnets: seq<Subnet>)

  /** A call that `FailsAfter` took effect although its reply was lost. */
  datatype Fate = Succeeds | Fails | FailsAfter

  datatype Turn = Turn(
    others: seq<Act>, fate: Fate, tagsReadable: bool, view: View, id: string, text: string)

  const CALM := Turn([], Succeeds, true, map[], "", "")

  /** Fixed habits of the others: what they leave alone, and whether they bind floating IPs. */
  datatype Rules = Rules(services: Guard, lbs: Guard, binds: bool)

  datatype Owner = Owner(key: Key, uid: nat)

  /** History the operator never reads: which service object each resource was made for, which port
      each floating IP was made on, how many calls went wrong, which credentials were tried and what was
      deleted, in order, which resources were deleted although they lacked the ownership tag, and, for
      each service object, the ports made but not recorded on it and the mishaps behind them. */
  datatype Log = Log(
    made: map<string, Owner>,
    madeOn: map<string, string>,
    faults: nat,
    misses: nat,
    patchFaults: nat,
    asked: seq<SecretRef>,
    taken: seq<(Kind, string)>,
    seized: set<string>,
    strays: map<Owner, set<string>>,
    mishaps: map<Owner, nat>)

  datatype World = World(
    script: seq<Turn>,
    time: nat,
    rules: Rules,
    cluster: string,
    texts: Texts,
    services: Store<ServiceSpec, ServiceStatus>,
    lbs: Store<LBSpec, LBStatus>,
    cloud: Neutron,
    log: Log)

  // ----- Kinds of script -----

  ghost predicate Fresh(s: seq<Turn>) {
    forall i :: 0 <= i < |s| ==> s[i].view == map[]
  }

  ghost predicate Quiet(s: seq<Turn>) {
    forall i :: 0 <= i < |s| ==> s[i].others == []
  }

  ghost predicate TagsReadable(s: seq<Turn>) {
    forall i :: 0 <= i < |s| ==> s[i].tagsReadable
  }

  // ----- Validity -----

  /** Resources made by the operator still carry the text it gave them. */
  ghost predicate Marked(c: Neutron, made: map<string, Owner>) {
    && (forall id :: id in made ==> id in c.used)
    && (forall id :: id in made && id in c.ports ==>
          c.ports[id].name == PortName(made[id].key) && c.ports[id].description == PortDescription(made[id].key))
    && (forall id :: id in made && id in c.fips ==>
          c.fips[id].description == FloatingIPDescription(made[id].key))
  }

  /** No two floating IPs made by the operator are bound to the same port. */
  ghost predicate OneBound(c: Neutron, made: map<string, Owner>) {
    forall f, g ::
      (f in c.fips && f in made && g in c.fips && g in made
       && c.fips[f].portID == c.fips[g].portID && c.fips[f].portID != "")
      ==> f == g
  }

  ghost predicate WF(w: World) {
    && Valid(w.services)
    && Valid(w.lbs)
    && ValidCloud(w.cloud)
    && Marked(w.cloud, w.log.made)
    && w.log.madeOn.Keys <= w.log.made.Keys
    && (w.rules.binds || OneBound(w.cloud, w.log.made))
  }

  // ----- What the others do -----

  function Perform(w: World, a: Act): World {
    match a {
      case PutService(s) => w.(services := UserPut(w.services, w.rules.services, s))
      case DeleteService(k) => w.(services := UserDelete(w.services, k))
      case PutLB(l) => w.(lbs := UserPut(w.lbs, w.rules.lbs, l))
      case DeleteLB(k) => w.(lbs := UserDelete(w.lbs, k))
      case AddForeignPort(p) => w.(cloud := AddPort(w.cloud, p.(id := NewID(w.cloud, p.id))))
      case AddForeignFloatingIP(f) =>
        w.(cloud := AddFloatingIP(w.cloud,
             f.(id := NewID(w.cloud, f.id), portID := if w.rules.binds then f.portID else "")))
      case Drop(kind, id) => w.(cloud := Remove(w.cloud, kind, id))
      case Bind(id, portID) =>
        if id in w.cloud.fips && (w.rules.binds || portID == "")
        then w.(cloud := Rebind(w.cloud, id, portID))
        else w
      case SetSubnets(s) => w.(cloud := w.cloud.(subnets := s))
    }
  }

  function PerformAll(w: World, acts: seq<Act>): World
    decreases |acts|
  {
    if acts == [] then w else PerformAll(Perform(w, acts[0]), acts[1..])
  }

  function Next(w: World): Turn {
    if w.script == [] then CALM else w.script[0]
  }

  /** The time up to the next call: its turn comes off the script and the others have acted. */
  function Tick(w: World): World {
    if w.script == [] then w.(time := w.time + 1)
    else PerformAll(w.(script := w.script[1..], time := w.time + 1), w.script[0].others)
  }

  /** What no step of anybody changes, and what kind of script is left. */
  ghost predicate Flow(a: World, b: World) {
    && a.rules == b.rules
    && a.cluster == b.cluster
    && a.texts == b.texts
    && a.time <= b.time
    && (Fresh(a.script) ==> Fresh(b.script))
    && (Quiet(a.script) ==> Quiet(b.script))
    && (TagsReadable(a.script) ==> TagsReadable(b.script))
    && (a.script == [] ==> b.script == [])
  }

  /** What the others may have done. */
  ghost predicate Others(a: World, b: World) {
    && Flow(a, b)
    && a.log == b.log
    && Moves(a.rules.services, a.services, b.services)
    && Moves(a.rules.lbs, a.lbs, b.lbs)
    && Drifts(a.rules.binds, a.cloud, b.cloud)
    && (Quiet(a.script) ==> a.services == b.services && a.lbs == b.lbs && a.cloud == b.cloud)
  }

  // ----- Lemmas -----

  lemma DriftsMarked(binds: bool, a: Neutron, b: Neutron, made: map<string, Owner>)
    requires Marked(a, made) && Drifts(binds, a, b)
    ensures Marked(b, made)
  {
    hide PortName, PortDescription, FloatingIPDescription;
    assert forall id :: id in a.used ==> id in b.used;
  }

  lemma DriftsOneBound(a: Neutron, b: Neutron, made: map<string, Owner>)
    requires Marked(a, made) && Drifts(false, a, b) && OneBound(a, made)
    ensures OneBound(b, made)
  {
    hide PortName, PortDescription, FloatingIPDescription;
  }

  lemma PerformCloud(w: World, a: Act)
    requires WF(w)
    ensures ValidCloud(Perform(w, a).cloud)
    ensures Drifts(w.rules.binds, w.cloud, Perform(w, a).cloud)
  {
    hide Valid, ValidCloud, Marked, OneBound, Drifts, UserPut, UserDelete, AddPort, AddFloatingIP, Remove, Rebind;
    var binds, c := w.rules.binds, w.cloud;
    DriftsReflexive(binds, c);
    match a {
      case AddForeignPort(p) => AddPortDrifts(binds, c, p.(id := NewID(c, p.id)));
      case AddForeignFloatingIP(f) =>
        AddFloatingIPDrifts(binds, c, f.(id := NewID(c, f.id), portID := if binds then f.portID else ""));
      case Drop(kind, id) => RemoveDrifts(binds, c, kind, id);
      case Bind(id, portID) =>
        if id in c.fips && (binds || portID == "") {
          BindDrifts(binds, c, id, portID);
        }
      case SetSubnets(s) => SetSubnetsDrifts(binds, c, s);
      case _ =>
    }
  }

  lemma PerformStores(w: World, a: Act)
    requires WF(w)
    ensures Valid(Perform(w, a).services) && Valid(Perform(w, a).lbs)
    ensures Moves(w.rules.services, w.services, Perform(w, a).services)
    ensures Moves(w.rules.lbs, w.lbs, Perform(w, a).lbs)
  {
    hide Valid, Moves, ValidCloud, Marked, OneBound, UserPut, UserDelete;
    MovesReflexive(w.rules.services, w.services);
    MovesReflexive(w.rules.lbs, w.lbs);
    match a {
      case PutService(s) => UserPutMoves(w.services, w.rules.services, s);
      case DeleteService(k) => UserDeleteMoves(w.services, w.rules.services, k);
      case PutLB(l) => UserPutMoves(w.lbs, w.rules.lbs, l);
      case DeleteLB(k) => UserDeleteMoves(w.lbs, w.rules.lbs, k);
      case _ =>
    }
  }

  /** `Others` without the parts that speak of the script. */
  ghost predicate Shifts(a: World, b: World) {
    && a.rules == b.rules && a.cluster == b.cluster && a.texts == b.texts && a.time == b.time && a.script == b.script
    && a.log == b.log
    && Moves(a.rules.services, a.services, b.services)
    && Moves(a.rules.lbs, a.lbs, b.lbs)
    && Drifts(a.rules.binds, a.cloud, b.cloud)
  }

  lemma ShiftsTransitive(a: World, b: World, c: World)
    requires WF(a) && WF(b) && Shifts(a, b) && Shifts(b, c)
    ensures Shifts(a, c)
  {
    hide Valid, Moves, ValidCloud, Marked, OneBound, Drifts;
    MovesTransitive(a.rules.services, a.services, b.services, c.services);
    MovesTransitive(a.rules.lbs, a.lbs, b.lbs, c.lbs);
    DriftsTransitive(a.rules.binds, a.cloud, b.cloud, c.cloud);
  }

  lemma PerformShifts(w: World, a: Act)
    requires WF(w)
    ensures WF(Perform(w, a)) && Shifts(w, Perform(w, a))
  {
    hide Valid, Moves, ValidCloud, Marked, OneBound, Drifts, UserPut, UserDelete;
    PerformCloud(w, a);
    DriftsMarked(w.rules.binds, w.cloud, Perform(w, a).cloud, w.log.made);
    if !w.rules.binds {
      DriftsOneBound(w.cloud, Perform(w, a).cloud, w.log.made);
    }
    PerformStores(w, a);
  }

  lemma {:induction false} PerformAllShifts(w: World, acts: seq<Act>)
    requires WF(w)
    ensures WF(PerformAll(w, acts)) && Shifts(w, PerformAll(w, acts))
    decreases |acts|
  {
    hide Valid, Marked, OneBound, Moves, Drifts, ValidCloud, Perform;
    if acts == [] {
      MovesReflexive(w.rules.services, w.services);
      MovesReflexive(w.rules.lbs, w.lbs);
      assert ValidCloud(w.cloud);
      DriftsReflexive(w.rules.binds, w.cloud);
    } else {
      hide WF, Shifts;
      var v := Perform(w, acts[0]);
      PerformShifts(w, acts[0]);
      PerformAllShifts(v, acts[1..]);
      ShiftsTransitive(w, v, PerformAll(v, acts[1..]));
    }
  }

  lemma TickOthers(w: World)
    requires WF(w)
    ensures WF(Tick(w)) && Others(w, Tick(w))
    ensures w.script == [] ==> Tick(w) == w.(time := w.time + 1)
  {
    hide Valid, ValidCloud, Marked, OneBound, Moves, Drifts, Perform;
    if w.script == [] {
      MovesReflexive(w.rules.services, w.services);
      MovesReflexive(w.rules.lbs, w.lbs);
      assert Drifts(w.rules.binds, w.cloud, w.cloud) by { DriftsReflexive(w.rules.binds, w.cloud); }
    } else {
      var v := w.(script := w.script[1..], time := w.time + 1);
      PerformAllShifts(v, w.script[0].others);
      assert Quiet(w.script) ==> w.script[0].others == [];
    }
  }

  lemma OthersTransitive(a: World, b: World, c: World)
    requires WF(a) && WF(b) && Others(a, b) && Others(b, c)
    ensures Others(a, c)
  {
    hide Valid, Moves, ValidCloud, Marked, OneBound, Drifts, Fresh, Quiet, TagsReadable;
    MovesTransitive(a.rules.services, a.services, b.services, c.services);
    MovesTransitive(a.rules.lbs, a.lbs, b.lbs, c.lbs);
    DriftsTransitive(a.rules.binds, a.cloud, b.cloud, c.cloud);
  }
}
