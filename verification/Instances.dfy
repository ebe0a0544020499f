/** Worlds that meet the hypotheses of the main theorems, so that none of them speaks of nothing. */
module Instances {
  import opened Kube
  import opened Cloud
  import opened Selection
  import opened Network
  import opened Tags
  import opened Worlds
  import opened Calls
  import opened Requests
  import opened Operator
  import opened Runs
  import opened Undisturbed
  import opened Progress
  import opened Convergence
  import opened Dismantling
  import opened Deletion
  import opened Accounting
  import opened Ledger
  import opened RoundTrip
  import opened Orphans
  import opened Evolution
  import opened Passes
  import opened Lagging
  import opened Status
  import opened Amid

  const NO_LOG := Log(map[], map[], 0, 0, 0, [], [], {}, map[], map[])

  /** Nothing is stored yet.  Whatever script lies ahead, this is where runs may begin. */
  function Start(script: seq<Turn>, rules: Rules, cluster: string, texts: Texts): World {
    World(script, 0, rules, cluster, texts, Store(map[], [], map[], 0), Store(map[], [], map[], 0),
      Neutron(map[], map[], [], []), NO_LOG)
  }

  /** Every run from there is through well-formed worlds, whatever the others do. */
  lemma StartedRuns(script: seq<Turn>, rules: Rules, cluster: string, texts: Texts, reqs: seq<Key>)
    ensures var w := Start(script, rules, cluster, texts); WF(w) && WF(Run(w, reqs))
    ensures var w := Start(script, rules, cluster, texts); rules.services.annotations ==> Setting(w)
  {
    hide Run;
    RunKeeps(Start(script, rules, cluster, texts), reqs);
  }

  // ----- One load balancer and one service -----

  const LB_KEY := Key("ns", "lb")
  const SERVICE_KEY := Key("ns", "web")

  function One<S, T>(o: Object<S, T>): Store<S, T> {
    Store(map[o.key := o], [o.key], map[1 := o], 1)
  }

  function TheLB(terminating: bool): LoadBalancer {
    Object(LB_KEY, 1, 1, terminating, [LoadBalancerFinalizer], map[], LBSpec("lan", SecretRef("s", "ns"), false, ""),
      LBStatus([], "", "", false))
  }

  function TheService(portID: string): Service {
    Object(SERVICE_KEY, 1, 1, false, [ServiceFinalizer], map[PortID := portID],
      ServiceSpec(LoadBalancerType, Some("lan"), [], ""), ServiceStatus(["10.0.0.5"]))
  }

  /** `used` are the ids handed out so far, of which the ports in `ports` are live. */
  function Small(terminating: bool, portID: string, ports: map<string, Port>, used: seq<string>): World {
    World([], 0, Rules(Guard(Some(ServiceFinalizer), true, true), Guard(None, true, true), false), "",
      Texts(map["10.0.0.5" := Address(32, 5)], map["10.0.0.5/32" := Block(32, 5, 32)]),
      One(TheService(portID)), One(TheLB(terminating)),
      Neutron(ports, map[], used, [Subnet("s", "n", "10.0.0.5/32")]), NO_LOG)
  }

  lemma SmallStill(terminating: bool, portID: string, ports: map<string, Port>, used: seq<string>)
    requires "" !in used && forall id :: id in ports ==> id in used && ports[id].id == id
    ensures Still(Small(terminating, portID, ports, used))
  {
    var w := Small(terminating, portID, ports, used);
    assert Valid(w.services) && Valid(w.lbs);
    assert ValidCloud(w.cloud);
  }

  /** The service has its finalizer, an address in a known subnet, and no port yet: convergence has
      something to do, and so has the round trip. */
  lemma ConvergenceApplies()
    ensures var w := Small(false, "", map[], []);
      && Still(w) && w.script == [] && LB_KEY in w.lbs.objects && !w.lbs.objects[LB_KEY].terminating
      && !IsServiceRequest(LB_KEY.name) && Provisionable(w, w.lbs.objects[LB_KEY].spec)
      && Wanted(w, w.lbs.objects[LB_KEY].spec.className)
      && Rank(w.services.objects[SERVICE_KEY], w.cloud, w.lbs.objects[LB_KEY].spec) > 0
      && Peaceful(w) && Smooth(w, w.lbs.objects[LB_KEY].spec, "10.0.0.5")
      && !HasResources(w.services.objects[SERVICE_KEY]) && Untouched(w.cloud, w.services.objects[SERVICE_KEY])
  {
    hide Still;
    var w := Small(false, "", map[], []);
    SmallStill(false, "", map[], []);
    assert Holds(w.texts, w.cloud.subnets[0], Address(32, 5)) by { assert Shift(5, 0) == 5; }
    assert Eligible(w.services.objects[SERVICE_KEY], "lan");
  }

  /** The recorded port is gone: the trap. */
  lemma TrapApplies()
    ensures Trapped(Small(true, "p", map[], ["p"]), LB_KEY, TheService("p"), PortID) && !IsServiceRequest(LB_KEY.name)
  {
    hide Still;
    SmallStill(true, "p", map[], ["p"]);
    assert "p" in ["p"];
  }

  function ThePort(): Port {
    Port("p", PortName(SERVICE_KEY), PortDescription(SERVICE_KEY), [Tag(MANAGED_BY, MANAGED_BY_VALUE)], "n", "s",
      "10.0.0.5")
  }

  /** The recorded port is live and owned: deletion converges, and it has something to do. */
  lemma DeletionApplies()
    ensures var w := Small(true, "p", map["p" := ThePort()], ["p"]);
      && Still(w) && w.script == [] && LB_KEY in w.lbs.objects && w.lbs.objects[LB_KEY].terminating
      && !IsServiceRequest(LB_KEY.name)
      && Separable(w, w.lbs.objects[LB_KEY].spec.className) && !Rested(w, w.lbs.objects[LB_KEY].spec.className)
  {
    hide Still, PortName, PortDescription, Tag, DescribedFor;
    var w := Small(true, "p", map["p" := ThePort()], ["p"]);
    assert "p" in ["p"];
    SmallStill(true, "p", map["p" := ThePort()], ["p"]);
    assert Cleans(w.services.objects[SERVICE_KEY], "lan");
    assert forall k :: k in w.services.objects ==> k == SERVICE_KEY;
  }

  // ----- Lagging reads -----

  /** The listing will show the service as it was at version 1, without a port on record. */
  const OLD_SERVICES: View := map[SERVICE_KEY := AsOf(1)]

  /** The service is gone. */
  function Gone(): World {
    Small(false, "", map[], []).(
      script := LaggingListing(OLD_SERVICES),
      services := Store(map[], [SERVICE_KEY], map[1 := TheService("")], 1))
  }

  lemma ShownService(s: Store<ServiceSpec, ServiceStatus>)
    requires s.names == [SERVICE_KEY] && 1 in s.history && s.history[1] == TheService("")
    ensures TheService("") in Listing(s, s.names, OLD_SERVICES)
  {
    assert Read(s, SERVICE_KEY, OLD_SERVICES) == Some(TheService(""));
    assert Listing(s, [SERVICE_KEY], OLD_SERVICES) == [TheService("")] + Listing(s, [], OLD_SERVICES);
  }

  lemma AddressLocatable(w: World)
    requires w.texts == Small(false, "", map[], []).texts && w.cloud.subnets == [Subnet("s", "n", "10.0.0.5/32")]
    ensures Locatable(w, "10.0.0.5")
    ensures FirstMatch(w.texts, w.cloud.subnets, w.texts.addresses["10.0.0.5"]) == Some(w.cloud.subnets[0])
  {
    assert Holds(w.texts, w.cloud.subnets[0], Address(32, 5)) by { assert Shift(5, 0) == 5; }
  }

  /** A pass over the load balancer makes an orphan, and the result on orphans says why. */
  lemma OrphanMade() returns (id: string)
    ensures WF(Gone()) && Guarded(Gone())
    ensures var r := Reconcile(Gone(), LB_KEY).w;
      Orphan(r, id) && !Orphan(Gone(), id) && !Troubled(Gone(), r) && Misled(Gone(), LB_KEY, r.log.made[id])
  {
    hide Reconcile, Listing, Orphan, Misled, Locatable;
    var w := Gone();
    assert WF(w) by { hide Small, LaggingListing; GoneFormed(); }
    AddressLocatable(w);
    ShownService(w.services);
    assert Provisions(TheService(""), "lan");
    id := StaleListingOrphans(w, LB_KEY, OLD_SERVICES, TheService(""));
    PassOrphans(w, LB_KEY, id);
  }

  lemma GoneFormed()
    ensures WF(Gone())
  {
    hide LaggingListing;
    var w := Gone();
    assert Valid(w.services) && Valid(w.lbs);
    assert ValidCloud(w.cloud);
  }

  /** The load balancer has ids on record, but a copy from before they were detected is still shown. */
  function Moved(): World {
    var now := TheLB(false).(version := 2, status := LBStatus([], "old", "sub", false));
    Small(false, "", map[], []).(
      script := [CALM.(view := map[LB_KEY := AsOf(1)])],
      lbs := Store(map[LB_KEY := now], [LB_KEY], map[1 := TheLB(false), 2 := now], 2))
  }

  /** An object that has been written once since it was created. */
  lemma TwoVersions<S, T>(a: Object<S, T>, b: Object<S, T>)
    requires a.uid == 1 && a.version == 1 && b.key == a.key && b.uid == 1 && b.version == 2 && !b.terminating
    ensures Valid(Store(map[b.key := b], [b.key], map[1 := a, 2 := b], 2))
  {
  }

  lemma MovedStores()
    ensures Valid(Moved().services) && Valid(Moved().lbs)
  {
    TwoVersions(TheLB(false), Moved().lbs.objects[LB_KEY]);
  }

  lemma MovedFormed()
    ensures WF(Moved()) && Still(Moved().(script := []))
  {
    hide Valid;
    MovedStores();
    assert ValidCloud(Moved().cloud);
  }

  /** A pass over it replaces the ids. */
  lemma IdsReplaced()
    ensures var before, after := Moved().lbs.objects, Reconcile(Moved(), LB_KEY).w.lbs.objects;
      && LB_KEY in after && after[LB_KEY].uid == before[LB_KEY].uid
      && NetworkIDs(before[LB_KEY].status) == ("old", "sub") && NetworkIDs(after[LB_KEY].status) == ("n", "s")
  {
    hide Reconcile, Still, WF, FirstMatch, Locatable;
    var w := Moved();
    MovedFormed();
    AddressLocatable(w.(script := []));
    assert Placed(w.(script := []), TheLB(false).spec, Subnet("s", "n", "10.0.0.5/32")) by {
      assert Eligible(w.services.objects[SERVICE_KEY], "lan");
      RankBound(w.services.objects[SERVICE_KEY], w.cloud, TheLB(false).spec);
    }
    StaleReadReplacesIds(w, LB_KEY, 1, Subnet("s", "n", "10.0.0.5/32"));
  }

  /** The service is stored with a port on record, which the copy shown by the listing lacks. */
  function Recent(): World {
    var now := TheService("p").(version := 2);
    Small(false, "p", map["p" := ThePort()], ["p"]).(
      script := LaggingListing(OLD_SERVICES),
      services := Store(map[SERVICE_KEY := now], [SERVICE_KEY], map[1 := TheService(""), 2 := now], 2),
      log := NO_LOG.(made := map["p" := Owner(SERVICE_KEY, 1)]))
  }

  lemma RecentStores()
    ensures Valid(Recent().services) && Valid(Recent().lbs)
  {
    hide LaggingListing, PortName, PortDescription;
    TwoVersions(TheService(""), Recent().services.objects[SERVICE_KEY]);
  }

  lemma RecentCloud()
    ensures ValidCloud(Recent().cloud) && Marked(Recent().cloud, Recent().log.made)
  {
    hide LaggingListing, PortName, PortDescription;
    assert "p" in ["p"];
  }

  lemma RecentFormed()
    ensures WF(Recent())
  {
    hide LaggingListing, PortName, PortDescription, Valid, ValidCloud, Marked;
    RecentStores();
    RecentCloud();
  }

  /** A pass makes a second port for it, without a mishap. */
  lemma SecondPortMade() returns (id: string)
    ensures var r, o := Reconcile(Recent(), LB_KEY).w, Owner(SERVICE_KEY, 1);
      Lives(r, o) && id != "p" && {"p", id} <= PortsOf(r, o) && MishapsOf(r.log, o) == 0
  {
    hide Reconcile, Listing, Locatable, PortName, PortDescription, WF;
    var w := Recent();
    RecentFormed();
    AddressLocatable(w);
    ShownService(w.services);
    assert Provisions(TheService(""), "lan");
    id := StaleRecordSecondPort(w, LB_KEY, OLD_SERVICES, TheService(""), "p");
  }
}
