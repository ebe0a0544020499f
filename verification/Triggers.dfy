/** Which service events lead to which requests, and that none is missing. */
module Triggers {
  import opened Kube
  import opened Text
  import opened Worlds
  import opened Calls
  import opened Retry
  import opened Requests
  import opened Operator
  import opened Evolution
  import opened Passes
  import opened Undisturbed
  import opened Truthful

  /** The watch predicate: events of other services are not delivered. */
  predicate Watched(svc: Service) {
    || svc.spec.serviceType == LoadBalancerType
    || ServiceFinalizer in svc.finalizers
    || HasAnnotation(svc, PortID)
    || HasAnnotation(svc, FloatingIPID)
  }

  function MatchingKeys(svc: Service, lbs: seq<LoadBalancer>): seq<Key> {
    if lbs == [] then []
    else (if MatchesClass(svc, lbs[0].spec.className) then [lbs[0].key] else []) + MatchingKeys(svc, lbs[1..])
  }

  predicate ManagedService(svc: Service, lbs: seq<LoadBalancer>) {
    ServiceFinalizer in svc.finalizers || HasResources(svc) || MatchingKeys(svc, lbs) != []
  }

  function RequestsFor(svc: Service, lbs: seq<LoadBalancer>): seq<Key> {
    MatchingKeys(svc, lbs) + if ManagedService(svc, lbs) then [ServiceRequest(svc.key)] else []
  }

  lemma {:induction false} MatchingKeysSnoc(svc: Service, lbs: seq<LoadBalancer>, lb: LoadBalancer)
    ensures MatchingKeys(svc, lbs + [lb])
         == MatchingKeys(svc, lbs) + (if MatchesClass(svc, lb.spec.className) then [lb.key] else [])
  {
    hide MatchesClass;
    if lbs == [] {
      assert lbs + [lb] == [lb];
    } else {
      assert (lbs + [lb])[1..] == lbs[1..] + [lb];
      MatchingKeysSnoc(svc, lbs[1..], lb);
    }
  }

  /** findOpenStackLBsForService; a listing that fails yields no requests. */
  method FindLoadBalancersForService(svc: Service, listed: Option<seq<LoadBalancer>>) returns (requests: seq<Key>)
    ensures requests == if listed.None? then [] else RequestsFor(svc, listed.value)
  {
    requests := [];
    if listed.None? {
      return;
    }
    var lbs := listed.value;
    var isManagedService := false;
    if ServiceFinalizer in svc.finalizers || Annotation(svc, PortID) != "" || Annotation(svc, FloatingIPID) != "" {
      isManagedService := true;
    }
    for i := 0 to |lbs|
      invariant requests == MatchingKeys(svc, lbs[..i])
      invariant isManagedService <==> ManagedService(svc, lbs[..i])
    {
      MatchingKeysSnoc(svc, lbs[..i], lbs[i]);
      assert lbs[..i + 1] == lbs[..i] + [lbs[i]];
      if MatchesClass(svc, lbs[i].spec.className) {
        isManagedService := true;
        requests := requests + [lbs[i].key];
      }
    }
    assert lbs[..|lbs|] == lbs;
    if isManagedService {
      requests := requests + [ServiceRequest(svc.key)];
    }
  }

  lemma {:induction false} MatchingKeysExact(svc: Service, lbs: seq<LoadBalancer>)
    ensures forall k :: k in MatchingKeys(svc, lbs) <==>
      exists lb :: lb in lbs && MatchesClass(svc, lb.spec.className) && lb.key == k
    ensures MatchingKeys(svc, lbs) != [] <==> FirstMatching(svc, lbs).Some?
  {
    hide MatchesClass;
    if lbs != [] {
      MatchingKeysExact(svc, lbs[1..]);
      assert lbs == [lbs[0]] + lbs[1..];
    }
  }

  /** reconcileService has something to do for the service as it stands. */
  predicate Handles(svc: Service, lbs: seq<LoadBalancer>) {
    if svc.terminating then ServiceFinalizer in svc.finalizers
    else
      && svc.spec.serviceType == LoadBalancerType
      && (FirstMatching(svc, lbs).Some? || HasResources(svc))
      && ServiceFinalizer !in svc.finalizers
  }

  /** No trigger is missing: a service that a load balancer would provision, or that the service
      handler has something to do for, passes the watch predicate and maps to the request needed.
      The load balancer's request is taken for its own unless its name starts with the marker, and
      the handler's request leads back to the service unless the service name contains the marker. */
  lemma TriggersComplete(svc: Service, lbs: seq<LoadBalancer>, lb: LoadBalancer)
    ensures lb in lbs && Eligible(svc, lb.spec.className) ==> Watched(svc) && lb.key in RequestsFor(svc, lbs)
    ensures Handles(svc, lbs) ==> Watched(svc) && ServiceRequest(svc.key) in RequestsFor(svc, lbs)
    ensures !Contains(svc.key.name, MARKER) <==> ServiceName(ServiceRequest(svc.key).name) == Some(svc.key.name)
    ensures IsServiceRequest(ServiceRequest(svc.key).name) && ServiceRequest(svc.key).namespace == svc.key.namespace
    ensures !HasPrefix(lb.key.name, MARKER) ==> forall w :: Reconcile(w, lb.key) == ReconcileLB(w, lb.key)
    ensures HasPrefix(lb.key.name, MARKER) ==> forall w :: Reconcile(w, lb.key) == ReconcileService(w, lb.key)
  {
    hide MatchesClass, Contains, ServiceName, ReconcileService, ReconcileLB;
    MatchingKeysExact(svc, lbs);
    DecodeIff(svc.key.name);
  }

  /** And none is idle: each request is for a load balancer of the service's class, or for the
      handler of a service that is managed. */
  lemma RequestsExact(svc: Service, lbs: seq<LoadBalancer>, k: Key)
    ensures k in RequestsFor(svc, lbs) <==>
      || (exists lb :: lb in lbs && MatchesClass(svc, lb.spec.className) && lb.key == k)
      || (k == ServiceRequest(svc.key) && ManagedService(svc, lbs))
  {
    hide MatchesClass, ManagedService;
    MatchingKeysExact(svc, lbs);
  }

  /** The load balancers as a current listing shows them. */
  function StoredLBs(w: World): seq<LoadBalancer> {
    Listing(w.lbs, w.lbs.names, map[])
  }

  lemma Decoded(k: Key)
    ensures ServiceName(ServiceRequest(k).name).Some? ==> ServiceName(ServiceRequest(k).name) == Some(k.name)
    ensures ServiceRequest(k).namespace == k.namespace
  {
    hide ServiceName, Contains;
    DecodeIff(k.name);
  }

  lemma IdleService(w: World, svc: Service)
    requires Still(w) && !Handles(svc, StoredLBs(w))
    ensures Same(w, (if svc.terminating then FinalizeService(w, svc) else AdoptService(w, svc)).w)
  {
    hide Still, Tick, Listing, FirstMatching, WriteService, EditAnnotations, ClientOfService, Cleanup, DropFinalizer;
    hide HasResources;
    TickStill(w);
    ClientStores(w, svc);
  }

  /** `Handles` is exact: when it does not hold for the service and the load balancers as stored, a
      handler pass leaves every service, load balancer and resource as it is. */
  lemma IdleHandler(w: World, k: Key)
    requires Still(w) && k in w.services.objects && !Handles(w.services.objects[k], StoredLBs(w))
    ensures Same(w, ReconcileService(w, ServiceRequest(k)).w)
  {
    hide Still, Tick, ServiceName, FinalizeService, AdoptService, Handles, ServiceRequest, Evolves;
    if ServiceName(ServiceRequest(k).name).Some? {
      Decoded(k);
      StillWF(w);
      GetServiceFacts(w, k, Scope({}, {}, {}, {}, false));
      TickStill(w);
      var got := GetService(w, k);
      if got.v.Found? {
        IdleService(got.w, got.v.obj);
      }
    }
  }

  lemma {:induction false} ClientOfMatchingStores(w: World, svc: Service, lbs: seq<LoadBalancer>)
    requires Still(w)
    ensures var c := ClientOfMatching(w, svc, lbs); Same(w, c.w) && Still(c.w)
    decreases |lbs|
  {
    hide Still, Tick, MatchesClass;
    if lbs != [] {
      NewClientStores(w, lbs[0].spec.secret);
      ClientOfMatchingStores(w, svc, lbs[1..]);
      ClientOfMatchingStores(NewClient(w, lbs[0].spec.secret).w, svc, lbs[1..]);
    }
  }

  lemma NewClientStores(w: World, secret: SecretRef)
    requires Still(w)
    ensures Same(w, NewClient(w, secret).w) && Still(NewClient(w, secret).w)
  {
    hide Still, NewClient;
    NewClientStill(w, secret);
  }

  /** Looking for a client stores nothing. */
  lemma ClientStores(w: World, svc: Service)
    requires Still(w)
    ensures Same(w, ClientOfService(w, svc).w)
  {
    hide Still, Tick, NewClient, ClientOfMatching, Listing;
    var secret := SecretRef(Annotation(svc, CredentialsSecretName), Annotation(svc, CredentialsSecretNamespace));
    NewClientStores(w, secret);
    TickStill(w);
    var l := ListLBs(w);
    if l.v.Some? {
      ClientOfMatchingStores(l.w, svc, l.v.value);
      var c := ClientOfMatching(l.w, svc, l.v.value);
      if l.v.value != [] {
        NewClientStores(c.w, l.v.value[0].spec.secret);
      }
    }
  }
}
