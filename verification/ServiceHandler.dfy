/** The service handler in the form of internal/controller/service_handler.go. */
module ServiceHandler {
  import opened Kube
  import opened Worlds
  import opened Calls
  import opened Retry
  import opened Requests
  import opened Operator
  import opened Client
  import opened Helpers
  import opened CleanupHandler

  /** getOpenStackClientFromService and getOpenStackClientForService: the credentials the service
      names, or else those of the load balancers of its class in turn, or else of the first one. */
  method GetOpenStackClientFromService(c: Cluster, svc: Service) returns (ok: bool)
    modifies c
    ensures Out(c.world, ok) == ClientOfService(old(c.world), svc)
  {
    hide NewClient, ListLBs, MatchesClass;
    var secret := SecretRef(Annotation(svc, CredentialsSecretName), Annotation(svc, CredentialsSecretNamespace));
    if secret.name != "" && secret.namespace != "" {
      var client := NewClient(c.world, secret);
      c.world := client.w;
      return client.v;
    }
    var listed := ListLBs(c.world);
    c.world := listed.w;
    if listed.v.None? {
      c.world := Miss(c.world);
      return false;
    }
    var lbs := listed.v.value;
    ghost var tries := ClientOfMatching(c.world, svc, lbs);
    assert lbs[0..] == lbs;
    for i := 0 to |lbs|
      invariant ClientOfMatching(c.world, svc, lbs[i..]) == tries
    {
      assert lbs[i..][1..] == lbs[i + 1..];
      if MatchesClass(svc, lbs[i].spec.className) {
        var client := NewClient(c.world, lbs[i].spec.secret);
        c.world := client.w;
        if client.v {
          return true;
        }
      }
    }
    if |lbs| > 0 {
      var client := NewClient(c.world, lbs[0].spec.secret);
      c.world := client.w;
      return client.v;
    }
    c.world := Miss(c.world);
    return false;
  }

  lemma {:induction false} FirstMatchingAfter(svc: Service, lbs: seq<LoadBalancer>, i: nat)
    requires i <= |lbs| && forall j :: 0 <= j < i ==> !MatchesClass(svc, lbs[j].spec.className)
    ensures FirstMatching(svc, lbs) == FirstMatching(svc, lbs[i..])
  {
    hide MatchesClass;
    if i > 0 {
      assert lbs[1..][i - 1..] == lbs[i..];
      FirstMatchingAfter(svc, lbs[1..], i - 1);
    } else {
      assert lbs[0..] == lbs;
    }
  }

  /** The part of reconcileService for a terminating service. */
  method ReconcileTerminatingService(c: Cluster, svc: Service) returns (requeue: bool, err: bool)
    requires svc.terminating
    modifies c
    ensures Out(c.world, Verdict(requeue, err)) == FinalizeService(old(c.world), svc)
  {
    hide ClientOfService, Finalize, WriteService, ForceRemoval, RemoveFinalizer;
    var ok := GetOpenStackClientFromService(c, svc);
    if !ok {
      if ServiceFinalizer in svc.finalizers {
        var updated := UpdateServiceWithRetry(c, svc.(finalizers := RemoveFinalizer(svc.finalizers, ServiceFinalizer)));
        if !updated {
          var forced := ForceFinalizerRemoval(c, svc);
          if !forced {
            return true, true;
          }
        }
        return false, false;
      }
      return true, true;
    }
    requeue, err := HandleServiceFinalizationWithForce(c, svc);
  }

  /** The part of reconcileService for any other service. */
  method ReconcileLiveService(c: Cluster, svc: Service) returns (requeue: bool, err: bool)
    modifies c
    ensures Out(c.world, Verdict(requeue, err)) == AdoptService(old(c.world), svc)
  {
    hide ListLBs, WriteService, EditAnnotations, MatchesClass, HasAnnotation;
    if svc.spec.serviceType == LoadBalancerType {
      var listed := ListLBs(c.world);
      c.world := listed.w;
      if listed.v.None? {
        return true, true;
      }
      var lbs := listed.v.value;
      var matchingLB: Option<LoadBalancer> := None;
      for i := 0 to |lbs|
        invariant matchingLB == None && c.world == listed.w
        invariant forall j :: 0 <= j < i ==> !MatchesClass(svc, lbs[j].spec.className)
      {
        if MatchesClass(svc, lbs[i].spec.className) {
          FirstMatchingAfter(svc, lbs, i);
          matchingLB := Some(lbs[i]);
          break;
        }
      }
      if matchingLB.None? {
        FirstMatchingAfter(svc, lbs, |lbs|);
      }
      assert matchingLB == FirstMatching(svc, lbs);
      var hasOurAnnotations := HasAnnotation(svc, PortID) || HasAnnotation(svc, FloatingIPID);
      if (matchingLB.Some? || hasOurAnnotations) && ServiceFinalizer !in svc.finalizers {
        var ok := UpdateServiceWithRetry(c, svc.(finalizers := AddFinalizer(svc.finalizers, ServiceFinalizer)));
        if !ok {
          return true, true;
        }
        if matchingLB.Some? {
          ok := UpdateServiceAnnotations(c, svc.key, Credentials(matchingLB.value));
          if !ok {
            return true, true;
          }
        }
      }
    }
    return false, false;
  }

  /** reconcileService */
  method ReconcileServiceRequest(c: Cluster, req: Key) returns (requeue: bool, err: bool)
    modifies c
    ensures Out(c.world, Verdict(requeue, err)) == ReconcileService(old(c.world), req)
  {
    hide GetService, FinalizeService, AdoptService;
    var serviceName := ServiceName(req.name);
    if serviceName.None? {
      return false, false;
    }
    var got := GetService(c.world, Key(req.namespace, serviceName.value));
    c.world := got.w;
    match got.v {
      case Missing => return false, false;
      case Failed => return false, true;
      case Found(svc) =>
        if svc.terminating {
          requeue, err := ReconcileTerminatingService(c, svc);
        } else {
          requeue, err := ReconcileLiveService(c, svc);
        }
    }
  }
}
