/** Cleanup and finalization in the form of internal/controller/resource_cleanup.go and utils.go:
    deletion loops that gather flags and the annotations to blank. */
module CleanupHandler {
  import opened Kube
  import opened Cloud
  import opened Selection
  import opened Text
  import opened Worlds
  import opened Calls
  import opened Retry
  import opened Operator
  import opened Client
  import opened Helpers

  lemma DeleteAllStep(w: World, kind: Kind, ids: seq<string>, watched: string)
    requires ids != []
    ensures var d := DeleteResource(w, kind, ids[0]);
      var rest := DeleteAll(d.w, kind, ids[1..], watched);
      DeleteAll(w, kind, ids, watched)
        == Out(rest.w, Sweep(!d.v || rest.v.failed, (d.v && ids[0] == watched) || rest.v.hit))
  {
    hide DeleteResource;
  }

  /** One of the two deletion loops: what failed, and whether the recorded resource was deleted. */
  method DeleteResources(c: Cluster, kind: Kind, ids: seq<string>, recorded: string) returns (failed: bool, hit: bool)
    modifies c
    ensures Out(c.world, Sweep(failed, hit)) == DeleteAll(old(c.world), kind, ids, recorded)
  {
    hide DeleteResource, DeleteAll;
    failed, hit := false, false;
    ghost var all := DeleteAll(c.world, kind, ids, recorded);
    assert ids[0..] == ids;
    for i := 0 to |ids|
      invariant var rest := DeleteAll(c.world, kind, ids[i..], recorded);
        all == Out(rest.w, Sweep(failed || rest.v.failed, hit || rest.v.hit))
    {
      DeleteAllStep(c.world, kind, ids[i..], recorded);
      assert ids[i..][1..] == ids[i + 1..];
      var ok := DeleteOwnedResource(c, kind, ids[i]);
      if !ok {
        failed := true;
      } else {
        if ids[i] == recorded {
          hit := true;
        }
      }
    }
    assert DeleteAll(c.world, kind, ids[|ids|..], recorded) == Out(c.world, Sweep(false, false)) by {
      DeleteNone(c.world, kind, ids[|ids|..], recorded);
    }
  }

  lemma DeleteNone(w: World, kind: Kind, ids: seq<string>, watched: string)
    requires ids == []
    ensures DeleteAll(w, kind, ids, watched) == Out(w, Sweep(false, false))
  {
  }

  /** The deletions of a cleanup, floating IPs before ports: whether one failed, and the records to
      blank. */
  method DeleteSelected(c: Cluster, svc: Service, allFloatingIPs: seq<FloatingIP>, allPorts: seq<Port>)
    returns (needsRequeue: bool, annotationsToUpdate: Annotations)
    modifies c
    ensures var s := Sweeps(old(c.world), svc, allFloatingIPs, allPorts);
      && c.world == s.w && needsRequeue == (s.v.0.failed || s.v.1.failed)
      && annotationsToUpdate == Blanks(s.v.0.hit, s.v.1.hit)
  {
    hide DeleteAll, FloatingIPsFor, PortsFor, PortIDs, FloatingIPIDs;
    needsRequeue, annotationsToUpdate := false, map[];
    var portID, floatingIPID := Annotation(svc, PortID), Annotation(svc, FloatingIPID);
    var floatingIPsToDelete := IdentifyFloatingIPsToDelete(allFloatingIPs, svc.key, portID, floatingIPID);
    var failed, fipHit := DeleteResources(c, FloatingIPKind, FloatingIPIDs(floatingIPsToDelete), floatingIPID);
    if failed {
      needsRequeue := true;
    }
    if fipHit {
      annotationsToUpdate := annotationsToUpdate[FloatingIPID := ""];
    }
    var portsToDelete := IdentifyPortsToDelete(allPorts, svc.key, portID);
    var portFailed, portHit := DeleteResources(c, PortKind, PortIDs(portsToDelete), portID);
    if portFailed {
      needsRequeue := true;
    }
    if portHit {
      annotationsToUpdate := annotationsToUpdate[PortID := ""];
    }
    assert annotationsToUpdate == Blanks(fipHit, portHit);
  }

  /** CleanupResourcesForService: delete, then blank the records of what was deleted; whether another
      pass is needed is judged by the copy the caller passed in. */
  method CleanupResourcesForService(c: Cluster, svc: Service) returns (needsRequeue: bool, err: bool)
    modifies c
    ensures Out(c.world, Verdict(needsRequeue, err)) == Cleanup(old(c.world), svc)
  {
    hide ListFloatingIPs, ListPorts, Sweeps, EditAnnotations, Blanks, HasAnnotation;
    var allFloatingIPs := ListFloatingIPs(c.world);
    c.world := allFloatingIPs.w;
    if allFloatingIPs.v.None? {
      return true, true;
    }
    var allPorts := ListPorts(c.world);
    c.world := allPorts.w;
    if allPorts.v.None? {
      return true, true;
    }
    var annotationsToUpdate;
    needsRequeue, annotationsToUpdate := DeleteSelected(c, svc, allFloatingIPs.v.value, allPorts.v.value);
    if |annotationsToUpdate| > 0 {
      var ok := UpdateServiceAnnotations(c, svc.key, annotationsToUpdate);
      if !ok {
        needsRequeue := true;
      }
    }
    if needsRequeue {
      return true, false;
    }
    if HasAnnotation(svc, PortID) || HasAnnotation(svc, FloatingIPID) {
      return true, false;
    }
    return false, false;
  }

  /** forceFinalizerRemoval */
  method ForceFinalizerRemoval(c: Cluster, svc: Service) returns (ok: bool)
    modifies c
    ensures Out(c.world, ok) == ForceRemoval(old(c.world), svc)
  {
    hide PatchService;
    if !svc.terminating {
      return true;
    }
    var patched := PatchService(c.world, svc.key);
    c.world := patched.w;
    return patched.v;
  }

  /** HandleServiceFinalizationWithForce; the text of an error is the one that comes with the turn in
      which the update began. */
  method HandleServiceFinalizationWithForce(c: Cluster, svc: Service) returns (needsRequeue: bool, err: bool)
    modifies c
    ensures Out(c.world, Verdict(needsRequeue, err)) == Finalize(old(c.world), svc)
  {
    hide Cleanup, WriteService, ForceRemoval, HasAnnotation, RemoveFinalizer, Contains;
    if ServiceFinalizer !in svc.finalizers {
      return false, false;
    }
    needsRequeue, err := CleanupResourcesForService(c, svc);
    if err || needsRequeue {
      if ShouldForce(svc) {
        var forced := ForceFinalizerRemoval(c, svc);
        if !forced {
          return true, true;
        }
        return false, false;
      }
      return true, err;
    }
    var text := Next(c.world).text;
    var ok := UpdateServiceWithRetry(c, svc.(finalizers := RemoveFinalizer(svc.finalizers, ServiceFinalizer)));
    if !ok {
      if Contains(text, "conflict") || svc.terminating {
        var forced := ForceFinalizerRemoval(c, svc);
        if !forced {
          return true, true;
        }
      } else {
        return true, true;
      }
    }
    return false, false;
  }
}
