/** In which order a cleanup deletes, and what a finalization reports. */
module Order {
  import opened Kube
  import opened Cloud
  import opened Selection
  import opened Tags
  import opened Text
  import opened Worlds
  import opened Calls
  import opened Retry
  import opened Operator
  import opened Evolution
  import opened Passes
  import opened Teardown
  import opened Finalization
  import opened Refinement
  import opened Undisturbed
  import opened Progress
  import opened Truthful
  import opened Deletion
  import opened Dismantling

  // ----- Floating IPs first -----

  /** Every entry is the deletion of a resource of this kind, among these ids. */
  predicate AllOf(taken: seq<(Kind, string)>, kind: Kind, ids: seq<string>) {
    forall i :: 0 <= i < |taken| ==> taken[i].0 == kind && taken[i].1 in ids
  }

  lemma DeleteTakes(w: World, kind: Kind, id: string) returns (more: seq<(Kind, string)>)
    requires WF(w)
    ensures DeleteResource(w, kind, id).w.log.taken == w.log.taken + more && AllOf(more, kind, [id])
  {
    hide WF, Tick, Others, Take, OwnedByOperator;
    more := [];
    TickOthers(w);
    TickLog(w);
    var g := GetResource(w, kind, id);
    if g.v.Some? && g.v.value {
      TickOthers(g.w);
      TickLog(g.w);
      var t := Tick(g.w);
      TickLog(t);
      var took := TakeAppends(Tick(t), kind, id);
      if DeleteResource(w, kind, id).w.log.taken != w.log.taken {
        more := took;
      }
    }
  }

  lemma TakeAppends(t: World, kind: Kind, id: string) returns (more: seq<(Kind, string)>)
    ensures Take(t, kind, id).log.taken == t.log.taken + more && AllOf(more, kind, [id])
  {
    hide OwnedByOperator;
    more := if Live(t.cloud, kind, id) then [(kind, id)] else [];
  }

  lemma {:induction false} DeleteAllTakes(w: World, kind: Kind, ids: seq<string>, watched: string)
    returns (more: seq<(Kind, string)>)
    requires WF(w)
    ensures DeleteAll(w, kind, ids, watched).w.log.taken == w.log.taken + more && AllOf(more, kind, ids)
    decreases |ids|
  {
    hide WF, Evolves, DeleteResource;
    more := [];
    if ids != [] {
      var sc := Scope({}, {}, {}, {}, true);
      var d := DeleteResource(w, kind, ids[0]);
      var first := DeleteTakes(w, kind, ids[0]);
      DeleteResourceEvolves(w, kind, ids[0], sc);
      assert WF(d.w) by { EvolvedFormed(w, d.w, sc); }
      var rest := DeleteAllTakes(d.w, kind, ids[1..], watched);
      more := first + rest;
    }
  }

  lemma EvolvedFormed(a: World, b: World, sc: Scope)
    requires Evolves(a, b, sc)
    ensures WF(b)
  {
    hide WF, Flow, StoresEvolve, CloudEvolves, Spares;
  }

  /** A cleanup deletes floating IPs, then ports, then nothing more, whatever fails. */
  lemma FloatingIPsFirst(w: World, svc: Service) returns (fips: seq<(Kind, string)>, ports: seq<(Kind, string)>)
    requires WF(w)
    ensures Cleanup(w, svc).w.log.taken == w.log.taken + fips + ports
    ensures forall i :: 0 <= i < |fips| ==> fips[i].0 == FloatingIPKind
    ensures forall i :: 0 <= i < |ports| ==> ports[i].0 == PortKind
  {
    hide WF, Evolves, Tick, DeleteAll, EditAnnotations, FloatingIPList, PortList, Blanks;
    hide FloatingIPsFor, PortsFor, FloatingIPIDs, PortIDs, Others;
    fips, ports := [], [];
    var sc := Scope({}, {}, {}, {}, true);
    TickOthers(w);
    TickLog(w);
    var lf := ListFloatingIPs(w);
    if lf.v.Some? {
      TickOthers(lf.w);
      TickLog(lf.w);
      var lp := ListPorts(lf.w);
      if lp.v.Some? {
        var portID, fipID := Annotation(svc, PortID), Annotation(svc, FloatingIPID);
        var fs := FloatingIPIDs(FloatingIPsFor(lf.v.value, svc.key, portID, fipID));
        var ps := PortIDs(PortsFor(lp.v.value, svc.key, portID));
        fips := DeleteAllTakes(lp.w, FloatingIPKind, fs, fipID);
        var f := DeleteAll(lp.w, FloatingIPKind, fs, fipID);
        DeleteAllEvolves(lp.w, FloatingIPKind, fs, fipID, sc);
        EvolvedFormed(lp.w, f.w, sc);
        ports := DeleteAllTakes(f.w, PortKind, ps, portID);
        DeleteAllEvolves(f.w, PortKind, ps, portID, sc);
        var s := Sweeps(lp.w, svc, lf.v.value, lp.v.value);
        EvolvedFormed(f.w, s.w, sc);
        EditAnnotationsLog(s.w, svc.key, Blanks(s.v.0.hit, s.v.1.hit), STEPS);
      }
    }
  }

  // ----- One deletion -----

  /** An undisturbed deletion, whichever calls fail: a resource that is there goes exactly when it is
      found, is not seen to lack the tag (one whose tags cannot be read is not), and the delete call takes
      effect.  Success is reported exactly when it is not there, or it goes and the reply arrives. */
  lemma DeletionExact(w: World, kind: Kind, id: string)
    requires Still(w)
    ensures var d, live := DeleteResource(w, kind, id), Live(w.cloud, kind, id);
      var refused := live && Next(Tick(w)).tagsReadable && !OwnedByOperator(TagsOf(w.cloud, kind, id));
      var fate := Next(Tick(Tick(w))).fate;
      && (Live(d.w.cloud, kind, id) <==> live && (!Ok(w) || refused || fate == Fails))
      && (d.v <==> Ok(w) && (live ==> !refused && fate == Succeeds))
      && (d.w.cloud == w.cloud || d.w.cloud == Remove(w.cloud, kind, id))
  {
    hide Still, Tick, OwnedByOperator, Take;
    TickStill(w);
    TickStill(Tick(w));
    TickStill(Tick(Tick(w)));
    TakeNotes(Tick(Tick(Tick(w))), kind, id);
  }

  // ----- Verdicts -----

  /** A cleanup reports an error exactly when it could not list what there is; it always asks for another
      pass then. */
  lemma CleanupErrs(w: World, svc: Service)
    ensures var v := Cleanup(w, svc).v; (v.err <==> !Ok(w) || !Ok(Tick(w))) && (v.err ==> v.requeue)
  {
    hide Tick, Sweeps, EditAnnotations, FloatingIPList, PortList, Blanks, HasResources;
  }

  /** A finalization is done or asks for another pass.  For a terminating service it reports an error exactly
      when a forced removal failed, or what there is could not be listed for a service without a record. */
  lemma FinalizeErrs(w: World, svc: Service)
    requires WF(w) && svc.terminating && ServiceFinalizer in svc.finalizers
    ensures var r := Finalize(w, svc);
      && (r.v == DONE || r.v.requeue)
      && (r.v.err <==>
            || r.w.log.patchFaults > w.log.patchFaults
            || (!HasResources(svc) && (!Ok(w) || !Ok(Tick(w)))))
  {
    hide WF, Evolves, Tick, Cleanup, WriteService, HasResources, RemoveFinalizer;
    var sc := Scope({svc.key}, {}, {}, {}, true);
    var c := Cleanup(w, svc);
    CleanupErrs(w, svc);
    CleanupEvolves(w, svc, sc);
    EvolvedFormed(w, c.w, sc);
    CleanupPatches(w, svc);
    PatchNotes(c.w, svc);
    var o := Dropped(svc);
    WriteNotes(c.w, o);
    PatchNotes(WriteService(c.w, o, STEPS).w, svc);
  }

  lemma PatchNotes(w: World, svc: Service)
    requires WF(w) && svc.terminating
    ensures var f := Forced(w, svc);
      && f.w.log.patchFaults == w.log.patchFaults + (if f.v == DONE then 0 else 1)
      && (f.v == DONE || f.v == Verdict(true, true))
  {
    hide WF, Tick, ClearFinalizers;
    TickLog(w);
  }

  lemma WriteNotes(w: World, o: Service)
    requires WF(w)
    ensures var r := WriteService(w, o, STEPS); WF(r.w) && r.w.log == w.log
  {
    hide WF, WriteService, Others, Replace, Fresh, Evolves;
    var mid := WriteServiceAtomic(w, o, STEPS);
    OthersNoLog(w, mid);
    WriteServiceEvolves(w, o, STEPS, Scope({o.key}, {o.key}, {}, {}, true));
    EvolvedFormed(w, WriteService(w, o, STEPS).w, Scope({o.key}, {o.key}, {}, {}, true));
  }

  lemma OthersNoLog(a: World, b: World)
    requires Others(a, b)
    ensures a.log == b.log
  {
    hide Flow, Moves, Drifts, Quiet;
  }

  /** The other use of a finalization, for a service that is not being deleted, undisturbed: when it is not
      done the finalizer stays.  When the cleanup is done but the write fails, so that the finalizer stays,
      it says that it is done exactly if the text of the error speaks of a conflict. */
  lemma LiveFinalization(w: World, svc: Service)
    requires Still(w) && !svc.terminating && ServiceFinalizer in svc.finalizers
    requires svc.key in w.services.objects && w.services.objects[svc.key] == svc
    ensures var r, c := Finalize(w, svc), Cleanup(w, svc);
      && svc.key in r.w.services.objects
      && var held := ServiceFinalizer in r.w.services.objects[svc.key].finalizers;
         && (if c.v != DONE then r.v != DONE else held ==> (r.v == DONE <==> Contains(Next(c.w).text, "conflict")))
         && (r.v != DONE ==> held && r.v.requeue)
         && (w.script == [] ==>
               && (held <==> r.v != DONE)
               && (r.v == DONE <==> !HasResources(svc) && SelectedOwned(svc, w.cloud)))
  {
    hide Still, Cleanup, WriteService, HasResources, RemoveFinalizer, Contains, SelectedOwned, Replace, Cut, Evolves;
    hide TakesFloatingIP, TakesPort, Blanks;
    var sc := Scope({svc.key}, {}, {}, {}, true);
    StillWF(w);
    var c := Cleanup(w, svc);
    CleanupEvolves(w, svc, sc);
    EvolvesStill(w, c.w, sc);
    CleanupHolds(w, svc);
    if w.script == [] {
      CalmCleanup(w, svc);
    }
    if c.v == DONE {
      var o := Dropped(svc);
      WriteStill(c.w, o, STEPS);
      if w.script == [] {
        CalmWrites(c.w, o, STEPS);
      }
      assert Valid(c.w.services) by { StillWF(c.w); hide Valid; }
      var stored := c.w.services.objects[svc.key];
      ReplaceStores(c.w.services, Merge(stored, o));
    }
  }

  /** An undisturbed cleanup leaves the service with its finalizers. */
  lemma CleanupHolds(w: World, svc: Service)
    requires Still(w) && !svc.terminating && svc.key in w.services.objects && w.services.objects[svc.key] == svc
    ensures var s := Cleanup(w, svc).w.services;
      && svc.key in s.objects
      && var o := s.objects[svc.key];
         o.finalizers == svc.finalizers && !o.terminating && o.uid == svc.uid && o.key == svc.key
  {
    hide Still, Evolves, Tick, Sweeps, EditAnnotations, FloatingIPList, PortList, Blanks, Replace, HasResources;
    FaultStill(w);
    var lf := ListFloatingIPs(w);
    KeyStored(w, svc.key);
    if lf.v.Some? {
      FaultStill(lf.w);
      var lp := ListPorts(lf.w);
      if lp.v.Some? {
        var sc := Scope({}, {}, {}, {}, true);
        var s := Sweeps(lp.w, svc, lf.v.value, lp.v.value);
        StillWF(lp.w);
        SweepsEvolve(lp.w, svc, lf.v.value, lp.v.value, sc);
        EvolvesStill(lp.w, s.w, sc);
        StoresStay(lp.w, s.w, sc, svc.key);
        var edits := Blanks(s.v.0.hit, s.v.1.hit);
        EditStill(s.w, svc.key, edits, STEPS);
        assert Valid(s.w.services) by { StillWF(s.w); hide Valid; }
        ReplaceStores(s.w.services, Annotated(svc, edits));
      }
    }
  }
}
