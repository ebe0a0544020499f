/** updateResourceWithRetry writes the caller's whole copy: when that amounts to changing the
    finalizers of what is stored, and what is lost when it does not. */
module Snapshots {
  import opened Kube
  import opened Cloud
  import opened Worlds
  import opened Retry
  import opened Operator
  import opened Evolution
  import opened Refinement
  import opened Undisturbed
  import opened Truthful

  /** Two writes of one stored object come to the same exactly when they write the same, or when the
      object goes away with either. */
  lemma ReplaceSameIff(s: Store<ServiceSpec, ServiceStatus>, x: Service, y: Service)
    requires Valid(s) && x.key in s.objects && y.key == x.key
    requires x.terminating == y.terminating == s.objects[x.key].terminating
    requires x.version == y.version == s.objects[x.key].version
    ensures Replace(s, x) == Replace(s, y) <==> x == y || (x.terminating && x.finalizers == [] && y.finalizers == [])
  {
    var next := s.clock + 1;
    assert Put(s, x).objects[x.key] == x.(version := next) && Put(s, y).objects[x.key] == y.(version := next);
    assert x == x.(version := next).(version := x.version) && y == y.(version := next).(version := y.version);
    assert x.(version := next) == y.(version := next) <==> x == y;
    assert Put(s, x).clock == next && Put(s, y).clock == next;
  }

  /** A write of a snapshot with the finalizers `fs` that reports success: if its last read showed no
      object, which with current reads means there was none, nothing was written.  Otherwise, at the
      moment it took effect, it was the edit "set the finalizers of what is stored to gs" exactly when
      fs is gs and what is stored had the annotations and the spec of the snapshot (or when the object
      goes away either way).  Taking for gs the stored list with a finalizer added or removed gives the
      two uses the operator makes of it. */
  lemma WriteIsFinalizerEditIff(w: World, snapshot: Service, fs: seq<Finalizer>, gs: seq<Finalizer>, n: nat)
    returns (mid: World)
    requires WF(w) && WriteService(w, snapshot.(finalizers := fs), n).v
    ensures WF(mid) && Others(w, mid)
    ensures var r, k := WriteService(w, snapshot.(finalizers := fs), n).w, snapshot.key;
      if Missed(w, snapshot.(finalizers := fs), n)
      then r == mid && (Fresh(w.script) ==> k !in mid.services.objects)
      else
        && k in mid.services.objects
        && var stored := mid.services.objects[k];
           (r == mid.(services := Replace(mid.services, stored.(finalizers := gs)))) <==>
             || (fs == gs && stored.annotations == snapshot.annotations && stored.spec == snapshot.spec)
             || (stored.terminating && fs == [] && gs == [])
  {
    hide Others, WriteService, Replace, Fresh, ValidCloud, Marked, OneBound, Valid, Missed;
    var o := snapshot.(finalizers := fs);
    mid := WriteServiceAtomic(w, o, n);
    if !Missed(w, o, n) {
      var stored := mid.services.objects[snapshot.key];
      ReplaceSameIff(mid.services, Merge(stored, o), stored.(finalizers := gs));
    }
  }

  /** Otherwise what somebody else wrote since the snapshot was taken is lost: each annotation is back
      to what the snapshot shows. */
  lemma StaleWriteLoses(w: World, snapshot: Service, f: Finalizer, name: AnnotationName)
    requires Still(w) && w.script == [] && snapshot.key in w.services.objects
    requires w.services.objects[snapshot.key].uid == snapshot.uid
    ensures var r := WriteService(w, snapshot.(finalizers := AddFinalizer(snapshot.finalizers, f)), STEPS);
      && r.v && snapshot.key in r.w.services.objects
      && Annotation(r.w.services.objects[snapshot.key], name) == Annotation(snapshot, name)
  {
    hide Still, WriteService, Replace;
    var o := snapshot.(finalizers := AddFinalizer(snapshot.finalizers, f));
    KeyStored(w, snapshot.key);
    WriteStill(w, o, STEPS);
    CalmWrites(w, o, STEPS);
    assert Valid(w.services) by { StillWF(w); hide Valid; }
    assert o.finalizers != [];
    ReplaceOutside(w.services, Merge(w.services.objects[snapshot.key], o), {snapshot.key});
  }

  /** The ordinary removal leaves the other finalizers: the object stays with them, and goes only when
      there are none. */
  lemma OrdinaryRemovalKeepsOthers(w: World, svc: Service)
    requires Still(w) && svc.terminating && svc.key in w.services.objects && w.services.objects[svc.key] == svc
    requires WriteService(w, svc.(finalizers := RemoveFinalizer(svc.finalizers, ServiceFinalizer)), STEPS).v
    ensures var r, rest := DropFinalizer(w, svc), RemoveFinalizer(svc.finalizers, ServiceFinalizer);
      && r.v == DONE
      && (svc.key in r.w.services.objects <==> rest != [])
      && (rest != [] ==> r.w.services.objects[svc.key].finalizers == rest)
  {
    hide Still, WriteService, Replace, RemoveFinalizer, Forced;
    var o := svc.(finalizers := RemoveFinalizer(svc.finalizers, ServiceFinalizer));
    WriteStill(w, o, STEPS);
    assert Valid(w.services) by { StillWF(w); hide Valid; }
    ReplaceOutside(w.services, Merge(svc, o), {svc.key});
  }
}
