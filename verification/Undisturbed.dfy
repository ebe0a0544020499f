/** The calls when nobody else acts, and when in addition every call succeeds. */
module Undisturbed {
  import opened Kube
  import opened Cloud
  import opened Worlds
  import opened Calls
  import opened Retry
  import opened Evolution
  import opened Refinement

  /** Nobody else acts and reads are current. */
  ghost predicate Still(w: World) {
    WF(w) && Quiet(w.script) && Fresh(w.script)
  }

  /** Nothing is stored differently. */
  predicate Same(a: World, b: World) {
    a.services == b.services && a.lbs == b.lbs && a.cloud == b.cloud
  }

  /** What every step of an undisturbed pass passes on. */
  ghost predicate Follows(a: World, b: World) {
    && Still(b) && b.rules == a.rules && b.texts == a.texts && b.cluster == a.cluster
    && (a.script == [] ==> b.script == [])
  }

  lemma TickStill(w: World)
    requires Still(w)
    ensures Follows(w, Tick(w)) && Same(w, Tick(w)) && Tick(w).log == w.log
    ensures w.script == [] ==> Ok(w) && Next(w).tagsReadable
    ensures Next(w).view == map[]
  {
    hide WF, Tick, Fresh, Quiet, TagsReadable, Moves, Drifts;
    TickOthers(w);
    NextReadable(w);
  }

  lemma NewClientStill(w: World, secret: SecretRef)
    requires Still(w)
    ensures var c := NewClient(w, secret);
      && Follows(w, c.w) && Same(w, c.w) && (c.v <==> Ok(w)) && (w.script == [] ==> c.v)
      && c.w.log.asked == w.log.asked + [secret] && c.w.log.misses == w.log.misses + (if c.v then 0 else 1)
      && c.w.script == Tick(w).script && c.w.time == Tick(w).time
  {
    hide Tick, Fresh, Quiet, Valid, ValidCloud, Marked, OneBound;
    TickStill(w);
  }

  lemma OthersStill(a: World, b: World)
    requires Still(a) && WF(b) && Others(a, b)
    ensures Follows(a, b) && Same(a, b) && a.log == b.log
  {
    hide WF, Fresh, Quiet, TagsReadable, Moves, Drifts;
  }

  lemma ReplaceStill(w: World, o: Service)
    requires Still(w) && o.key in w.services.objects && o.uid == w.services.objects[o.key].uid
    ensures WF(w.(services := Replace(w.services, o)))
    ensures Follows(w, w.(services := Replace(w.services, o)))
  {
    hide ValidCloud, Marked, OneBound, Valid, Replace, Fresh, Quiet, TagsReadable;
    ReplaceValid(w.services, o);
  }

  /** Undisturbed, a successful annotation edit of a stored service is just that edit. */
  lemma EditStill(w: World, k: Key, edits: Annotations, n: nat)
    requires Still(w) && k in w.services.objects
    ensures var r := EditAnnotations(w, k, edits, n);
      && Follows(w, r.w) && r.w.lbs == w.lbs && r.w.cloud == w.cloud && r.w.log == w.log
      && r.w.services == (if r.v then Replace(w.services, Annotated(w.services.objects[k], edits)) else w.services)
  {
    hide EditAnnotations, Fresh, Quiet, TagsReadable, ValidCloud, Marked, OneBound, Replace, Others;
    var mid := EditAnnotationsAtomic(w, k, edits, n);
    OthersStill(w, mid);
    var r := EditAnnotations(w, k, edits, n);
    if r.w != mid {
      ReplaceStill(mid, Annotated(mid.services.objects[k], edits));
    }
  }

  lemma ExposeStill(w: World, k: Key, ip: string, n: nat)
    requires Still(w) && k in w.services.objects
    ensures var r := AddExternalIP(w, k, ip, n);
      && Follows(w, r.w) && r.w.lbs == w.lbs && r.w.cloud == w.cloud && r.w.log == w.log
      && r.w.services == (if !r.v || ip in w.services.objects[k].spec.externalIPs then w.services
                          else Replace(w.services, Exposed(w.services.objects[k], ip)))
  {
    hide AddExternalIP, Fresh, Quiet, TagsReadable, ValidCloud, Marked, OneBound, Replace, Others;
    var mid := AddExternalIPAtomic(w, k, ip, n);
    OthersStill(w, mid);
    var r := AddExternalIP(w, k, ip, n);
    if r.w != mid {
      ReplaceStill(mid, Exposed(mid.services.objects[k], ip));
    }
  }

  lemma WriteStill(w: World, o: Service, n: nat)
    requires Still(w) && o.key in w.services.objects && o.uid == w.services.objects[o.key].uid
    ensures var r := WriteService(w, o, n);
      && Follows(w, r.w) && r.w.lbs == w.lbs && r.w.cloud == w.cloud && r.w.log == w.log
      && r.w.services == (if r.v then Replace(w.services, Merge(w.services.objects[o.key], o)) else w.services)
  {
    hide WriteService, Fresh, Quiet, TagsReadable, ValidCloud, Marked, OneBound, Replace, Others;
    var mid := WriteServiceAtomic(w, o, n);
    OthersStill(w, mid);
    var r := WriteService(w, o, n);
    if r.w != mid {
      ReplaceStill(mid, Merge(mid.services.objects[o.key], o));
    }
  }

  lemma ReplaceLBStill(w: World, o: LoadBalancer)
    requires Still(w) && o.key in w.lbs.objects && o.uid == w.lbs.objects[o.key].uid
    ensures WF(w.(lbs := Replace(w.lbs, o))) && Follows(w, w.(lbs := Replace(w.lbs, o)))
  {
    hide ValidCloud, Marked, OneBound, Valid, Replace, Fresh, Quiet, TagsReadable;
    ReplaceValid(w.lbs, o);
  }

  lemma WriteLBStill(w: World, o: LoadBalancer, n: nat)
    requires Still(w) && o.key in w.lbs.objects && o.uid == w.lbs.objects[o.key].uid
    ensures var r := WriteLB(w, o, n);
      && Follows(w, r.w) && r.w.services == w.services && r.w.cloud == w.cloud && r.w.log == w.log
      && r.w.lbs == (if r.v then Replace(w.lbs, Merge(w.lbs.objects[o.key], o)) else w.lbs)
  {
    hide WriteLB, Fresh, Quiet, TagsReadable, ValidCloud, Marked, OneBound, Replace, Others;
    var mid := WriteLBAtomic(w, o, n);
    OthersStill(w, mid);
    var r := WriteLB(w, o, n);
    if r.w != mid {
      ReplaceLBStill(mid, Merge(mid.lbs.objects[o.key], o));
    }
  }

  lemma WriteStatusStill(w: World, k: Key, status: LBStatus, n: nat)
    requires Still(w) && k in w.lbs.objects
    ensures var r := WriteStatus(w, k, status, n);
      && Follows(w, r.w) && r.w.services == w.services && r.w.cloud == w.cloud && r.w.log == w.log
      && r.w.lbs == (if r.v then Replace(w.lbs, w.lbs.objects[k].(status := status)) else w.lbs)
  {
    hide WriteStatus, Fresh, Quiet, TagsReadable, ValidCloud, Marked, OneBound, Replace, Others;
    var mid := WriteStatusAtomic(w, k, status, n);
    OthersStill(w, mid);
    var r := WriteStatus(w, k, status, n);
    if r.w != mid {
      ReplaceLBStill(mid, mid.lbs.objects[k].(status := status));
    }
  }

  // ----- Calm: every call succeeds, the first time -----

  lemma CalmGet(w: World, k: Key)
    requires Still(w) && w.script == []
    ensures GetService(w, k).v == (match Current(w.services, k) case Some(o) => Found(o) case None => Missing)
    ensures GetLB(w, k).v == (match Current(w.lbs, k) case Some(o) => Found(o) case None => Missing)
    ensures Same(w, Tick(w)) && Follows(w, Tick(w))
  {
    hide WF, Tick, Fresh, Quiet;
    TickStill(w);
  }

  lemma CalmUpdates(w: World, k: Key, edits: Annotations, ip: string, n: nat)
    requires Still(w) && w.script == [] && n > 0
    ensures EditAnnotations(w, k, edits, n).v && AddExternalIP(w, k, ip, n).v
  {
    hide Tick, Fresh, Quiet, ValidCloud, Marked, OneBound, Replace, Listing;
    CalmGet(w, k);
    TickStill(w);
    TickStill(Tick(w));
  }

  lemma CalmWrites(w: World, o: Service, n: nat)
    requires Still(w) && w.script == [] && n > 0
    requires o.key in w.services.objects && o.uid == w.services.objects[o.key].uid
    ensures WriteService(w, o, n).v
  {
    hide Tick, Fresh, Quiet, ValidCloud, Marked, OneBound, Replace;
    CalmGet(w, o.key);
    TickStill(w);
    TickStill(Tick(w));
  }

  lemma CalmWritesLB(w: World, o: LoadBalancer, n: nat)
    requires Still(w) && w.script == [] && n > 0
    requires o.key in w.lbs.objects && o.uid == w.lbs.objects[o.key].uid
    ensures WriteLB(w, o, n).v
    ensures WriteStatus(w, o.key, o.status, n).v
  {
    hide Tick, Fresh, Quiet, ValidCloud, Marked, OneBound, Replace;
    CalmGet(w, o.key);
    TickStill(w);
    TickStill(Tick(w));
  }
}
