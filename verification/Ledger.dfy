/** Every pass keeps the books on ports. */
module Ledger {
  import opened Kube
  import opened Cloud
  import opened Selection
  import opened Worlds
  import opened Calls
  import opened Retry
  import opened Requests
  import opened Operator
  import opened Evolution
  import opened Passes
  import opened Teardown
  import opened Orphans
  import opened Runs
  import opened Refinement
  import opened Deletion
  import opened Accounting

  // ----- Teardown -----

  /** An annotation edit keeps the books, and the snapshots of other records. */
  lemma EditBooks(w: World, k: Key, edits: Annotations, bound: nat, making: set<Owner>)
    requires Books(w, bound, making) && (PortID !in edits || Spent(w, k))
    ensures Books(EditAnnotations(w, k, edits, STEPS).w, bound, making)
    ensures PortID !in edits ==> forall svc :: Tracks(w, svc, bound) ==>
      Tracks(EditAnnotations(w, k, edits, STEPS).w, svc, bound)
  {
    hide WF, EditAnnotations, Tame, Tracks, Evolves, Accounted, Bounded, Fresh, Spent;
    var sc := Scope({k}, {}, {}, {}, false);
    EditTame(w, k, edits, STEPS, bound);
    EditAnnotationsEvolves(w, k, edits, STEPS, sc);
    BooksStep(w, EditAnnotations(w, k, edits, STEPS).w, sc, bound, making);
  }

  lemma WriteBooks(w: World, o: Service, bound: nat)
    requires Books(w, bound, {}) && Tracks(w, o, bound)
    ensures Books(WriteService(w, o, STEPS).w, bound, {}) && Tracks(WriteService(w, o, STEPS).w, o, bound)
  {
    hide WF, WriteService, Tame, Tracks, Evolves, Accounted, Bounded, Fresh;
    var sc := Scope({o.key}, {o.key}, {}, {}, false);
    WriteTame(w, o, STEPS, bound);
    WriteServiceEvolves(w, o, STEPS, sc);
    BooksStep(w, WriteService(w, o, STEPS).w, sc, bound, {});
  }

  /** Where a cleanup stands when its deletions are over. */
  lemma SweepsBooks(w: World, svc: Service, bound: nat)
    requires Books(w, bound, {}) && Tracks(w, svc, bound)
    ensures var fips := ListFloatingIPs(w); Books(fips.w, bound, {})
    ensures var fips := ListFloatingIPs(w); var ports := ListPorts(fips.w); fips.v.Some? ==> Books(ports.w, bound, {})
    ensures var fips := ListFloatingIPs(w); var ports := ListPorts(fips.w);
      fips.v.Some? && ports.v.Some? ==>
        var s := Sweeps(ports.w, svc, fips.v.value, ports.v.value);
        && Books(s.w, bound, {})
        && (PortID !in Blanks(s.v.0.hit, s.v.1.hit) || Spent(s.w, svc.key))
  {
    hide WF, ListFloatingIPs, ListPorts, Sweeps, Evolves, Accounted, Bounded, Fresh, ListsFloatingIPs, ListsPorts;
    hide Cleared, Spent, Tracks;
    var none := Scope({}, {}, {}, {}, true);
    var fips := ListFloatingIPs(w);
    ListFloatingIPsFacts(w, none);
    BooksSilent(w, fips.w, none, bound, {});
    TracksStays(w, fips.w, none, svc, bound);
    if fips.v.Some? {
      var ports := ListPorts(fips.w);
      ListFloatingIPsFacts(fips.w, none);
      BooksSilent(fips.w, ports.w, none, bound, {});
      TracksStays(fips.w, ports.w, none, svc, bound);
      if ports.v.Some? {
        var s := Sweeps(ports.w, svc, fips.v.value, ports.v.value);
        SweepsEvolve(ports.w, svc, fips.v.value, ports.v.value, none);
        SweepsFacts(fips.w, ports.w, svc, fips.v.value, ports.v.value, fips.w.cloud.used);
        BooksSilent(ports.w, s.w, none, bound, {});
        TracksStays(ports.w, s.w, none, svc, bound);
        assert PortID in Blanks(s.v.0.hit, s.v.1.hit) <==> s.v.1.hit;
        if s.v.1.hit {
          TracksSpent(s.w, svc, bound);
        }
      }
    }
  }

  lemma CleanupBooks(w: World, svc: Service, bound: nat)
    requires Books(w, bound, {}) && Tracks(w, svc, bound)
    ensures Books(Cleanup(w, svc).w, bound, {}) && (!HasResources(svc) ==> Tracks(Cleanup(w, svc).w, svc, bound))
  {
    hide WF, ListFloatingIPs, ListPorts, Sweeps, Evolves, Accounted, Bounded, Fresh, Spent, Tracks, EditAnnotations;
    hide Blanks;
    SweepsBooks(w, svc, bound);
    var fips := ListFloatingIPs(w);
    if fips.v.Some? {
      var ports := ListPorts(fips.w);
      if ports.v.Some? {
        var s := Sweeps(ports.w, svc, fips.v.value, ports.v.value);
        EditBooks(s.w, svc.key, Blanks(s.v.0.hit, s.v.1.hit), bound, {});
      }
    }
    if !HasResources(svc) {
      hide Cleanup;
      DoneWritesNothing(w, svc);
      TracksStays(w, Cleanup(w, svc).w, Scope({}, {}, {}, {}, true), svc, bound);
    }
  }

  lemma ForcedBooks(w: World, svc: Service, bound: nat)
    requires Books(w, bound, {})
    ensures Books(Forced(w, svc).w, bound, {})
  {
    hide WF, Forced, Tame, Evolves, Accounted, Bounded, Fresh;
    var sc := Scope({svc.key}, {svc.key}, {}, {}, false);
    ForcedTame(w, svc, bound);
    ForcedEvolves(w, svc, sc);
    BooksStep(w, Forced(w, svc).w, sc, bound, {});
  }

  lemma DropBooks(w: World, svc: Service, bound: nat)
    requires Books(w, bound, {}) && Tracks(w, svc, bound)
    ensures Books(DropFinalizer(w, svc).w, bound, {})
  {
    hide WF, WriteService, Forced, Accounted, Bounded, Fresh;
    var o := svc.(finalizers := RemoveFinalizer(svc.finalizers, ServiceFinalizer));
    WriteBooks(w, o, bound);
    ForcedBooks(WriteService(w, o, STEPS).w, svc, bound);
  }

  lemma DropLiveBooks(w: World, svc: Service, bound: nat)
    requires Books(w, bound, {}) && Tracks(w, svc, bound)
    ensures Books(DropLiveFinalizer(w, svc).w, bound, {})
  {
    hide WF, WriteService, Forced, Accounted, Bounded, Fresh;
    var o := svc.(finalizers := RemoveFinalizer(svc.finalizers, ServiceFinalizer));
    WriteBooks(w, o, bound);
    ForcedBooks(WriteService(w, o, STEPS).w, svc, bound);
  }

  lemma FinalizeBooks(w: World, svc: Service, bound: nat)
    requires Books(w, bound, {}) && Tracks(w, svc, bound)
    ensures Books(Finalize(w, svc).w, bound, {})
  {
    hide WF, Books, Tracks, Cleanup, Forced, DropFinalizer, DropLiveFinalizer, HasResources;
    CleanupBooks(w, svc, bound);
    var c := Cleanup(w, svc);
    ForcedBooks(c.w, svc, bound);
    if c.v == DONE {
      BooksWF(w, bound);
      CleanupFacts(w, svc);
      DropBooks(c.w, svc, bound);
      DropLiveBooks(c.w, svc, bound);
    }
  }

  lemma BooksWF(w: World, bound: nat)
    requires Books(w, bound, {})
    ensures Setting(w) && WF(w) && Dated(w, bound)
  {
    hide WF, Fresh, Accounted, Bounded;
  }

  lemma CleanServiceBooks(w: World, svc: Service, bound: nat)
    requires Books(w, bound, {}) && Tracks(w, svc, bound)
    ensures Books(CleanService(w, svc).w, bound, {})
  {
    hide Books, Tracks, Finalize, Cleanup;
    FinalizeBooks(w, svc, bound);
    CleanupBooks(w, svc, bound);
  }

  /** The snapshots a loop works from, of distinct services. */
  ghost predicate AllTrack(w: World, svcs: seq<Service>, used: Service -> bool, bound: nat) {
    && (forall s :: s in svcs && used(s) ==> Tracks(w, s, bound))
    && (forall i, j :: 0 <= i < j < |svcs| ==> svcs[i].key != svcs[j].key)
  }

  lemma RestTracks(a: World, b: World, svcs: seq<Service>, used: Service -> bool, sc: Scope, bound: nat)
    requires svcs != [] && Setting(a) && Dated(a, bound) && Evolves(a, b, sc) && sc.keys <= {svcs[0].key}
    requires AllTrack(a, svcs, used, bound)
    ensures AllTrack(b, svcs[1..], used, bound)
  {
    hide Setting, Dated, Evolves, Tracks;
    forall s | s in svcs[1..] && used(s) ensures Tracks(b, s, bound) {
      assert s in svcs && s.key != svcs[0].key;
      TracksStays(a, b, sc, s, bound);
    }
  }

  /** The copies a deletion works from. */
  function Involves(className: string): Service -> bool {
    s => Involved(s, className)
  }

  lemma {:induction false} CleanAllBooks(w: World, svcs: seq<Service>, className: string, requeue: bool, bound: nat)
    requires Books(w, bound, {}) && AllTrack(w, svcs, Involves(className), bound)
    ensures Books(CleanAll(w, svcs, className, requeue).w, bound, {})
    decreases |svcs|
  {
    hide Books, Setting, Dated, Evolves, CleanService, Involved, Tracks, WF;
    if svcs != [] {
      var s := svcs[0];
      var sc := Scope({s.key}, {s.key}, {}, {}, true);
      BooksWF(w, bound);
      assert s in svcs;
      if Involved(s, className) {
        var c := CleanService(w, s);
        CleanServiceBooks(w, s, bound);
        CleanServiceEvolves(w, s, sc);
        RestTracks(w, c.w, svcs, Involves(className), sc, bound);
        CleanAllBooks(c.w, svcs[1..], className, requeue || c.v != DONE, bound);
      } else {
        EvolvesReflexive(w, sc);
        RestTracks(w, w, svcs, Involves(className), sc, bound);
        CleanAllBooks(w, svcs[1..], className, requeue, bound);
      }
    }
  }

  // ----- The service handler -----

  lemma FinalizeServiceBooks(w: World, svc: Service, bound: nat)
    requires Books(w, bound, {}) && Tracks(w, svc, bound)
    ensures Books(FinalizeService(w, svc).w, bound, {})
  {
    hide Books, Setting, Dated, Evolves, Tracks, WF, ClientOfService, Finalize, DropFinalizer;
    var none := Scope({}, {}, {}, {}, true);
    BooksWF(w, bound);
    var c := ClientOfService(w, svc);
    ClientOfServiceEvolves(w, svc, none);
    BooksSilent(w, c.w, none, bound, {});
    TracksStays(w, c.w, none, svc, bound);
    FinalizeBooks(c.w, svc, bound);
    DropBooks(c.w, svc, bound);
  }

  lemma AdoptBooks(w: World, svc: Service, bound: nat)
    requires Books(w, bound, {}) && Tracks(w, svc, bound)
    ensures Books(AdoptService(w, svc).w, bound, {})
  {
    hide Books, Setting, Dated, Evolves, WF, Tick, Others, WriteService, EditAnnotations, FirstMatching, Listing;
    var none := Scope({}, {}, {}, {}, true);
    BooksWF(w, bound);
    FaultEvolves(w, none);
    var l := ListLBs(w);
    BooksSilent(w, l.w, none, bound, {});
    TracksStays(w, l.w, none, svc, bound);
    if l.v.Some? {
      var o := svc.(finalizers := AddFinalizer(svc.finalizers, ServiceFinalizer));
      WriteBooks(l.w, o, bound);
      var lb := FirstMatching(svc, l.v.value);
      if lb.Some? {
        EditBooks(WriteService(l.w, o, STEPS).w, svc.key, Credentials(lb.value), bound, {});
      }
    }
  }

  /** The copy shows the port record of what is stored, or nothing is stored. */
  ghost predicate ShowsRecord(w: World, svc: Service) {
    svc.key in w.services.objects ==>
      && w.services.objects[svc.key].uid == svc.uid
      && Annotation(w.services.objects[svc.key], PortID) == Annotation(svc, PortID)
  }

  /** The copy that a handler pass works from shows the record. */
  ghost predicate HandlerSees(w: World, req: Key) {
    match ServiceName(req.name)
    case None => true
    case Some(name) =>
      var got := GetService(w, Key(req.namespace, name));
      got.v.Found? ==> ShowsRecord(got.w, got.v.obj)
  }

  lemma ReconcileServiceBooks(w: World, req: Key, bound: nat) returns (later: nat)
    requires Books(w, bound, {}) && HandlerSees(w, req)
    ensures Books(ReconcileService(w, req).w, later, {})
  {
    hide Books, Setting, Evolves, WF, Tick, Others, GetService, FinalizeService, AdoptService, ServiceName, Fresh;
    hide ShowsRecord, Known;
    var none := Scope({}, {}, {}, {}, true);
    BooksWF(w, bound);
    later := bound;
    if ServiceName(req.name).Some? {
      var k := Key(req.namespace, ServiceName(req.name).value);
      var got := GetService(w, k);
      GetServiceFacts(w, k, none);
      BooksSilent(w, got.w, none, bound, {});
      if got.v.Found? {
        later := BooksAdvance(got.w, bound);
        KnownTracks(got.w, got.v.obj, later);
        FinalizeServiceBooks(got.w, got.v.obj, later);
        AdoptBooks(got.w, got.v.obj, later);
      }
    }
  }

  /** The books may be dated to now. */
  lemma BooksAdvance(w: World, bound: nat) returns (later: nat)
    requires Books(w, bound, {})
    ensures later == w.services.clock && Books(w, later, {})
  {
    hide WF, Fresh, Accounted, Bounded;
    later := w.services.clock;
  }

  lemma KnownTracks(w: World, svc: Service, bound: nat)
    requires Books(w, bound, {}) && bound == w.services.clock && Known(w.services, svc) && ShowsRecord(w, svc)
    ensures Tracks(w, svc, bound)
  {
    hide Accounted, Bounded, ValidCloud, Marked, OneBound;
  }

  // ----- Provisioning -----

  lemma EnsureFinalizerBooks(w: World, svc: Service, bound: nat)
    requires Books(w, bound, {}) && Tracks(w, svc, bound)
    ensures Books(EnsureFinalizer(w, svc).w, bound, {}) && Tracks(EnsureFinalizer(w, svc).w, svc, bound)
  {
    hide Books, WriteService;
    WriteBooks(w, svc.(finalizers := AddFinalizer(svc.finalizers, ServiceFinalizer)), bound);
  }

  lemma EnsureCredentialsBooks(w: World, svc: Service, lb: LoadBalancer, bound: nat)
    requires Books(w, bound, {}) && Tracks(w, svc, bound)
    ensures Books(EnsureCredentials(w, svc, lb).w, bound, {}) && Tracks(EnsureCredentials(w, svc, lb).w, svc, bound)
  {
    hide Books, Tracks, EditAnnotations;
    EditBooks(w, svc.key, Credentials(lb), bound, {});
  }

  lemma CheckPortBooks(w: World, lb: LoadBalancer, svc: Service, bound: nat)
    requires Books(w, bound, {}) && Tracks(w, svc, bound)
    ensures Books(CheckPort(w, lb, svc).w, bound, {})
  {
    hide Books, Setting, Dated, Evolves, WF, Tick, Others, EditAnnotations, Fault, Tracks, Spent;
    var none := Scope({}, {}, {}, {}, true);
    BooksWF(w, bound);
    FaultEvolves(w, none);
    var g := GetResource(w, PortKind, Annotation(svc, PortID));
    BooksSilent(w, g.w, none, bound, {});
    TracksStays(w, g.w, none, svc, bound);
    if g.v == Some(false) {
      BooksWF(g.w, bound);
      TracksSpent(g.w, svc, bound);
      EditBooks(g.w, svc.key, map[PortID := ""], bound, {});
    }
  }

  /** A port has been placed: its owner may have one stray more than mishaps for now. */
  lemma PlacePortBooks(t: World, id: string, owner: Owner, networkID: string, subnetID: string, ip: string, bound: nat)
    requires Books(t, bound, {}) && id != "" && id !in t.cloud.used && owner.uid <= bound
    ensures var p := PlacePort(t, id, owner, networkID, subnetID, ip);
      Books(p, bound, {owner}) && id in StraysOf(p.log, owner) && id in p.log.made && p.log.made[id] == owner
  {
    hide Fresh, Quiet, TagsReadable, PortName, PortDescription, FloatingIPDescription, StoresEvolve, CloudEvolves;
    hide Spares, AddPort, Valid, OneBound, ValidCloud;
    var p := PlacePort(t, id, owner, networkID, subnetID, ip);
    var sc := Scope({}, {}, {}, {owner}, false);
    PlacePortEvolves(t, id, owner, networkID, subnetID, ip, sc);
    EvolvesSetting(t, p, sc);
    assert id !in t.log.made;
    hide WF, Setting;
    PlacePortAccounted(t, id, owner, networkID, subnetID, ip);
    forall o ensures |StraysOf(p.log, o)| <= MishapsOf(p.log, o) + if o in {owner} then 1 else 0 {
      assert |StraysOf(t.log, o)| <= MishapsOf(t.log, o);
    }
  }

  lemma PlacePortAccounted(t: World, id: string, owner: Owner, networkID: string, subnetID: string, ip: string)
    requires Accounted(t) && id !in t.log.made
    ensures Accounted(PlacePort(t, id, owner, networkID, subnetID, ip))
  {
    hide PortName, PortDescription;
    var p := PlacePort(t, id, owner, networkID, subnetID, ip);
    forall x | x in p.log.made && x in p.cloud.ports && Lives(p, p.log.made[x])
      ensures Records(p, x) || x in StraysOf(p.log, p.log.made[x])
    {
      if x != id {
        assert x in t.log.made && x in t.cloud.ports && Lives(t, t.log.made[x]);
        assert Records(t, x) ==> Records(p, x);
      }
    }
  }

  /** A mishap settles the account. */
  lemma MishapBooks(w: World, owner: Owner, bound: nat)
    requires Books(w, bound, {owner})
    ensures Books(Mishap(w, owner), bound, {}) && Books(Mishap(Fault(w), owner), bound, {})
  {
    hide Fresh, Valid, ValidCloud, Marked, OneBound;
    forall o ensures |StraysOf(Mishap(w, owner).log, o)| <= MishapsOf(Mishap(w, owner).log, o) {
      assert |StraysOf(w.log, o)| <= MishapsOf(w.log, o) + if o in {owner} then 1 else 0;
    }
    NotesAccounted(w, Mishap(w, owner));
    NotesAccounted(w, Mishap(Fault(w), owner));
  }

  lemma NotesAccounted(a: World, b: World)
    requires Accounted(a) && b.services == a.services && b.cloud == a.cloud && b.log.made == a.log.made
    requires b.log.strays == a.log.strays
    ensures Accounted(b)
  {
    assert forall id :: Records(a, id) ==> Records(b, id);
    assert forall o :: StraysOf(b.log, o) == StraysOf(a.log, o);
    assert forall o :: Lives(b, o) ==> Lives(a, o);
  }

  /** So does the record, once it is written. */
  lemma RecordedBooks(w: World, owner: Owner, id: string, bound: nat)
    requires Books(w, bound, {owner}) && id in w.log.made && w.log.made[id] == owner && id in StraysOf(w.log, owner)
    ensures Books(Recorded(w, owner, id), bound, {})
  {
    hide Fresh, Valid, ValidCloud, Marked, OneBound, Annotation;
    MishapBooks(w, owner, bound);
    var r := Recorded(w, owner, id);
    forall o ensures |StraysOf(r.log, o)| <= MishapsOf(r.log, o) {
      assert |StraysOf(w.log, o)| <= MishapsOf(w.log, o) + if o in {owner} then 1 else 0;
    }
    forall x | x in r.log.made && x in r.cloud.ports && Lives(r, r.log.made[x])
      ensures Records(r, x) || x in StraysOf(r.log, r.log.made[x])
    {
      assert Lives(w, w.log.made[x]);
      assert Records(w, x) ==> Records(r, x);
    }
  }

  /** With current reads, what a successful edit wrote is on the service if there is one; so a port
      reported as recorded is recorded, and no mishap. */
  lemma CurrentEditShows(w: World, k: Key, edits: Annotations, n: nat)
    requires WF(w) && Fresh(w.script) && EditAnnotations(w, k, edits, n).v
    ensures var s := EditAnnotations(w, k, edits, n).w.services.objects;
      k in s ==> forall name :: name in edits ==> Annotation(s[k], name) == edits[name]
  {
    hide Others, EditAnnotations, Fresh, Replace, ValidCloud, Marked, OneBound, Valid;
    var mid := EditAnnotationsAtomic(w, k, edits, n);
    if k in mid.services.objects {
      var e := Annotated(mid.services.objects[k], edits);
      ReplaceOutside(mid.services, e, {k});
    }
  }

  lemma MakePortBooks(w: World, lb: LoadBalancer, svc: Service, ip: string, bound: nat)
    requires Books(w, bound, {}) && Tracks(w, svc, bound) && !HasAnnotation(svc, PortID)
    ensures Books(MakePort(w, lb, svc, ip).w, bound, {})
  {
    hide Books, Setting, Dated, Evolves, WF, Others, Tick, CreatePort, EditAnnotations, Tracks, SetCondition, Mishap;
    hide Recorded, Fresh;
    var owner := OwnerOf(svc);
    var c := CreatePort(w, owner, lb.status.networkID, lb.status.subnetID, ip);
    CreatePortBooks(w, svc, lb.status.networkID, lb.status.subnetID, ip, bound);
    if c.v.Some? {
      var id := c.v.value;
      MakingWF(c.w, bound, owner);
      EditBooks(c.w, svc.key, map[PortID := id], bound, {owner});
      var u := EditAnnotations(c.w, svc.key, map[PortID := id], STEPS);
      EditAnnotationsLog(c.w, svc.key, map[PortID := id], STEPS);
      MishapBooks(u.w, owner, bound);
      if u.v {
        RecordedBooks(u.w, owner, id, bound);
      }
    }
  }

  lemma MakingWF(w: World, bound: nat, owner: Owner)
    requires Books(w, bound, {owner})
    ensures Setting(w) && WF(w) && Dated(w, bound)
  {
    hide WF, Fresh, Accounted, Bounded;
  }

  lemma CreatePortBooks(w: World, svc: Service, networkID: string, subnetID: string, ip: string, bound: nat)
    requires Books(w, bound, {}) && Tracks(w, svc, bound) && !HasAnnotation(svc, PortID)
    ensures var c := CreatePort(w, OwnerOf(svc), networkID, subnetID, ip);
      if c.v.None? then Books(c.w, bound, {})
      else
        && Books(c.w, bound, {OwnerOf(svc)}) && Spent(c.w, svc.key)
        && c.v.value in c.w.log.made && c.w.log.made[c.v.value] == OwnerOf(svc)
        && c.v.value in StraysOf(c.w.log, OwnerOf(svc))
  {
    hide Books, Setting, Dated, Evolves, WF, Others, Tick, Tracks, Mishap, Fault, PlacePort, TagResource, TagList;
    hide NewID, Fresh, StraysOf;
    var none := Scope({}, {}, {}, {}, true);
    var owner := OwnerOf(svc);
    BooksWF(w, bound);
    assert owner.uid <= bound by { TracksDated(w, svc, bound); }
    TickEvolves(w, none);
    var t := Tick(w);
    BooksSilent(w, t, none, bound, {});
    TracksStays(w, t, none, svc, bound);
    var id := NewID(t.cloud, Next(w).id);
    var p := PlacePort(t, id, owner, networkID, subnetID, ip);
    BooksWF(t, bound);
    PlacePortBooks(t, id, owner, networkID, subnetID, ip, bound);
    match Next(w).fate {
      case Fails =>
        BooksMaking(t, bound, owner);
        MishapBooks(t, owner, bound);
      case FailsAfter =>
        MishapBooks(p, owner, bound);
      case Succeeds =>
        MakingWF(p, bound, owner);
        assert Tracks(p, svc, bound) by { TracksPlaced(t, id, owner, networkID, subnetID, ip, svc, bound); }
        var tags := TagList(owner, "ports", w.cluster);
        TagResourceEvolves(p, PortKind, id, tags, none);
        var q := TagResource(p, PortKind, id, tags);
        BooksSilent(p, q, none, bound, {owner});
        TracksStays(p, q, none, svc, bound);
        MakingWF(q, bound, owner);
        BlankSpent(q, svc, bound);
        LivePortBefore(p, q, none, id);
        assert StraysOf(q.log, owner) == StraysOf(p.log, owner) by { TagLog(p, PortKind, id, tags); }
    }
  }

  lemma TagLog(w: World, kind: Kind, id: string, tags: seq<string>)
    requires WF(w)
    ensures TagResource(w, kind, id, tags).log == w.log
  {
    hide WF, Tick, SetTags;
    TickLog(w);
  }

  lemma TracksDated(w: World, svc: Service, bound: nat)
    requires Tracks(w, svc, bound)
    ensures svc.uid <= bound
  {
  }

  lemma TracksPlaced(t: World, id: string, owner: Owner, networkID: string, subnetID: string, ip: string,
      svc: Service, bound: nat)
    requires Tracks(t, svc, bound)
    ensures Tracks(PlacePort(t, id, owner, networkID, subnetID, ip), svc, bound)
  {
    hide PortName, PortDescription;
  }

  lemma BooksMaking(w: World, bound: nat, owner: Owner)
    requires Books(w, bound, {})
    ensures Books(w, bound, {owner})
  {
    hide WF, Fresh, Accounted;
    forall o ensures |StraysOf(w.log, o)| <= MishapsOf(w.log, o) + if o in {owner} then 1 else 0 {
      assert |StraysOf(w.log, o)| <= MishapsOf(w.log, o);
    }
  }

  lemma BlankSpent(w: World, svc: Service, bound: nat)
    requires WF(w) && Dated(w, bound) && Tracks(w, svc, bound) && !HasAnnotation(svc, PortID)
    ensures Spent(w, svc.key)
  {
    hide WF, Tracks, Dated;
    NoEmptyIDs(w);
    TracksSpent(w, svc, bound);
  }

  lemma EnsurePortBooks(w: World, lb: LoadBalancer, svc: Service, ip: string, bound: nat)
    requires Books(w, bound, {}) && Tracks(w, svc, bound)
    ensures Books(EnsurePort(w, lb, svc, ip).w, bound, {})
  {
    hide Books, Tracks, CheckPort, MakePort;
    CheckPortBooks(w, lb, svc, bound);
    if !HasAnnotation(svc, PortID) {
      MakePortBooks(w, lb, svc, ip, bound);
    }
  }

  /** A floating IP is no port. */
  lemma CreateFloatingIPBooks(w: World, owner: Owner, portID: string, bound: nat)
    requires Books(w, bound, {}) && portID != "" && owner.uid <= bound && (w.rules.binds || Unbound(w, portID))
    ensures Books(CreateFloatingIP(w, owner, portID).w, bound, {})
  {
    hide Setting, Accounted, Bounded, Evolves, Tame, CreateFloatingIP, Unbound;
    var sc := Scope({}, {}, {}, {owner}, false);
    BooksWF(w, bound);
    CreateFloatingIPEvolves(w, owner, portID, sc);
    CreateFloatingIPTame(w, owner, portID, bound);
    BooksStep(w, CreateFloatingIP(w, owner, portID).w, sc, bound, {});
  }

  lemma PlacedTame(t: World, id: string, address: string, owner: Owner, portID: string)
    requires WF(t) && id !in t.cloud.used
    ensures Tame(t, PlaceFloatingIP(t, id, address, owner, portID))
  {
    hide Valid, Marked, OneBound, PortName, PortDescription, FloatingIPDescription;
  }

  lemma CreateFloatingIPTame(w: World, owner: Owner, portID: string, bound: nat)
    requires Setting(w) && Dated(w, bound) && portID != "" && (w.rules.binds || Unbound(w, portID))
    ensures Tame(w, CreateFloatingIP(w, owner, portID).w)
  {
    hide WF, Tick, Evolves, PlaceFloatingIP, TagResource, NewID, TagList, Unbound, Tame, Tracks, Flow, Moves, Drifts;
    hide Fresh, Dated;
    var none, sc := Scope({}, {}, {}, {}, false), Scope({}, {}, {}, {owner}, false);
    var t := Tick(w);
    TickEvolves(w, none);
    TickOthers(w);
    OthersTame(w, t, bound);
    EvolvesSetting(w, t, none);
    EvolvesDated(w, t, none, bound);
    EvolvesWF(w, t, none);
    if !w.rules.binds {
      OthersUnbound(w, t, portID);
    }
    hide Others;
    var id := NewID(t.cloud, Next(w).id);
    var address := if Next(w).text == "" then id else Next(w).text;
    var f := PlaceFloatingIP(t, id, address, owner, portID);
    PlaceFloatingIPEvolves(t, id, address, owner, portID, sc);
    PlacedTame(t, id, address, owner, portID);
    EvolvesSetting(t, f, sc);
    TameTransitive(w, t, f, none, sc, bound);
    match Next(w).fate {
      case Fails => TameLog(w, t, Fault(t));
      case FailsAfter => TameLog(w, f, Fault(f));
      case Succeeds =>
        var tags := TagList(owner, "floatingips", w.cluster);
        assert id in f.log.made by { PlacedIsMade(t, id, owner, "", "", ""); }
        var q := TagResource(f, FloatingIPKind, id, tags);
        TagResourceEvolves(f, FloatingIPKind, id, tags, none);
        SilentTame(f, q, none);
        TickEvolves(w, sc);
        EvolvesTransitive(w, t, f, sc);
        TameTransitive(w, f, q, sc, none, bound);
    }
  }

  lemma RecordFloatingIPBooks(w: World, lb: LoadBalancer, svc: Service, id: string, address: string,
      reason: Reason, portID: string, bound: nat)
    requires Books(w, bound, {})
    ensures Books(RecordFloatingIP(w, lb, svc, id, address, reason, portID).w, bound, {})
  {
    hide Books, EditAnnotations, SetCondition;
    EditBooks(w, svc.key, map[FloatingIPID := id], bound, {});
  }

  lemma CreateOrFindBooks(w: World, lb: LoadBalancer, svc: Service, portID: string, bound: nat)
    requires Books(w, bound, {}) && portID != "" && svc.uid <= bound
    ensures Books(CreateOrFind(w, lb, svc, portID).w, bound, {})
  {
    hide Books, Setting, Dated, Evolves, WF, FindFloatingIP, CreateFloatingIP, RecordFloatingIP, SetCondition;
    var none := Scope({}, {}, {}, {}, true);
    BooksWF(w, bound);
    var f := FindFloatingIP(w, portID);
    FindFloatingIPFacts(w, portID, none);
    BooksSilent(w, f.w, none, bound, {});
    match f.v {
      case None =>
      case Some(Some(fip)) => RecordFloatingIPBooks(f.w, lb, svc, fip.id, fip.address, FoundExisting, portID, bound);
      case Some(None) =>
        assert Unbound(f.w, portID);
        CreateFloatingIPBooks(f.w, OwnerOf(svc), portID, bound);
        var c := CreateFloatingIP(f.w, OwnerOf(svc), portID);
        if c.v.Some? {
          RecordFloatingIPBooks(c.w, lb, svc, c.v.value.id, c.v.value.address, Created, portID, bound);
        }
    }
  }

  lemma CheckFloatingIPBooks(w: World, lb: LoadBalancer, svc: Service, bound: nat)
    requires Books(w, bound, {})
    ensures Books(CheckFloatingIP(w, lb, svc).w, bound, {})
  {
    hide Books, Setting, Dated, Evolves, WF, Others, Tick, EditAnnotations, Fault;
    var none := Scope({}, {}, {}, {}, true);
    BooksWF(w, bound);
    FaultEvolves(w, none);
    var g := GetResource(w, FloatingIPKind, Annotation(svc, FloatingIPID));
    BooksSilent(w, g.w, none, bound, {});
    BooksWF(g.w, bound);
    EditBooks(g.w, svc.key, map[FloatingIPID := ""], bound, {});
    FaultEvolves(g.w, none);
    BooksSilent(g.w, GetAddress(g.w, Annotation(svc, FloatingIPID)).w, none, bound, {});
  }

  lemma HandleFloatingIPBooks(w: World, lb: LoadBalancer, svc: Service, portID: string, bound: nat)
    requires Books(w, bound, {}) && portID != "" && svc.uid <= bound
    ensures Books(HandleFloatingIP(w, lb, svc, portID).w, bound, {})
  {
    hide Books, Setting, Dated, Evolves, WF, Tame, CheckFloatingIP, CreateOrFind, AddExternalIP;
    CheckFloatingIPBooks(w, lb, svc, bound);
    CreateOrFindBooks(w, lb, svc, portID, bound);
    var a := if HasAnnotation(svc, FloatingIPID) then CheckFloatingIP(w, lb, svc) else CreateOrFind(w, lb, svc, portID);
    var sc := Scope({svc.key}, {}, {}, {}, false);
    BooksWF(a.w, bound);
    ExposeTame(a.w, svc.key, a.v.address, STEPS, bound);
    AddExternalIPEvolves(a.w, svc.key, a.v.address, STEPS, sc);
    BooksStep(a.w, AddExternalIP(a.w, svc.key, a.v.address, STEPS).w, sc, bound, {});
  }

  lemma ProvisionBooks(w: World, lb: LoadBalancer, svc: Service, ip: string, bound: nat)
    requires Books(w, bound, {}) && Tracks(w, svc, bound)
    ensures Books(Provision(w, lb, svc, ip).w, bound, {})
  {
    hide Books, Setting, Dated, Evolves, WF, Tracks, DetectNetwork, EnsurePort, HandleFloatingIP;
    var none := Scope({}, {}, {}, {}, true);
    BooksWF(w, bound);
    TracksDated(w, svc, bound);
    var d := DetectNetwork(w, lb, ip);
    DetectNetworkEvolves(w, lb, ip, none);
    BooksSilent(w, d.w, none, bound, {});
    TracksStays(w, d.w, none, svc, bound);
    EnsurePortBooks(d.w, d.v.lb, svc, ip, bound);
    BooksWF(d.w, bound);
    var p := EnsurePort(d.w, d.v.lb, svc, ip);
    EnsurePortEvolves(d.w, d.v.lb, svc, ip, Scope({svc.key}, {}, {}, {OwnerOf(svc)}, true));
    if p.v.v == DONE {
      HandleFloatingIPBooks(p.w, p.v.lb, svc, p.v.portID, bound);
    }
  }

  lemma ProcessBooks(w: World, lb: LoadBalancer, svc: Service, ip: string, bound: nat)
    requires Books(w, bound, {}) && Tracks(w, svc, bound)
    ensures Books(ProcessService(w, lb, svc, ip).w, bound, {})
  {
    hide Books, Tracks, EnsureFinalizer, EnsureCredentials, Provision;
    EnsureFinalizerBooks(w, svc, bound);
    var f := EnsureFinalizer(w, svc);
    EnsureCredentialsBooks(f.w, svc, lb, bound);
    ProvisionBooks(EnsureCredentials(f.w, svc, lb).w, lb, svc, ip, bound);
  }

  /** The copies a provisioning pass works from. */
  function Qualifies(className: string): Service -> bool {
    s => Eligible(s, className)
  }

  lemma {:induction false} ProvisionAllBooks(w: World, svcs: seq<Service>, t: Tally, bound: nat)
    requires Books(w, bound, {}) && AllTrack(w, svcs, Qualifies(t.lb.spec.className), bound)
    ensures Books(ProvisionAll(w, svcs, t).w, bound, {})
    decreases |svcs|
  {
    hide Books, Setting, Dated, Evolves, WF, ProcessService, Tracks, MatchesClass;
    if svcs != [] {
      var s := svcs[0];
      var sc := Scope({s.key}, {}, {}, {OwnerOf(s)}, false);
      BooksWF(w, bound);
      assert s in svcs;
      if Eligible(s, t.lb.spec.className) {
        var p := ProcessService(w, t.lb, s, s.status.ingress[0]);
        ProcessBooks(w, t.lb, s, s.status.ingress[0], bound);
        ProcessServiceEvolves(w, t.lb, s, s.status.ingress[0], sc);
        RestTracks(w, p.w, svcs, Qualifies(t.lb.spec.className), sc, bound);
        ProvisionAllBooks(p.w, svcs[1..], Tally(p.v.lb, true, t.err || p.v.v.err, t.requeue || p.v.v.requeue), bound);
      } else {
        EvolvesReflexive(w, sc);
        RestTracks(w, w, svcs, Qualifies(t.lb.spec.className), sc, bound);
        ProvisionAllBooks(w, svcs[1..], t, bound);
      }
    }
  }

  // ----- Passes and runs -----

  /** Of the services that the listing of a pass shows, those it works on show their record. */
  ghost predicate ListingSees(w: World, lb: LoadBalancer, used: Service -> bool) {
    var c := NewClient(w, lb.spec.secret);
    var l := ListServices(c.w);
    c.v && l.v.Some? ==> forall s :: s in l.v.value && used(s) ==> ShowsRecord(l.w, s)
  }

  /** However old the versions shown, a listing shows each name once, and versions there have been. */
  lemma {:induction false} ListingKnown(s: Store<ServiceSpec, ServiceStatus>, names: seq<Key>, view: View)
    requires Valid(s) && Distinct(names)
    ensures var all := Listing(s, names, view);
      && (forall o :: o in all ==> Known(s, o) && o.key in names)
      && (forall i, j :: 0 <= i < j < |all| ==> all[i].key != all[j].key)
  {
    hide Valid, Known, Read;
    if names != [] {
      var rest := names[1..];
      assert forall j :: 0 <= j < |rest| ==> rest[j] == names[j + 1];
      ListingKnown(s, rest, view);
      ReadKnown(s, names[0], view);
    }
  }

  lemma ListedKnown(w: World)
    requires WF(w) && ListServices(w).v.Some?
    ensures var l := ListServices(w);
      && (forall o :: o in l.v.value ==> Known(l.w.services, o))
      && (forall i, j :: 0 <= i < j < |l.v.value| ==> l.v.value[i].key != l.v.value[j].key)
  {
    hide Tick, Others, Listing, Known, ValidCloud, Marked, OneBound;
    TickOthers(w);
    ListingKnown(Tick(w).services, Tick(w).services.names, Next(w).view);
  }

  /** What the loops of both kinds of pass start from. */
  lemma ListBooks(w: World, bound: nat, used: Service -> bool) returns (later: nat)
    requires Books(w, bound, {})
    requires var l := ListServices(w); l.v.Some? ==> forall s :: s in l.v.value && used(s) ==> ShowsRecord(l.w, s)
    ensures var l := ListServices(w); Books(l.w, later, {}) && (l.v.Some? ==> AllTrack(l.w, l.v.value, used, later))
  {
    hide Books, Setting, Dated, Evolves, WF, ListServices, Tracks, ShowsRecord, Known;
    var sc := Scope({}, {}, {}, {}, true);
    BooksWF(w, bound);
    var l := ListServices(w);
    ListServicesEvolves(w, sc);
    BooksSilent(w, l.w, sc, bound, {});
    later := BooksAdvance(l.w, bound);
    if l.v.Some? {
      ListedKnown(w);
      forall s | s in l.v.value && used(s) ensures Tracks(l.w, s, later) {
        KnownTracks(l.w, s, later);
      }
    }
  }

  lemma ReconcileLiveBooks(w: World, lb: LoadBalancer, bound: nat) returns (later: nat)
    requires Books(w, bound, {}) && ListingSees(w, lb, Qualifies(lb.spec.className))
    ensures Books(ReconcileLive(w, lb).w, later, {})
  {
    hide Books, Setting, Dated, Evolves, WF, NewClient, ListServices, ProvisionAll, Conclude, WriteStatus, SetCondition;
    hide Tracks;
    hide ShowsRecord, Qualifies, AllTrack;
    var none := Scope({}, {}, {lb.key}, {}, true);
    BooksWF(w, bound);
    var c := NewClient(w, lb.spec.secret);
    NewClientEvolves(w, lb.spec.secret, none);
    BooksSilent(w, c.w, none, bound, {});
    BooksWF(c.w, bound);
    if !c.v {
      later := bound;
      var bad := Note(c.w, lb, Ready, false, OpenStackClientError, ErrorText(w));
      WriteStatusEvolves(c.w, bad.key, bad.status, STEPS, none);
      BooksSilent(c.w, WriteStatus(c.w, bad.key, bad.status, STEPS).w, none, bound, {});
    } else {
      later := ListBooks(c.w, bound, Qualifies(lb.spec.className));
      var l := ListServices(c.w);
      if l.v.Some? {
        var t := Tally(lb, false, false, false);
        ProvisionAllBooks(l.w, l.v.value, t, later);
        BooksWF(l.w, later);
        var p := ProvisionAll(l.w, l.v.value, t);
        ProvisionAllEvolves(l.w, l.v.value, t, ListScope(l.v.value, {}, false));
        BooksWF(p.w, later);
        ConcludeEvolves(p.w, p.v, none);
        BooksSilent(p.w, Conclude(p.w, p.v).w, none, later, {});
      }
    }
  }

  lemma HandleDeletionBooks(w: World, lb: LoadBalancer, bound: nat) returns (later: nat)
    requires Books(w, bound, {}) && ListingSees(w, lb, Involves(lb.spec.className))
    ensures Books(HandleDeletion(w, lb).w, later, {})
  {
    hide Books, Setting, Dated, Evolves, WF, NewClient, ListServices, CleanAll, DropLBFinalizer, Tracks, ShowsRecord;
    hide Involves, AllTrack;
    var none := Scope({}, {}, {lb.key}, {}, true);
    BooksWF(w, bound);
    var c := NewClient(w, lb.spec.secret);
    NewClientEvolves(w, lb.spec.secret, none);
    BooksSilent(w, c.w, none, bound, {});
    BooksWF(c.w, bound);
    if !c.v {
      later := bound;
      DropLBFinalizerEvolves(c.w, lb, none);
      BooksSilent(c.w, DropLBFinalizer(c.w, lb).w, none, bound, {});
    } else {
      later := ListBooks(c.w, bound, Involves(lb.spec.className));
      var l := ListServices(c.w);
      if l.v.Some? {
        CleanAllBooks(l.w, l.v.value, lb.spec.className, false, later);
        var d := CleanAll(l.w, l.v.value, lb.spec.className, false);
        BooksWF(d.w, later);
        DropLBFinalizerEvolves(d.w, lb, none);
        BooksSilent(d.w, DropLBFinalizer(d.w, lb).w, none, later, {});
      }
    }
  }

  /** The copies of services that a pass works from show the port records of what is stored: the copy
      that a handler pass reads, or those in the listing of a pass over a load balancer that it goes on
      to provision or to clean up for.  Nothing is asked of any other read. */
  ghost predicate Sees(w: World, req: Key) {
    if IsServiceRequest(req.name) then HandlerSees(w, req) else
      var got := GetLB(w, req);
      got.v.Found? ==>
        var lb := got.v.obj;
        if lb.terminating then ListingSees(got.w, lb, Involves(lb.spec.className))
        else LoadBalancerFinalizer in lb.finalizers ==> ListingSees(got.w, lb, Qualifies(lb.spec.className))
  }

  lemma PassBooks(w: World, req: Key, bound: nat) returns (later: nat)
    requires Books(w, bound, {}) && Sees(w, req)
    ensures Books(Reconcile(w, req).w, later, {})
  {
    hide Books, Setting, Dated, Evolves, WF, Others, Tick, ReconcileService, HandleDeletion, ReconcileLive, WriteLB;
    hide GetLB, IsServiceRequest;
    hide HandlerSees, ListingSees, Qualifies, Involves;
    if IsServiceRequest(req.name) {
      later := ReconcileServiceBooks(w, req, bound);
    } else {
      later := bound;
      var none := Scope({}, {}, {req}, {}, true);
      BooksWF(w, bound);
      var got := GetLB(w, req);
      GetLBFacts(w, req, none);
      BooksSilent(w, got.w, none, bound, {});
      if got.v.Found? {
        var lb := got.v.obj;
        BooksWF(got.w, bound);
        if LoadBalancerFinalizer !in lb.finalizers && !lb.terminating {
          var o := lb.(finalizers := AddFinalizer(lb.finalizers, LoadBalancerFinalizer));
          WriteLBEvolves(got.w, o, STEPS, none);
          BooksSilent(got.w, WriteLB(got.w, o, STEPS).w, none, bound, {});
        } else if lb.terminating {
          later := HandleDeletionBooks(got.w, lb, bound);
        } else {
          later := ReconcileLiveBooks(got.w, lb, bound);
        }
      }
    }
  }

  /** Every pass of the run works from copies that show the records. */
  ghost predicate AllSee(w: World, reqs: seq<Key>)
    decreases |reqs|
  {
    reqs != [] ==> Sees(w, reqs[0]) && AllSee(Reconcile(w, reqs[0]).w, reqs[1..])
  }

  lemma {:induction false} RunBooks(w: World, reqs: seq<Key>, bound: nat) returns (later: nat)
    requires Books(w, bound, {}) && AllSee(w, reqs)
    ensures Books(Run(w, reqs), later, {})
    decreases |reqs|
  {
    hide Books, Reconcile, Sees;
    later := bound;
    if reqs != [] {
      later := PassBooks(w, reqs[0], bound);
      later := RunBooks(Reconcile(w, reqs[0]).w, reqs[1..], later);
    }
  }

  /** The live ports made for a service object. */
  ghost function PortsOf(w: World, o: Owner): set<string> {
    set id | id in w.cloud.ports && id in w.log.made && w.log.made[id] == o
  }

  lemma BooksBound(w: World, bound: nat, o: Owner)
    requires Books(w, bound, {}) && Lives(w, o)
    ensures |PortsOf(w, o)| <= 1 + MishapsOf(w.log, o)
  {
    hide Setting, Dated, Annotation;
    var recorded := Annotation(w.services.objects[o.key], PortID);
    forall id | id in PortsOf(w, o) ensures id in {recorded} + StraysOf(w.log, o) {
      assert Lives(w, w.log.made[id]);
    }
    Subset(PortsOf(w, o), {recorded} + StraysOf(w.log, o));
    assert |StraysOf(w.log, o)| <= MishapsOf(w.log, o);
  }

  lemma {:induction false} Subset(a: set<string>, b: set<string>)
    requires a <= b
    ensures |a| <= |b|
    decreases |a|
  {
    if a != {} {
      var x :| x in a;
      Subset(a - {x}, b - {x});
    }
  }

  /** Over any run from a world with nothing made yet, as long as nobody else edits the records and the
      copies of services that the passes work from show them: the live ports made for a service object
      that still lives number at most one more than the creations for it that reported failure and the
      records of its ports that were not written. */
  lemma RunPorts(w: World, reqs: seq<Key>, o: Owner)
    requires Setting(w) && AllSee(w, reqs) && w.log.made == map[] && w.log.strays == map[] && w.log.mishaps == map[]
    requires Lives(Run(w, reqs), o)
    ensures var r := Run(w, reqs); |PortsOf(r, o)| <= 1 + MishapsOf(r.log, o)
  {
    hide WF, Reconcile, AllSee;
    assert Books(w, w.services.clock, {});
    hide Books;
    var later := RunBooks(w, reqs, w.services.clock);
    BooksBound(Run(w, reqs), later, o);
  }

  // ----- With current reads every pass sees the records -----

  lemma CurrentListingSees(w: World, lb: LoadBalancer, used: Service -> bool)
    requires WF(w) && Fresh(w.script)
    ensures ListingSees(w, lb, used)
  {
    hide WF, Evolves, NewClient, ListServices, Fresh;
    var none := Scope({}, {}, {}, {}, false);
    var c := NewClient(w, lb.spec.secret);
    NewClientEvolves(w, lb.spec.secret, none);
    LogAndRules(w, c.w, none);
    StillFormed(w, c.w, none);
    var l := ListServices(c.w);
    if l.v.Some? {
      ListingHeld(c.w, l.w, l.v.value);
    }
  }

  lemma CurrentPassSees(w: World, req: Key)
    requires WF(w) && Fresh(w.script)
    ensures Sees(w, req)
  {
    hide WF, Evolves, Others, Tick, GetLB, GetService, ListingSees, IsServiceRequest, ServiceName, Fresh, Qualifies;
    hide Involves, Known;
    var none := Scope({}, {}, {}, {}, false);
    if IsServiceRequest(req.name) {
      if ServiceName(req.name).Some? {
        GetServiceFacts(w, Key(req.namespace, ServiceName(req.name).value), none);
      }
    } else {
      var got := GetLB(w, req);
      GetLBFacts(w, req, none);
      LogAndRules(w, got.w, none);
      StillFormed(w, got.w, none);
      if got.v.Found? {
        CurrentListingSees(got.w, got.v.obj, Involves(got.v.obj.spec.className));
        CurrentListingSees(got.w, got.v.obj, Qualifies(got.v.obj.spec.className));
      }
    }
  }

  lemma {:induction false} CurrentRunSees(w: World, reqs: seq<Key>)
    requires WF(w) && Fresh(w.script)
    ensures AllSee(w, reqs)
    decreases |reqs|
  {
    hide WF, Evolves, Reconcile, Sees, Fresh;
    if reqs != [] {
      CurrentPassSees(w, reqs[0]);
      var sc := ReconcileEvolves(w, reqs[0]);
      LogAndRules(w, Reconcile(w, reqs[0]).w, sc);
      StillFormed(w, Reconcile(w, reqs[0]).w, sc);
      CurrentRunSees(Reconcile(w, reqs[0]).w, reqs[1..]);
    }
  }
}
