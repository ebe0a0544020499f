/** What a handler pass does for a service: which credentials it finds, what it tears down, and what it
    puts on a service it adopts. */
module Handler {
  import opened Kube
  import opened Cloud
  import opened Text
  import opened Worlds
  import opened Calls
  import opened Retry
  import opened Requests
  import opened Operator
  import opened Evolution
  import opened Passes
  import opened Orphans
  import opened Refinement
  import opened Undisturbed
  import opened Progress
  import opened Truthful
  import opened Dismantling
  import opened Triggers

  // ----- The search for a client -----

  /** The fate of the call i calls from now. */
  function FateAt(w: World, i: nat): Fate {
    if i < |w.script| then w.script[i].fate else Succeeds
  }

  lemma {:induction false} PerformAllScript(w: World, acts: seq<Act>)
    ensures PerformAll(w, acts).script == w.script
    decreases |acts|
  {
    hide UserPut, UserDelete;
    if acts != [] {
      PerformAllScript(Perform(w, acts[0]), acts[1..]);
    }
  }

  /** A call uses up one turn. */
  lemma TickFates(w: World)
    ensures forall i: nat :: FateAt(Tick(w), i) == FateAt(w, i + 1)
    ensures Next(w).fate == FateAt(w, 0)
  {
    hide Perform;
    if w.script != [] {
      PerformAllScript(w.(script := w.script[1..], time := w.time + 1), w.script[0].others);
    }
  }

  lemma NewClientFates(w: World, secret: SecretRef)
    ensures var c := NewClient(w, secret);
      && (c.v <==> FateAt(w, 0) == Succeeds) && c.w.log.asked == Tick(w).log.asked + [secret]
      && forall i: nat :: FateAt(c.w, i) == FateAt(w, i + 1)
  {
    hide Tick;
    TickFates(w);
    var c := NewClient(w, secret);
    forall i: nat ensures FateAt(c.w, i) == FateAt(w, i + 1) {
      assert FateAt(c.w, i) == FateAt(Tick(w), i);
    }
  }

  /** The credentials that the service names. */
  function Named(svc: Service): SecretRef {
    SecretRef(Annotation(svc, CredentialsSecretName), Annotation(svc, CredentialsSecretNamespace))
  }

  predicate Complete(secret: SecretRef) {
    secret.name != "" && secret.namespace != ""
  }

  /** The credentials of the load balancers of the service's class, in the order of the listing. */
  function OfClass(svc: Service, lbs: seq<LoadBalancer>): seq<SecretRef> {
    if lbs == [] then []
    else (if MatchesClass(svc, lbs[0].spec.className) then [lbs[0].spec.secret] else []) + OfClass(svc, lbs[1..])
  }

  /** The credentials to try for a service that names none: those of its class, then those of the first
      load balancer there is. */
  function Candidates(svc: Service, lbs: seq<LoadBalancer>): seq<SecretRef> {
    OfClass(svc, lbs) + if lbs == [] then [] else [lbs[0].spec.secret]
  }

  lemma {:induction false} OfClassExact(svc: Service, lbs: seq<LoadBalancer>)
    ensures forall secret :: secret in OfClass(svc, lbs) <==>
      exists lb :: lb in lbs && MatchesClass(svc, lb.spec.className) && lb.spec.secret == secret
  {
    hide MatchesClass;
    if lbs != [] {
      OfClassExact(svc, lbs[1..]);
      assert lbs == [lbs[0]] + lbs[1..];
    }
  }

  /** The first n credentials were tried, the ones before the last in vain. */
  ghost predicate Tried(w: World, secrets: seq<SecretRef>, n: nat, c: Out<bool>) {
    && n <= |secrets| && c.w.log.asked == w.log.asked + secrets[..n]
    && (forall i: nat :: i + 1 < n ==> FateAt(w, i) != Succeeds)
    && (if c.v then n > 0 && FateAt(w, n - 1) == Succeeds
        else n == |secrets| && (n > 0 ==> FateAt(w, n - 1) != Succeeds))
    && forall i: nat :: FateAt(c.w, i) == FateAt(w, n + i)
  }

  lemma {:induction false} ClassSearch(w: World, svc: Service, lbs: seq<LoadBalancer>) returns (n: nat)
    requires WF(w)
    ensures Tried(w, OfClass(svc, lbs), n, ClientOfMatching(w, svc, lbs))
    decreases |lbs|
  {
    hide WF, Evolves, MatchesClass, NewClient, FateAt;
    n := 0;
    if lbs != [] {
      if !MatchesClass(svc, lbs[0].spec.className) {
        n := ClassSearch(w, svc, lbs[1..]);
      } else {
        var secret := lbs[0].spec.secret;
        var c := NewClient(w, secret);
        NewClientFates(w, secret);
        assert Tick(w).log == w.log by { TickOthers(w); hide Tick; }
        if c.v {
          n := 1;
        } else {
          NewClientEvolves(w, secret, Scope({}, {}, {}, {}, false));
          StillFormed(w, c.w, Scope({}, {}, {}, {}, false));
          var m := ClassSearch(c.w, svc, lbs[1..]);
          n := m + 1;
          TriedMore(w, secret, OfClass(svc, lbs[1..]), m, c, ClientOfMatching(c.w, svc, lbs[1..]));
        }
      }
    }
  }

  lemma TriedMore(w: World, secret: SecretRef, rest: seq<SecretRef>, m: nat, c: Out<bool>, r: Out<bool>)
    requires Tried(c.w, rest, m, r) && c.w.log.asked == w.log.asked + [secret]
    requires FateAt(w, 0) != Succeeds && forall i: nat :: FateAt(c.w, i) == FateAt(w, i + 1)
    ensures Tried(w, [secret] + rest, m + 1, r)
  {
    hide FateAt;
    assert ([secret] + rest)[..m + 1] == [secret] + rest[..m];
    forall i: nat | i + 1 < m + 1 ensures FateAt(w, i) != Succeeds {
      if i > 0 {
        assert FateAt(c.w, i - 1) == FateAt(w, i);
      }
    }
    if m > 0 {
      assert FateAt(c.w, m - 1) == FateAt(w, m);
    }
    forall i: nat ensures FateAt(r.w, i) == FateAt(w, m + 1 + i) {
      assert FateAt(c.w, m + i) == FateAt(w, m + i + 1);
    }
  }

  /** What a listing of load balancers made now shows. */
  function ShownLBs(w: World): seq<LoadBalancer> {
    var t := Tick(w);
    Listing(t.lbs, t.lbs.names, Next(w).view)
  }

  /** The search for a client, whatever fails: a service that names credentials gets a client exactly
      when that call succeeds, and no other is tried.  Otherwise, if the listing succeeds, the
      candidates are tried in order until one gives a client; so there is none exactly when the listing
      fails, shows no load balancer, or every candidate's call fails. */
  lemma ClientSearch(w: World, svc: Service) returns (n: nat)
    requires WF(w)
    ensures var c, all := ClientOfService(w, svc), Candidates(svc, ShownLBs(w));
      if Complete(Named(svc)) then
        (c.v <==> FateAt(w, 0) == Succeeds) && c.w.log.asked == w.log.asked + [Named(svc)]
      else if FateAt(w, 0) != Succeeds then !c.v && c.w.log.asked == w.log.asked
      else
        && (c.v <==> exists i :: 1 <= i <= |all| && FateAt(w, i) == Succeeds)
        && n <= |all| && c.w.log.asked == w.log.asked + all[..n]
        && (forall i :: 1 <= i < n ==> FateAt(w, i) != Succeeds)
        && (if c.v then n > 0 && FateAt(w, n) == Succeeds else n == |all|)
  {
    hide WF, Evolves, Tick, MatchesClass, NewClient, FateAt, Listing, Others, ClientOfMatching;
    n := 0;
    TickFates(w);
    TickOthers(w);
    assert Tick(w).log == w.log by { hide Flow, Moves, Drifts, Quiet; TickSameLog(w); }
    NewClientFates(w, Named(svc));
    if !Complete(Named(svc)) && FateAt(w, 0) == Succeeds {
      var lbs := ShownLBs(w);
      var t := Tick(w);
      n := ClassSearch(t, svc, lbs);
      var c := ClientOfMatching(t, svc, lbs);
      FirstTried(w, t, svc, lbs, n, c);
      if !c.v && lbs != [] {
        NewClientFates(c.w, lbs[0].spec.secret);
        ClientOfMatchingEvolves(t, svc, lbs, Scope({}, {}, {}, {}, false));
        StillFormed(t, c.w, Scope({}, {}, {}, {}, false));
        TickSameLog(c.w);
        LastCandidate(w, t, svc, lbs, n, c);
        n := n + 1;
      } else {
        assert OfClass(svc, lbs)[..n] == Candidates(svc, lbs)[..n];
      }
    }
  }

  lemma TickSameLog(w: World)
    requires WF(w)
    ensures Tick(w).log == w.log
  {
    hide WF, Tick, Flow, Moves, Drifts, Quiet;
    TickOthers(w);
  }

  /** When no load balancer of the class gave a client, what comes next is the call for the first one. */
  lemma LastCandidate(w: World, t: World, svc: Service, lbs: seq<LoadBalancer>, n: nat, c: Out<bool>)
    requires lbs != [] && Tried(t, OfClass(svc, lbs), n, c) && !c.v
    requires forall i: nat :: FateAt(t, i) == FateAt(w, i + 1)
    ensures var all := Candidates(svc, lbs);
      && |all| == n + 1 && all[..n + 1] == OfClass(svc, lbs) + [lbs[0].spec.secret]
      && FateAt(c.w, 0) == FateAt(w, n + 1)
      && forall i :: 1 <= i <= n ==> FateAt(w, i) != Succeeds
  {
    hide FateAt, MatchesClass;
    assert FateAt(c.w, 0) == FateAt(t, n);
    forall i | 1 <= i <= n ensures FateAt(w, i) != Succeeds {
      assert FateAt(t, i - 1) == FateAt(w, i);
    }
  }

  /** What the search over the class comes to, counted from the listing on. */
  lemma FirstTried(w: World, t: World, svc: Service, lbs: seq<LoadBalancer>, n: nat, c: Out<bool>)
    requires Tried(t, OfClass(svc, lbs), n, c) && forall i: nat :: FateAt(t, i) == FateAt(w, i + 1)
    ensures forall i :: 1 <= i < n ==> FateAt(w, i) != Succeeds
    ensures c.v ==> FateAt(w, n) == Succeeds
  {
    hide FateAt, MatchesClass;
    forall i | 1 <= i < n ensures FateAt(w, i) != Succeeds {
      assert FateAt(t, i - 1) == FateAt(w, i);
    }
    assert n > 0 ==> FateAt(t, n - 1) == FateAt(w, n);
  }

  // ----- Calm handler passes -----

  lemma StoredLBsShown(w: World)
    requires Still(w)
    ensures StoredLBs(w) == [] <==> w.lbs.objects == map[]
    ensures forall lb :: lb in StoredLBs(w) <==> lb.key in w.lbs.objects && w.lbs.objects[lb.key] == lb
  {
    hide Quiet, Fresh, Listing, ValidCloud, Marked, OneBound;
    ListingCurrent(w.lbs, w.lbs.names);
    forall k | k in w.lbs.objects ensures w.lbs.objects[k] in StoredLBs(w) {
    }
    if StoredLBs(w) != [] {
      assert StoredLBs(w)[0].key in w.lbs.objects;
    }
  }

  /** In a calm world there is a client exactly when the service names credentials or some load
      balancer is stored; the first candidate's credentials are the only ones tried. */
  lemma CalmClient(w: World, svc: Service)
    requires Still(w) && w.script == []
    ensures var c, all := ClientOfService(w, svc), Candidates(svc, StoredLBs(w));
      && Follows(w, c.w) && Same(w, c.w)
      && (c.v <==> Complete(Named(svc)) || w.lbs.objects != map[])
      && (c.w.log.misses == w.log.misses <==> c.v)
      && c.w.log.asked == w.log.asked
           + (if Complete(Named(svc)) then [Named(svc)] else if all == [] then [] else [all[0]])
  {
    hide Still, Evolves, Tick, NewClient, ClientOfService, Listing, MatchesClass, ClientOfMatching;
    StoredLBsShown(w);
    StillWF(w);
    var c := ClientOfService(w, svc);
    var sc := Scope({}, {}, {}, {}, false);
    ClientOfServiceEvolves(w, svc, sc);
    EvolvesStill(w, c.w, sc);
    ClientStores(w, svc);
    var n := ClientSearch(w, svc);
    TickStill(w);
    NoClientIsTrouble(w, svc);
    CalmMisses(w, svc);
    var all := Candidates(svc, StoredLBs(w));
    assert ShownLBs(w) == StoredLBs(w);
    assert forall i: nat :: FateAt(w, i) == Succeeds;
    assert FateAt(w, 1) == Succeeds && (all == [] <==> StoredLBs(w) == []);
    assert c.v && !Complete(Named(svc)) ==> n == 1 && all[..1] == [all[0]] by {
      if n > 1 {
        assert FateAt(w, 1) == Succeeds;
      }
    }
  }

  lemma CalmMisses(w: World, svc: Service)
    requires Still(w) && w.script == []
    ensures ClientOfService(w, svc).v ==> ClientOfService(w, svc).w.log.misses == w.log.misses
  {
    hide Still, Tick, NewClient, Listing, MatchesClass;
    NewClientStill(w, Named(svc));
    TickStill(w);
    var l := ListLBs(w);
    if l.v.Some? {
      CalmClassMisses(l.w, svc, l.v.value);
      var c := ClientOfMatching(l.w, svc, l.v.value);
      if l.v.value != [] {
        NewClientStill(c.w, l.v.value[0].spec.secret);
      }
    }
  }

  lemma {:induction false} CalmClassMisses(w: World, svc: Service, lbs: seq<LoadBalancer>)
    requires Still(w) && w.script == []
    ensures var c := ClientOfMatching(w, svc, lbs);
      Still(c.w) && c.w.script == [] && c.w.log.misses == w.log.misses
    decreases |lbs|
  {
    hide Still, Tick, NewClient, MatchesClass;
    if lbs != [] {
      NewClientStill(w, lbs[0].spec.secret);
      if !MatchesClass(svc, lbs[0].spec.className) {
        CalmClassMisses(w, svc, lbs[1..]);
      }
    }
  }

  /** What a request for the service leads to. */
  lemma HandlerReads(w: World, k: Key)
    requires Still(w) && Ok(w) && k in w.services.objects && !Contains(k.name, MARKER)
    ensures var got, svc := Tick(w), w.services.objects[k];
      && Follows(w, got) && Same(w, got) && got.log == w.log && svc.key == k
      && ReconcileService(w, ServiceRequest(k))
        == (if svc.terminating then FinalizeService(got, svc) else AdoptService(got, svc))
  {
    hide Still, Tick, Contains, ServiceName, FinalizeService, AdoptService;
    hide Evolves, Others, Known;
    DecodeIff(k.name);
    StillWF(w);
    GetServiceFacts(w, k, Scope({}, {}, {}, {}, false));
    TickStill(w);
    KeyStored(w, k);
  }

  /** A handler pass over a terminating service that the finalizer holds, in a calm world.  If the
      service names credentials or some load balancer is stored, what is selected for the service and
      carries the tag is gone, and the service is let go unless something selected was refused and
      nothing is on record.  Otherwise, and only then, the finalizer goes with the resources left. */
  lemma HandlerTearsDown(w: World, k: Key)
    requires Still(w) && w.script == [] && k in w.services.objects && !Contains(k.name, MARKER)
    requires w.services.objects[k].terminating && ServiceFinalizer in w.services.objects[k].finalizers
    ensures var r, svc := ReconcileService(w, ServiceRequest(k)), w.services.objects[k];
      if Complete(Named(svc)) || w.lbs.objects != map[] then
        && Cut(w.cloud, r.w.cloud, svc)
        && r.v == (if Releasable(svc, w.cloud) then DONE else Verdict(true, false))
        && (k in r.w.services.objects && ServiceFinalizer in r.w.services.objects[k].finalizers <==>
               !Releasable(svc, w.cloud))
      else
        && r.w.cloud == w.cloud && r.v == DONE
        && (k in r.w.services.objects ==> ServiceFinalizer !in r.w.services.objects[k].finalizers)
  {
    hide Still, Tick, Contains, ClientOfService, Finalize, DropFinalizer, ReconcileService, Cut, Trimmed, SelectedOwned;
    hide Evolves;
    hide Candidates, Complete;
    var svc := w.services.objects[k];
    TickStill(w);
    HandlerReads(w, k);
    var got := Tick(w);
    CalmClient(got, svc);
    var c := ClientOfService(got, svc);
    CalmFinalize(c.w, svc);
    CalmDrop(c.w, svc);
  }

  // ----- Adoption -----

  /** The load balancer is the first of the service's class in the listing. */
  predicate FirstOfClass(svc: Service, lbs: seq<LoadBalancer>, lb: LoadBalancer) {
    exists i :: 0 <= i < |lbs| && lbs[i] == lb && MatchesClass(svc, lb.spec.className)
      && forall j :: 0 <= j < i ==> !MatchesClass(svc, lbs[j].spec.className)
  }

  lemma {:induction false} FirstMatchingExact(svc: Service, lbs: seq<LoadBalancer>)
    ensures FirstMatching(svc, lbs).None? <==> forall j :: 0 <= j < |lbs| ==> !MatchesClass(svc, lbs[j].spec.className)
    ensures FirstMatching(svc, lbs).Some? ==> FirstOfClass(svc, lbs, FirstMatching(svc, lbs).value)
  {
    hide MatchesClass;
    if lbs != [] {
      if MatchesClass(svc, lbs[0].spec.className) {
        assert lbs[0] == FirstMatching(svc, lbs).value;
      } else {
        FirstMatchingExact(svc, lbs[1..]);
        var rest := FirstMatching(svc, lbs[1..]);
        if rest.Some? {
          var i :| 0 <= i < |lbs[1..]| && lbs[1..][i] == rest.value && MatchesClass(svc, rest.value.spec.className)
            && forall j :: 0 <= j < i ==> !MatchesClass(svc, lbs[1..][j].spec.className);
          assert lbs[i + 1] == rest.value;
          assert forall j :: 0 <= j < i + 1 ==> !MatchesClass(svc, lbs[j].spec.className) by {
            forall j | 0 <= j < i + 1 ensures !MatchesClass(svc, lbs[j].spec.className) {
              assert j > 0 ==> lbs[j] == lbs[1..][j - 1];
            }
          }
        } else {
          forall j | 0 <= j < |lbs| ensures !MatchesClass(svc, lbs[j].spec.className) {
            assert j > 0 ==> lbs[j] == lbs[1..][j - 1];
          }
        }
      }
    }
  }

  /** The service as it is to be after adoption: the finalizer is added at the end of its list, and if
      a load balancer of its class is stored, the first one's credentials are written on it. */
  ghost predicate Adopted(svc: Service, lbs: seq<LoadBalancer>, o: Service) {
    && o == svc.(finalizers := svc.finalizers + [ServiceFinalizer], annotations := o.annotations, version := o.version)
    && (if forall j :: 0 <= j < |lbs| ==> !MatchesClass(svc, lbs[j].spec.className)
        then o.annotations == svc.annotations
        else exists lb :: FirstOfClass(svc, lbs, lb) && Named(o) == lb.spec.secret)
    && forall name :: name != CredentialsSecretName && name != CredentialsSecretNamespace ==>
         ((name in o.annotations <==> name in svc.annotations) && Annotation(o, name) == Annotation(svc, name))
  }

  lemma CredentialsWritten(svc: Service, lb: LoadBalancer)
    ensures var o := Annotated(svc, Credentials(lb)); Named(o) == lb.spec.secret
    ensures var o := Annotated(svc, Credentials(lb));
      forall name :: name != CredentialsSecretName && name != CredentialsSecretNamespace ==>
        ((name in o.annotations <==> name in svc.annotations) && Annotation(o, name) == Annotation(svc, name))
  {
  }

  /** The finalizer and then, if there is a load balancer, its credentials. */
  lemma AdoptWrites(w: World, svc: Service, lb: Option<LoadBalancer>)
    requires Still(w) && svc.key in w.services.objects && w.services.objects[svc.key] == svc
    requires !svc.terminating && ServiceFinalizer !in svc.finalizers
    ensures var u := WriteService(w, svc.(finalizers := AddFinalizer(svc.finalizers, ServiceFinalizer)), STEPS);
      && (w.script == [] ==> u.v) && Follows(w, u.w) && u.w.lbs == w.lbs && u.w.cloud == w.cloud
      && svc.key in u.w.services.objects
      && (u.v ==>
            var o := u.w.services.objects[svc.key];
            o == svc.(finalizers := svc.finalizers + [ServiceFinalizer], version := o.version))
    ensures var u := WriteService(w, svc.(finalizers := AddFinalizer(svc.finalizers, ServiceFinalizer)), STEPS);
      u.v && lb.Some? ==>
        var e := EditAnnotations(u.w, svc.key, Credentials(lb.value), STEPS);
        && (w.script == [] ==> e.v) && e.w.lbs == w.lbs && e.w.cloud == w.cloud && svc.key in e.w.services.objects
        && (e.v ==>
              var o := e.w.services.objects[svc.key];
              o == Annotated(u.w.services.objects[svc.key], Credentials(lb.value)).(version := o.version))
  {
    hide Still, WriteService, EditAnnotations, Replace, Credentials;
    var o := svc.(finalizers := AddFinalizer(svc.finalizers, ServiceFinalizer));
    WriteStill(w, o, STEPS);
    if w.script == [] {
      CalmWrites(w, o, STEPS);
    }
    assert Valid(w.services) by { StillWF(w); hide Valid; }
    ReplaceStores(w.services, Merge(svc, o));
    var u := WriteService(w, o, STEPS);
    if u.v && lb.Some? {
      EditStill(u.w, svc.key, Credentials(lb.value), STEPS);
      if w.script == [] {
        CalmUpdates(u.w, svc.key, Credentials(lb.value), "", STEPS);
      }
      assert Valid(u.w.services) by { StillWF(u.w); hide Valid; }
      ReplaceStores(u.w.services, Annotated(u.w.services.objects[svc.key], Credentials(lb.value)));
    }
  }

  /** A handler pass over a service that is not terminating, undisturbed, whichever calls fail after the
      opening read: it changes at most that service.  If there is something to do for it and the pass
      reports that it is done, the service is adopted.  If there is nothing to do, the pass is done unless
      it needed the load balancers and could not list them.  In a calm world it is always done. */
  lemma HandlerAdopts(w: World, k: Key)
    requires Still(w) && Ok(w) && k in w.services.objects && !Contains(k.name, MARKER)
    requires !w.services.objects[k].terminating
    ensures var r, svc := ReconcileService(w, ServiceRequest(k)), w.services.objects[k];
      && r.w.cloud == w.cloud && r.w.lbs == w.lbs && k in r.w.services.objects
      && (r.v == DONE || r.v == Verdict(true, true)) && (w.script == [] ==> r.v == DONE)
      && (if Handles(svc, StoredLBs(w)) then r.v == DONE ==> Adopted(svc, StoredLBs(w), r.w.services.objects[k])
          else Same(w, r.w) && (r.v == DONE <==> svc.spec.serviceType != LoadBalancerType || Ok(Tick(w))))
      && forall other :: other != k ==> Current(r.w.services, other) == Current(w.services, other)
  {
    hide Still, Tick, Contains, WriteService, EditAnnotations, FirstMatching, Listing, MatchesClass, HasResources;
    hide Adopted;
    hide ReconcileService, FinalizeService, Evolves, Credentials;
    var svc, got := w.services.objects[k], Tick(w);
    HandlerReads(w, k);
    TickStill(got);
    var l := ListLBs(got);
    if l.v.Some? && Handles(svc, StoredLBs(w)) {
      var lb := FirstMatching(svc, l.v.value);
      assert l.v.value == StoredLBs(w);
      FirstMatchingExact(svc, StoredLBs(w));
      AdoptWrites(l.w, svc, lb);
      if ReconcileService(w, ServiceRequest(k)).v == DONE {
        AdoptedBy(w, k, lb, ReconcileService(w, ServiceRequest(k)).w);
      }
    }
    StillWF(got);
    var sc := Scope({k}, {}, {}, {}, false);
    AdoptServiceEvolves(got, svc, sc);
    forall other | other != k
      ensures Current(ReconcileService(w, ServiceRequest(k)).w.services, other) == Current(w.services, other)
    {
      OutsideStill(got, AdoptService(got, svc).w, sc, other);
    }
  }

  /** A handler pass over a terminating service without our finalizer stores nothing, and reports an error
      and asks for another pass exactly when it finds no client. */
  lemma NothingHeld(w: World, k: Key)
    requires Still(w) && Ok(w) && k in w.services.objects && !Contains(k.name, MARKER)
    requires w.services.objects[k].terminating && ServiceFinalizer !in w.services.objects[k].finalizers
    ensures var r, client := ReconcileService(w, ServiceRequest(k)), ClientOfService(Tick(w), w.services.objects[k]).v;
      Same(w, r.w) && r.v == (if client then DONE else Verdict(true, true))
  {
    hide Still, Tick, Contains, ClientOfService, ReconcileService, AdoptService;
    HandlerReads(w, k);
    ClientStores(Tick(w), w.services.objects[k]);
  }

  lemma AdoptedBy(w: World, k: Key, lb: Option<LoadBalancer>, r: World)
    requires k in w.services.objects && k in r.services.objects
    requires lb == FirstMatching(w.services.objects[k], StoredLBs(w))
    requires var svc, o := w.services.objects[k], r.services.objects[k];
      var held := svc.(finalizers := svc.finalizers + [ServiceFinalizer], version := o.version);
      o == if lb.None? then held else Annotated(held, Credentials(lb.value)).(version := o.version)
    ensures Adopted(w.services.objects[k], StoredLBs(w), r.services.objects[k])
  {
    hide Listing, FirstMatching, MatchesClass, Credentials, Annotation, Named;
    var svc, o := w.services.objects[k], r.services.objects[k];
    FirstMatchingExact(svc, StoredLBs(w));
    if lb.Some? {
      CredentialsWritten(svc, lb.value);
      SameAnnotations(Annotated(svc, Credentials(lb.value)), o);
      assert FirstOfClass(svc, StoredLBs(w), lb.value);
    } else {
      SameAnnotations(svc, o);
    }
  }

  lemma SameAnnotations(a: Service, b: Service)
    requires a.annotations == b.annotations
    ensures Named(a) == Named(b) && forall name :: Annotation(a, name) == Annotation(b, name)
  {
  }
}
