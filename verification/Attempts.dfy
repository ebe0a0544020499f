/** How often the get-modify-update helpers try, and when they succeed. */
module Attempts {
  import opened Kube
  import opened Cloud
  import opened Worlds
  import opened Calls
  import opened Retry
  import opened Evolution
  import opened Refinement
  import opened Undisturbed

  /** What comes of one attempt: it is over well, it may be tried again, or the server refused it. */
  datatype Outcome = Succeeded | Again | Refused

  function Told(reply: Reply): Outcome {
    match reply
    case Written => Succeeded
    case Conflict => Again
    case Rejected => Refused
  }

  // ----- Services -----

  /** What to write in place of what was read, if anything. */
  type Edit = Service -> Option<Service>

  function SetsAnnotations(edits: Annotations): Edit {
    (o: Service) => Some(Annotated(o, edits))
  }

  function AddsExternalIP(ip: string): Edit {
    (o: Service) => if ip in o.spec.externalIPs then None else Some(Exposed(o, ip))
  }

  function PutsCopy(copy: Service): Edit {
    (o: Service) => Some(copy.(version := o.version))
  }

  /** One attempt: read the object afresh, and if there is one and something to write, update it.  A
      failed read and a conflict are to be tried again; that there is no object is fine. */
  function Attempt(w: World, k: Key, edit: Edit): Out<Outcome> {
    var got := GetService(w, k);
    match got.v
    case Failed => Out(got.w, Again)
    case Missing => Out(got.w, Succeeded)
    case Found(o) =>
      match edit(o)
      case None => Out(got.w, Succeeded)
      case Some(e) => var put := UpdateService(got.w, e); Out(put.w, Told(put.v))
  }

  /** Where the attempt number i starts. */
  function Before(w: World, k: Key, edit: Edit, i: nat): World
    decreases i
  {
    if i == 0 then w else Before(Attempt(w, k, edit).w, k, edit, i - 1)
  }

  /** Attempt number i ends like this, after failures that may be retried. */
  ghost predicate EndsAt(w: World, k: Key, edit: Edit, i: nat, outcome: Outcome) {
    && Attempt(Before(w, k, edit, i), k, edit).v == outcome
    && forall j: nat :: j < i ==> Attempt(Before(w, k, edit, j), k, edit).v == Again
  }

  /** At most n attempts. */
  function Tries(w: World, k: Key, edit: Edit, n: nat): Out<bool>
    decreases n
  {
    if n == 0 then Out(w, false) else
      var a := Attempt(w, k, edit);
      match a.v
      case Succeeded => Out(a.w, true)
      case Refused => Out(a.w, false)
      case Again => Tries(a.w, k, edit, n - 1)
  }

  lemma EndsLater(w: World, k: Key, edit: Edit, i: nat, outcome: Outcome)
    requires Attempt(w, k, edit).v == Again
    ensures EndsAt(Attempt(w, k, edit).w, k, edit, i, outcome) <==> EndsAt(w, k, edit, i + 1, outcome)
  {
    hide Attempt;
    var v := Attempt(w, k, edit).w;
    assert forall j: nat :: Before(w, k, edit, j + 1) == Before(v, k, edit, j);
    if EndsAt(v, k, edit, i, outcome) {
      forall j: nat | j < i + 1 ensures Attempt(Before(w, k, edit, j), k, edit).v == Again {
        if j > 0 {
          assert Before(w, k, edit, j) == Before(v, k, edit, j - 1);
        }
      }
    }
    if EndsAt(w, k, edit, i + 1, outcome) {
      forall j: nat | j < i ensures Attempt(Before(v, k, edit, j), k, edit).v == Again {
        assert Before(v, k, edit, j) == Before(w, k, edit, j + 1);
      }
    }
  }

  lemma {:induction false} TriesIff(w: World, k: Key, edit: Edit, n: nat)
    ensures Tries(w, k, edit, n).v <==> exists i: nat :: i < n && EndsAt(w, k, edit, i, Succeeded)
    decreases n
  {
    hide Attempt, EndsAt;
    if n > 0 {
      var a := Attempt(w, k, edit);
      FirstEnds(w, k, edit);
      if a.v == Again {
        TriesIff(a.w, k, edit, n - 1);
        if exists i: nat :: i < n - 1 && EndsAt(a.w, k, edit, i, Succeeded) {
          var i: nat :| i < n - 1 && EndsAt(a.w, k, edit, i, Succeeded);
          EndsLater(w, k, edit, i, Succeeded);
          assert EndsAt(w, k, edit, i + 1, Succeeded);
        }
        if exists i: nat :: i < n && EndsAt(w, k, edit, i, Succeeded) {
          var i: nat :| i < n && EndsAt(w, k, edit, i, Succeeded);
          EndsLater(w, k, edit, i - 1, Succeeded);
          assert EndsAt(a.w, k, edit, i - 1, Succeeded);
        }
      }
    }
  }

  /** The first attempt decides unless it may be tried again. */
  lemma FirstEnds(w: World, k: Key, edit: Edit)
    ensures EndsAt(w, k, edit, 0, Succeeded) <==> Attempt(w, k, edit).v == Succeeded
    ensures Attempt(w, k, edit).v != Again ==> forall i: nat :: i > 0 ==> !EndsAt(w, k, edit, i, Succeeded)
  {
    hide Attempt;
    forall i: nat | i > 0 && EndsAt(w, k, edit, i, Succeeded) ensures Attempt(w, k, edit).v == Again {
      assert Before(w, k, edit, 0) == w;
    }
  }

  lemma {:induction false} HelpersTry(w: World, k: Key, edits: Annotations, ip: string, copy: Service, n: nat)
    ensures EditAnnotations(w, k, edits, n) == Tries(w, k, SetsAnnotations(edits), n)
    ensures AddExternalIP(w, k, ip, n) == Tries(w, k, AddsExternalIP(ip), n)
    ensures WriteService(w, copy, n) == Tries(w, copy.key, PutsCopy(copy), n)
    decreases n
  {
    hide GetService, UpdateService;
    if n > 0 {
      HelpersTry(Attempt(w, k, SetsAnnotations(edits)).w, k, edits, ip, copy, n - 1);
      HelpersTry(Attempt(w, k, AddsExternalIP(ip)).w, k, edits, ip, copy, n - 1);
      HelpersTry(Attempt(w, copy.key, PutsCopy(copy)).w, k, edits, ip, copy, n - 1);
    }
  }

  /** The helpers succeed exactly when one of five attempts does, after attempts that failed to read or
      ran into a conflict.  So they fail only if the server refused an update, or if each of five
      attempts failed to read or ran into a conflict. */
  lemma FiveAttempts(w: World, k: Key, edits: Annotations, ip: string, copy: Service)
    ensures EditAnnotations(w, k, edits, STEPS).v <==>
      exists i: nat :: i < 5 && EndsAt(w, k, SetsAnnotations(edits), i, Succeeded)
    ensures AddExternalIP(w, k, ip, STEPS).v <==>
      exists i: nat :: i < 5 && EndsAt(w, k, AddsExternalIP(ip), i, Succeeded)
    ensures WriteService(w, copy, STEPS).v <==>
      exists i: nat :: i < 5 && EndsAt(w, copy.key, PutsCopy(copy), i, Succeeded)
  {
    hide EditAnnotations, AddExternalIP, WriteService, Tries, EndsAt, SetsAnnotations, AddsExternalIP, PutsCopy;
    HelpersTry(w, k, edits, ip, copy, STEPS);
    TriesIff(w, k, SetsAnnotations(edits), STEPS);
    TriesIff(w, k, AddsExternalIP(ip), STEPS);
    TriesIff(w, copy.key, PutsCopy(copy), STEPS);
  }

  lemma AfterRetries(w: World, k: Key, edit: Edit, i: nat)
    requires forall j: nat :: j < i ==> Attempt(Before(w, k, edit, j), k, edit).v == Again
    ensures EndsAt(w, k, edit, i, Attempt(Before(w, k, edit, i), k, edit).v)
  {
    hide Attempt, Before;
  }

  /** No attempt succeeds: the reasons there are. */
  lemma {:induction false} FailureReasons(w: World, k: Key, edit: Edit, n: nat)
    requires !exists i: nat :: i < n && EndsAt(w, k, edit, i, Succeeded)
    ensures || (exists i: nat :: i < n && EndsAt(w, k, edit, i, Refused))
            || (forall i: nat :: i < n ==> Attempt(Before(w, k, edit, i), k, edit).v == Again)
    decreases n
  {
    hide Attempt, EndsAt;
    if n > 0 {
      var i := n - 1;
      FailureReasons(w, k, edit, i);
      if exists j: nat :: j < i && EndsAt(w, k, edit, j, Refused) {
        var j: nat :| j < i && EndsAt(w, k, edit, j, Refused);
        assert j < n;
      } else {
        var last := Attempt(Before(w, k, edit, i), k, edit).v;
        assert EndsAt(w, k, edit, i, last) by {
          AfterRetries(w, k, edit, i);
        }
        assert last != Succeeded;
        forall j: nat | j < n && last == Again ensures Attempt(Before(w, k, edit, j), k, edit).v == Again {
          assert j < i || j == i;
        }
      }
    }
  }

  /** The attempt made here is left in peace: its read succeeds and is current, and so does its update,
      before which nobody acts. */
  predicate InPeace(w: World) {
    && Ok(w) && Next(w).view == map[]
    && Ok(Tick(w)) && Next(Tick(w)).others == []
  }

  /** An edit of what is stored, under its own version and unique id. */
  predicate KeepsIdentity(w: World, k: Key, edit: Edit) {
    k in w.services.objects && edit(w.services.objects[k]).Some? ==>
      var o, e := w.services.objects[k], edit(w.services.objects[k]).value;
      e.key == o.key && e.uid == o.uid && e.version == o.version
  }

  /** An attempt that is left in peace succeeds. */
  lemma PeacefulAttempt(w: World, k: Key, edit: Edit)
    requires WF(w) && InPeace(w) && KeepsIdentity(Tick(w), k, edit)
    ensures Attempt(w, k, edit).v == Succeeded
  {
    hide ValidCloud, Marked, OneBound, Replace;
    assert WF(Tick(w)) by { TickOthers(w); hide WF, Tick; }
    var t := Tick(w);
    assert Tick(t).services == t.services by { NobodyActs(t); }
  }

  /** If one of the first five attempts is left in peace and none before it was refused, one of the five
      succeeds. */
  lemma PeaceIsEnough(w: World, k: Key, edit: Edit, i: nat)
    requires i < 5 && WF(Before(w, k, edit, i)) && InPeace(Before(w, k, edit, i))
    requires KeepsIdentity(Tick(Before(w, k, edit, i)), k, edit)
    requires forall j: nat :: j < i ==> Attempt(Before(w, k, edit, j), k, edit).v != Refused
    ensures exists m: nat :: m < 5 && EndsAt(w, k, edit, m, Succeeded)
  {
    hide WF, Attempt, InPeace, KeepsIdentity, Before;
    PeacefulAttempt(Before(w, k, edit, i), k, edit);
    if !exists m: nat :: m < 5 && EndsAt(w, k, edit, m, Succeeded) {
      FailureReasons(w, k, edit, i + 1);
    }
  }

  lemma NobodyActs(w: World)
    requires Next(w).others == []
    ensures Tick(w).services == w.services && Tick(w).lbs == w.lbs && Tick(w).cloud == w.cloud && Tick(w).log == w.log
    ensures Tick(w).script == if w.script == [] then [] else w.script[1..]
  {
  }

  // ----- Load balancers -----

  /** What a load balancer helper writes: a whole copy, or a status. */
  datatype LBWrite = Whole(copy: LoadBalancer) | StatusOnly(status: LBStatus)

  function AttemptLB(w: World, k: Key, write: LBWrite): Out<Outcome> {
    var got := GetLB(w, k);
    match got.v
    case Failed => Out(got.w, Again)
    case Missing => Out(got.w, Succeeded)
    case Found(o) =>
      match write
      case Whole(copy) => var put := UpdateLB(got.w, copy.(version := o.version)); Out(put.w, Told(put.v))
      case StatusOnly(status) => var put := UpdateLBStatus(got.w, o.(status := status)); Out(put.w, Told(put.v))
  }

  function BeforeLB(w: World, k: Key, write: LBWrite, i: nat): World
    decreases i
  {
    if i == 0 then w else BeforeLB(AttemptLB(w, k, write).w, k, write, i - 1)
  }

  ghost predicate EndsAtLB(w: World, k: Key, write: LBWrite, i: nat, outcome: Outcome) {
    && AttemptLB(BeforeLB(w, k, write, i), k, write).v == outcome
    && forall j: nat :: j < i ==> AttemptLB(BeforeLB(w, k, write, j), k, write).v == Again
  }

  function TriesLB(w: World, k: Key, write: LBWrite, n: nat): Out<bool>
    decreases n
  {
    if n == 0 then Out(w, false) else
      var a := AttemptLB(w, k, write);
      match a.v
      case Succeeded => Out(a.w, true)
      case Refused => Out(a.w, false)
      case Again => TriesLB(a.w, k, write, n - 1)
  }

  lemma EndsLaterLB(w: World, k: Key, write: LBWrite, i: nat, outcome: Outcome)
    requires AttemptLB(w, k, write).v == Again
    ensures EndsAtLB(AttemptLB(w, k, write).w, k, write, i, outcome) <==> EndsAtLB(w, k, write, i + 1, outcome)
  {
    hide AttemptLB;
    var v := AttemptLB(w, k, write).w;
    assert forall j: nat :: BeforeLB(w, k, write, j + 1) == BeforeLB(v, k, write, j);
    if EndsAtLB(v, k, write, i, outcome) {
      forall j: nat | j < i + 1 ensures AttemptLB(BeforeLB(w, k, write, j), k, write).v == Again {
        if j > 0 {
          assert BeforeLB(w, k, write, j) == BeforeLB(v, k, write, j - 1);
        }
      }
    }
    if EndsAtLB(w, k, write, i + 1, outcome) {
      forall j: nat | j < i ensures AttemptLB(BeforeLB(v, k, write, j), k, write).v == Again {
        assert BeforeLB(v, k, write, j) == BeforeLB(w, k, write, j + 1);
      }
    }
  }

  lemma FirstEndsLB(w: World, k: Key, write: LBWrite)
    ensures EndsAtLB(w, k, write, 0, Succeeded) <==> AttemptLB(w, k, write).v == Succeeded
    ensures AttemptLB(w, k, write).v != Again ==> forall i: nat :: i > 0 ==> !EndsAtLB(w, k, write, i, Succeeded)
  {
    hide AttemptLB;
    forall i: nat | i > 0 && EndsAtLB(w, k, write, i, Succeeded) ensures AttemptLB(w, k, write).v == Again {
      assert BeforeLB(w, k, write, 0) == w;
    }
  }

  lemma {:induction false} TriesLBIff(w: World, k: Key, write: LBWrite, n: nat)
    ensures TriesLB(w, k, write, n).v <==> exists i: nat :: i < n && EndsAtLB(w, k, write, i, Succeeded)
    decreases n
  {
    hide AttemptLB, EndsAtLB;
    if n > 0 {
      var a := AttemptLB(w, k, write);
      FirstEndsLB(w, k, write);
      if a.v == Again {
        TriesLBIff(a.w, k, write, n - 1);
        if exists i: nat :: i < n - 1 && EndsAtLB(a.w, k, write, i, Succeeded) {
          var i: nat :| i < n - 1 && EndsAtLB(a.w, k, write, i, Succeeded);
          EndsLaterLB(w, k, write, i, Succeeded);
          assert EndsAtLB(w, k, write, i + 1, Succeeded);
        }
        if exists i: nat :: i < n && EndsAtLB(w, k, write, i, Succeeded) {
          var i: nat :| i < n && EndsAtLB(w, k, write, i, Succeeded);
          EndsLaterLB(w, k, write, i - 1, Succeeded);
          assert EndsAtLB(a.w, k, write, i - 1, Succeeded);
        }
      }
    }
  }

  lemma {:induction false} LBHelpersTry(w: World, copy: LoadBalancer, k: Key, status: LBStatus, n: nat)
    ensures WriteLB(w, copy, n) == TriesLB(w, copy.key, Whole(copy), n)
    ensures WriteStatus(w, k, status, n) == TriesLB(w, k, StatusOnly(status), n)
    decreases n
  {
    hide GetLB, UpdateLB, UpdateLBStatus;
    if n > 0 {
      LBHelpersTry(AttemptLB(w, copy.key, Whole(copy)).w, copy, k, status, n - 1);
      LBHelpersTry(AttemptLB(w, k, StatusOnly(status)).w, copy, k, status, n - 1);
    }
  }

  lemma FiveLBAttempts(w: World, copy: LoadBalancer, k: Key, status: LBStatus)
    ensures WriteLB(w, copy, STEPS).v <==> exists i: nat :: i < 5 && EndsAtLB(w, copy.key, Whole(copy), i, Succeeded)
    ensures WriteStatus(w, k, status, STEPS).v <==>
      exists i: nat :: i < 5 && EndsAtLB(w, k, StatusOnly(status), i, Succeeded)
  {
    hide WriteLB, WriteStatus, TriesLB, EndsAtLB;
    LBHelpersTry(w, copy, k, status, STEPS);
    TriesLBIff(w, copy.key, Whole(copy), STEPS);
    TriesLBIff(w, k, StatusOnly(status), STEPS);
  }

  lemma AfterRetriesLB(w: World, k: Key, write: LBWrite, i: nat)
    requires forall j: nat :: j < i ==> AttemptLB(BeforeLB(w, k, write, j), k, write).v == Again
    ensures EndsAtLB(w, k, write, i, AttemptLB(BeforeLB(w, k, write, i), k, write).v)
  {
    hide AttemptLB, BeforeLB;
  }

  /** No attempt succeeds: the reasons there are. */
  lemma {:induction false} FailureReasonsLB(w: World, k: Key, write: LBWrite, n: nat)
    requires !exists i: nat :: i < n && EndsAtLB(w, k, write, i, Succeeded)
    ensures || (exists i: nat :: i < n && EndsAtLB(w, k, write, i, Refused))
            || (forall i: nat :: i < n ==> AttemptLB(BeforeLB(w, k, write, i), k, write).v == Again)
    decreases n
  {
    hide AttemptLB, EndsAtLB;
    if n > 0 {
      var i := n - 1;
      FailureReasonsLB(w, k, write, i);
      if exists j: nat :: j < i && EndsAtLB(w, k, write, j, Refused) {
        var j: nat :| j < i && EndsAtLB(w, k, write, j, Refused);
        assert j < n;
      } else {
        var last := AttemptLB(BeforeLB(w, k, write, i), k, write).v;
        assert EndsAtLB(w, k, write, i, last) by {
          AfterRetriesLB(w, k, write, i);
        }
        assert last != Succeeded;
        forall j: nat | j < n && last == Again ensures AttemptLB(BeforeLB(w, k, write, j), k, write).v == Again {
          assert j < i || j == i;
        }
      }
    }
  }

  /** An attempt that is left in peace succeeds, unless a whole copy is of another object. */
  lemma PeacefulAttemptLB(w: World, k: Key, write: LBWrite)
    requires WF(w) && InPeace(w)
    requires write.Whole? && k in Tick(w).lbs.objects ==>
      write.copy.key == k && write.copy.uid == Tick(w).lbs.objects[k].uid
    ensures AttemptLB(w, k, write).v == Succeeded
  {
    hide ValidCloud, Marked, OneBound, Replace;
    assert WF(Tick(w)) by { TickOthers(w); hide WF, Tick; }
    var t := Tick(w);
    assert Tick(t).lbs == t.lbs by { NobodyActs(t); }
  }

  lemma PeaceIsEnoughLB(w: World, k: Key, write: LBWrite, i: nat)
    requires i < 5 && WF(BeforeLB(w, k, write, i)) && InPeace(BeforeLB(w, k, write, i))
    requires var t := Tick(BeforeLB(w, k, write, i));
      write.Whole? && k in t.lbs.objects ==> write.copy.key == k && write.copy.uid == t.lbs.objects[k].uid
    requires forall j: nat :: j < i ==> AttemptLB(BeforeLB(w, k, write, j), k, write).v != Refused
    ensures exists m: nat :: m < 5 && EndsAtLB(w, k, write, m, Succeeded)
  {
    hide WF, AttemptLB, InPeace, BeforeLB, Tick;
    PeacefulAttemptLB(BeforeLB(w, k, write, i), k, write);
    if !exists m: nat :: m < 5 && EndsAtLB(w, k, write, m, Succeeded) {
      FailureReasonsLB(w, k, write, i + 1);
    }
  }

  // ----- Four conflicts -----

  /** Somebody else writes the service just before the call. */
  function Meddle(o: Service): Turn {
    CALM.(others := [PutService(o)])
  }

  /** The same service with something of no concern to the operator changed. */
  function Varied(x: Service, s: string): Service {
    x.(spec := x.spec.(rest := x.spec.rest + s))
  }

  /** Four times the others write the service between the read and the update. */
  function Contested(x: Service): seq<Turn> {
    [CALM, Meddle(Varied(x, "a")), CALM, Meddle(Varied(x, "b")), CALM, Meddle(Varied(x, "a")), CALM,
      Meddle(Varied(x, "b"))]
  }

  /** The others' write takes effect. */
  lemma Meddled(w: World, k: Key, x: Service, s: string, t: string)
    requires WF(w) && |w.script| >= 1 && w.script[0] == Meddle(Varied(x, s))
    requires x.key == k && k in w.services.objects && !x.terminating && s != t
    requires w.services.objects[k] == Varied(x, t).(version := w.services.objects[k].version)
    ensures var m := Tick(w);
      && WF(m) && m.script == w.script[1..] && k in m.services.objects
      && m.services.objects[k] == Varied(x, s).(version := m.services.objects[k].version)
      && m.services.objects[k].version > w.services.clock
  {
    hide WF, Others;
    TickOthers(w);
    var stored := w.services.objects[k];
    var edited := Merge(stored, Varied(x, s)).(key := k, status := x.status);
    assert edited == Varied(x, s).(version := stored.version);
    assert x.spec.rest + s != x.spec.rest + t by { Longer(x.spec.rest, s, t); }
    assert edited != stored;
    var mid := w.(script := w.script[1..], time := w.time + 1);
    assert PerformAll(mid, [PutService(Varied(x, s))]) == Perform(mid, PutService(Varied(x, s))) by {
      assert PerformAll(Perform(mid, PutService(Varied(x, s))), []) == Perform(mid, PutService(Varied(x, s)));
    }
    assert Respects(w.rules.services, stored, edited);
  }

  /** An attempt that somebody else gets in the way of. */
  lemma MeddledAttempt(w: World, k: Key, edits: Annotations, x: Service, s: string, t: string)
    requires WF(w) && |w.script| >= 2 && w.script[0] == CALM && w.script[1] == Meddle(Varied(x, s))
    requires x.key == k && k in w.services.objects && !x.terminating && s != t
    requires w.services.objects[k] == Varied(x, t).(version := w.services.objects[k].version)
    ensures var a := Attempt(w, k, SetsAnnotations(edits));
      && a.v == Again && WF(a.w) && a.w.script == w.script[2..] && k in a.w.services.objects
      && a.w.services.objects[k] == Varied(x, s).(version := a.w.services.objects[k].version)
  {
    hide WF, Tick, Others, Varied, Replace;
    assert w.services.objects[k].version <= w.services.clock by { StoredVersion(w, k); }
    NobodyActs(w);
    var got := Tick(w);
    assert WF(got) by { TickOthers(w); }
    assert got.script == w.script[1..];
    Meddled(got, k, x, s, t);
    assert got.script[1..] == w.script[2..];
    assert Ok(w) && Ok(got) && Next(w).view == map[];
    var stored := w.services.objects[k];
    StoredUnder(w, k);
    assert GetService(w, k) == Out(got, Found(stored));
    var m := Tick(got);
    assert UpdateService(got, Annotated(stored, edits)) == Out(m, Conflict) by {
      assert m.services.objects[k].version != stored.version && stored.key == k;
      assert m.(services := m.services) == m;
    }
  }

  lemma StoredVersion(w: World, k: Key)
    requires WF(w) && k in w.services.objects
    ensures w.services.objects[k].version <= w.services.clock
  {
    hide ValidCloud, Marked, OneBound;
  }

  lemma Longer(a: string, s: string, t: string)
    ensures a + s == a + t <==> s == t
  {
    if a + s == a + t {
      assert (a + s)[|a|..] == s && (a + t)[|a|..] == t;
    }
  }

  lemma VariedNot(x: Service)
    ensures Varied(x, "") == x
  {
    assert x.spec.rest + "" == x.spec.rest;
  }

  /** Five attempts are enough for four conflicts: the edit is made, on top of what the others wrote.
      Four would not have been. */
  lemma FourConflicts(w: World, k: Key, edits: Annotations)
    requires WF(w) && k in w.services.objects && !w.services.objects[k].terminating
    requires w.script == Contested(w.services.objects[k])
    ensures EditAnnotations(w, k, edits, STEPS).v && !EditAnnotations(w, k, edits, 4).v
    ensures var x, after := w.services.objects[k], EditAnnotations(w, k, edits, STEPS).w.services.objects;
      k in after && after[k] == Annotated(Varied(x, "b"), edits).(version := after[k].version)
  {
    hide Attempt, EditAnnotations, AddExternalIP, WriteService, Varied, WF, Meddle, Replace;
    var x, edit := w.services.objects[k], SetsAnnotations(edits);
    assert x.key == k by { StoredUnder(w, k); }
    VariedNot(x);
    MeddledAttempt(w, k, edits, x, "a", "");
    var w1 := Attempt(w, k, edit).w;
    MeddledAttempt(w1, k, edits, x, "b", "a");
    var w2 := Attempt(w1, k, edit).w;
    MeddledAttempt(w2, k, edits, x, "a", "b");
    var w3 := Attempt(w2, k, edit).w;
    MeddledAttempt(w3, k, edits, x, "b", "a");
    var w4 := Attempt(w3, k, edit).w;
    assert w4.script == [];
    HelpersTry(w, k, edits, "", x, STEPS);
    HelpersTry(w, k, edits, "", x, 4);
    HelpersTry(w4, k, edits, "", x, 1);
    assert Still(w4);
    CalmUpdates(w4, k, edits, "", 1);
    EditStill(w4, k, edits, 1);
    assert Tries(w, k, edit, 4).v == Tries(w4, k, edit, 0).v;
    assert Tries(w, k, edit, 5) == Tries(w4, k, edit, 1);
    assert w4.services.objects[k].key == k by { StoredUnder(w4, k); }
    assert Valid(w4.services) by { StillValid(w4); }
    var e := Annotated(w4.services.objects[k], edits);
    ReplaceOutside(w4.services, e, {k});
    assert !e.terminating by { VariedLives(x); }
  }

  lemma VariedLives(x: Service)
    ensures Varied(x, "b").terminating == x.terminating
  {
  }

  lemma StillValid(w: World)
    requires WF(w)
    ensures Valid(w.services)
  {
    hide Valid, ValidCloud, Marked, OneBound;
  }

  lemma StoredUnder(w: World, k: Key)
    requires WF(w) && k in w.services.objects
    ensures w.services.objects[k].key == k
  {
    hide ValidCloud, Marked, OneBound;
  }
}
