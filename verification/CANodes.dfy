/**
 How a manager follows a CA rotation from replicated state (internal/cluster/ca_apply.go): it writes in
 an order that a crash anywhere inside leaves as one of CAWorld's steps.
 */
module CANodes {
  import opened Options
  import opened CARecord
  import opened CALeader
  import opened CAWorld
  import opened CATrust

  /** What a restart reads; floor is ca-rotation.json's seq, 0 with no file. */
  datatype Files = Files(caCrt: seq<Pin>, caKey: Option<Pin>, nodeCrt: Pin, floor: nat)

  /** The files, and what the process runs with. */
  datatype Running = Running(files: Files, trust: seq<Pin>, served: Pin, floor: nat)

  datatype Action =
    | WriteCACrt(trust: seq<Pin>) | WriteCAKey(pin: Pin) | ReloadPool
    | WriteNodeCrt(pin: Pin) | ServeCert | RaiseFloor(seqno: nat)

  function Act(s: Running, a: Action): Running {
    match a
    case WriteCACrt(trust) => s.(files := s.files.(caCrt := trust))
    case WriteCAKey(pin) => s.(files := s.files.(caKey := Some(pin)))
    case ReloadPool => s.(trust := s.files.caCrt)
    case WriteNodeCrt(pin) => s.(files := s.files.(nodeCrt := pin))
    case ServeCert => s.(served := s.files.nodeCrt)
    case RaiseFloor(seqno) => s.(files := s.files.(floor := seqno), floor := seqno)
  }

  function Acts(s: Running, actions: seq<Action>): Running
    decreases |actions|
  {
    if actions == [] then s else Acts(Act(s, actions[0]), actions[1..])
  }

  lemma {:induction false} ActsConcat(s: Running, a: seq<Action>, b: seq<Action>)
    ensures Acts(s, a + b) == Acts(Acts(s, a), b)
    decreases |a|
  {
    if a == [] {
      assert a + b == b;
    } else {
      assert (a + b)[1..] == a[1..] + b;
      ActsConcat(Act(s, a[0]), a[1..], b);
    }
  }

  function TrustActions(s: Running, mat: Material): seq<Action> {
    (if s.files.caCrt != mat.trust then [WriteCACrt(mat.trust)] else [])
    + (if s.files.caKey.Some? && s.files.caKey != Some(mat.disk) then [WriteCAKey(mat.disk)] else [])
    + (if s.trust != mat.trust then [ReloadPool] else [])
  }

  function CertActions(s: Running, mat: Material): seq<Action> {
    if s.served != mat.sign then [WriteNodeCrt(mat.sign), ServeCert] else []
  }

  function FloorActions(s: Running, mat: Material): seq<Action> {
    if mat.seqno > s.floor then [RaiseFloor(mat.seqno)] else []
  }

  /** What applying mat does, in order: trust, then the certificate, then the floor. */
  function ApplyActions(s: Running, mat: Material): seq<Action> {
    TrustActions(s, mat) + CertActions(s, mat) + FloorActions(s, mat)
  }

  /** The material of replicated state, when this manager may act on it. */
  function Due(s: Running, state: Slots): Option<Material> {
    if state.rec == None || state.rec.value.seqno < s.floor then None else MaterialOf(state)
  }

  /** Running with what the files say. */
  predicate AtRest(s: Running) {
    s.trust == s.files.caCrt && s.served == s.files.nodeCrt && s.floor == s.files.floor
  }

  /** What the process comes up with after a stop. */
  function Restarted(s: Running): Running {
    Running(s.files, s.files.caCrt, s.files.nodeCrt, s.files.floor)
  }

  /** Once all is done it trusts, presents and records what the material says, on disk and in memory. */
  lemma ApplyEndsThere(s: Running, mat: Material)
    requires AtRest(s)
    ensures var t := Acts(s, ApplyActions(s, mat));
            && AtRest(t) && t.trust == mat.trust && t.served == mat.sign
            && t.floor == (if mat.seqno > s.floor then mat.seqno else s.floor)
            && (s.files.caKey.Some? ==> t.files.caKey == Some(mat.disk))
            && (s.files.caKey == None ==> t.files.caKey == None)
            && ApplyActions(t, mat) == []
  {
    ApplyParts(s, mat);
  }

  // The state after the trust actions, the certificate's and the floor's.
  lemma ApplyParts(s: Running, mat: Material)
    ensures var t := Acts(s, TrustActions(s, mat)); var u := Acts(t, CertActions(s, mat));
            && t == s.(files := s.files.(caCrt := mat.trust, caKey := if s.files.caKey.Some? then Some(mat.disk) else None),
                       trust := mat.trust)
            && u == (if s.served == mat.sign then t else t.(files := t.files.(nodeCrt := mat.sign), served := mat.sign))
            && Acts(s, ApplyActions(s, mat)) == Acts(u, FloorActions(s, mat))
  {
    var a, b, c := TrustActions(s, mat), CertActions(s, mat), FloorActions(s, mat);
    ActsConcat(s, a + b, c);
    ActsConcat(s, a, b);
    ActsOfTrust(s, mat);
    if b != [] {
      var t := Acts(s, a);
      assert b[1..] == [ServeCert] && [ServeCert][1..] == [];
      assert Acts(t, b) == Acts(Act(t, WriteNodeCrt(mat.sign)), [ServeCert]);
      assert Acts(Act(t, WriteNodeCrt(mat.sign)), [ServeCert]) == Act(Act(t, WriteNodeCrt(mat.sign)), ServeCert);
    }
  }

  lemma ActsOfTrust(s: Running, mat: Material)
    ensures Acts(s, TrustActions(s, mat))
            == s.(files := s.files.(caCrt := mat.trust, caKey := if s.files.caKey.Some? then Some(mat.disk) else None),
                  trust := mat.trust)
  {
    var crt := if s.files.caCrt != mat.trust then [WriteCACrt(mat.trust)] else [];
    var key := if s.files.caKey.Some? && s.files.caKey != Some(mat.disk) then [WriteCAKey(mat.disk)] else [];
    var pool := if s.trust != mat.trust then [ReloadPool] else [];
    ActsConcat(s, crt + key, pool);
    ActsConcat(s, crt, key);
  }

  /**
   A whole apply leaves a restart that presents what the record says, unless the process presented it
   already and node.crt does not: a certificate written before and not loaded is not written again.
   */
  lemma RestartPresentsIff(s: Running, mat: Material)
    ensures var t := Acts(s, ApplyActions(s, mat));
            && t.served == mat.sign && t.files.caCrt == t.trust == mat.trust
            && (Restarted(t).served == mat.sign <==> CertIsKept(s, mat))
  {
    ApplyParts(s, mat);
  }

  /** A certificate presented from mat's signer is on disk too. */
  predicate CertIsKept(s: Running, mat: Material) {
    s.served == mat.sign ==> s.files.nodeCrt == mat.sign
  }

  /** Where an action comes in an apply. */
  function Rank(a: Action): nat {
    match a
    case WriteCACrt(_) => 1
    case WriteCAKey(_) => 2
    case ReloadPool => 3
    case WriteNodeCrt(_) => 4
    case ServeCert => 5
    case RaiseFloor(_) => 6
  }

  /** Each at most once, in that order: trust is on disk before it is trusted, and the floor is last. */
  lemma ApplyIsInOrder(s: Running, mat: Material, i: nat, j: nat)
    requires i < j < |ApplyActions(s, mat)|
    ensures Rank(ApplyActions(s, mat)[i]) < Rank(ApplyActions(s, mat)[j])
  {
  }

  // --- What a crash inside leaves ---

  /** How the cluster's model sees a manager: what it trusts, presents, and has recorded. */
  function View(s: Running, settled: bool): Node {
    Node(true, s.floor, s.trust, s.served, settled, None)
  }

  /** Some of the way from n to having applied the material of record seqno. */
  predicate OnTheWay(n: Node, mat: Material, n': Node) {
    || n' == n
    || n' == n.(trust := mat.trust, settled := false)
    || n' == n.(trust := mat.trust, cert := mat.sign, settled := false)
    || (mat.seqno >= n.floor && n' == n.(trust := mat.trust, cert := mat.sign, floor := mat.seqno, settled := true))
  }

  ghost predicate SomeView(n: Node, mat: Material, s: Running) {
    exists settled :: OnTheWay(n, mat, View(s, settled))
  }

  lemma ViewIs(n: Node, mat: Material, s: Running, settled: bool)
    requires OnTheWay(n, mat, View(s, settled))
    ensures SomeView(n, mat, s)
  {
  }

  lemma FirstPart(a: seq<Action>, b: seq<Action>, c: seq<Action>, k: nat)
    requires k <= |a| + |b| + |c| && |c| <= 1
    ensures var part := (a + b + c)[..k];
            if k <= |a| then part == a[..k]
            else if k <= |a| + |b| then part == a + b[..k - |a|]
            else part == a + b + c
  {
  }

  /** However far an apply came, the process is on the way from where it was, and a restart from where one was. */
  lemma EveryPartIsOnTheWay(s: Running, mat: Material, settled: bool, k: nat)
    requires s.floor == s.files.floor && CertIsKept(s, mat) && k <= |ApplyActions(s, mat)| && mat.seqno >= s.floor
    ensures var t := Acts(s, ApplyActions(s, mat)[..k]);
            SomeView(View(s, settled), mat, t) && SomeView(View(Restarted(s), settled), mat, Restarted(t))
  {
    var a, b, c := TrustActions(s, mat), CertActions(s, mat), FloorActions(s, mat);
    FirstPart(a, b, c, k);
    if k <= |a| {
      TrustPartIsOnTheWay(s, mat, settled, k);
    } else if k <= |a| + |b| {
      ActsConcat(s, a, b[..k - |a|]);
      CertPartIsOnTheWay(s, mat, settled, k - |a|);
    } else {
      FloorPartIsOnTheWay(s, mat, settled);
    }
  }

  lemma TrustPartIsOnTheWay(s: Running, mat: Material, settled: bool, k: nat)
    requires k <= |TrustActions(s, mat)|
    ensures var t := Acts(s, TrustActions(s, mat)[..k]);
            SomeView(View(s, settled), mat, t) && SomeView(View(Restarted(s), settled), mat, Restarted(t))
  {
    var t := Acts(s, TrustActions(s, mat)[..k]);
    TrustPart(s, mat, k);
    ViewIs(View(s, settled), mat, t, if t.trust == s.trust then settled else false);
    ViewIs(View(Restarted(s), settled), mat, Restarted(t), if t.files.caCrt == s.files.caCrt then settled else false);
  }

  lemma TrustPart(s: Running, mat: Material, k: nat)
    requires k <= |TrustActions(s, mat)|
    ensures var t := Acts(s, TrustActions(s, mat)[..k]);
            && t.served == s.served && t.floor == s.floor && t.files.nodeCrt == s.files.nodeCrt && t.files.floor == s.files.floor
            && (t.trust == s.trust || t.trust == mat.trust)
            && (t.files.caCrt == s.files.caCrt || t.files.caCrt == mat.trust)
  {
    var acts := TrustActions(s, mat);
    if k >= 1 {
      assert acts[..k] == [acts[0]] + acts[1..k];
      ActsConcat(s, [acts[0]], acts[1..k]);
    }
    if k >= 2 {
      assert acts[1..k] == [acts[1]] + acts[2..k];
      ActsConcat(Act(s, acts[0]), [acts[1]], acts[2..k]);
    }
    if k >= 3 {
      assert acts[2..k] == [acts[2]];
    }
  }

  lemma CertPartIsOnTheWay(s: Running, mat: Material, settled: bool, k: nat)
    requires k <= |CertActions(s, mat)|
    ensures var t := Acts(Acts(s, TrustActions(s, mat)), CertActions(s, mat)[..k]);
            SomeView(View(s, settled), mat, t) && SomeView(View(Restarted(s), settled), mat, Restarted(t))
  {
    ActsOfTrust(s, mat);
    var u := Acts(s, TrustActions(s, mat));
    var t := Acts(u, CertActions(s, mat)[..k]);
    if k == 1 {
      var first := [WriteNodeCrt(mat.sign)];
      assert CertActions(s, mat)[..k] == first;
      assert Acts(u, first) == Acts(Act(u, first[0]), first[1..]) == Act(u, first[0]);
    } else if k == 2 {
      assert CertActions(s, mat)[..2] == CertActions(s, mat);
      ApplyParts(s, mat);
    }
    assert View(t, false) == View(s, settled).(trust := mat.trust, cert := t.served, settled := false);
    ViewIs(View(s, settled), mat, t, false);
    ViewIs(View(Restarted(s), settled), mat, Restarted(t), false);
  }

  lemma FloorPartIsOnTheWay(s: Running, mat: Material, settled: bool)
    requires s.floor == s.files.floor && CertIsKept(s, mat) && mat.seqno >= s.floor
    ensures var t := Acts(s, ApplyActions(s, mat));
            SomeView(View(s, settled), mat, t) && SomeView(View(Restarted(s), settled), mat, Restarted(t))
  {
    ApplyParts(s, mat);
    var u := Acts(Acts(s, TrustActions(s, mat)), CertActions(s, mat));
    var t := Acts(s, ApplyActions(s, mat));
    assert t == if mat.seqno > s.floor then Act(u, RaiseFloor(mat.seqno)) else u;
    ViewIs(View(s, settled), mat, t, true);
    ViewIs(View(Restarted(s), settled), mat, Restarted(t), true);
  }

  /** Being on the way to a usable record's material is having taken steps of CAWorld. */
  lemma OnTheWayIsSteps(w: World, id: string, i: nat, n': Node) returns (steps: seq<Step>)
    requires w.hist != [] && id in w.nodes && w.nodes[id].manager && Usable(w, w.nodes[id], i)
    requires MaterialOf(w.hist[i]).value.seqno == w.hist[i].rec.value.seqno
    requires OnTheWay(w.nodes[id], MaterialOf(w.hist[i]).value, n')
    ensures Runs(w, steps) && After(w, steps) == With(w, id, n')
  {
    var n, mat := w.nodes[id], MaterialOf(w.hist[i]).value;
    var n1 := n.(trust := mat.trust, settled := false);
    var n2 := n1.(cert := mat.sign);
    var w1, w2 := With(w, id, n1), With(w, id, n2);
    var a, m, r := Adopt(id, i), Move(id, i), Record(id, i);
    StepIs(w, a, w1);
    if n' == n {
      assert w.nodes[id := n] == w.nodes;
      steps := [];
      return;
    }
    steps := [a];
    if n' == n1 {
      return;
    }
    assert w1.nodes[id := n2] == w.nodes[id := n2];
    StepIs(w1, m, w2);
    StepThen(w, a, w1, [m], w2);
    assert [a] + [m] == [a, m];
    steps := [a, m];
    if n' == n2 {
      return;
    }
    assert w2.nodes[id := n'] == w.nodes[id := n'];
    StepIs(w2, r, With(w, id, n'));
    StepThen(w1, m, w2, [r], With(w, id, n'));
    assert [m] + [r] == [m, r] && [a] + [m, r] == [a, m, r];
    StepThen(w, a, w1, [m, r], With(w, id, n'));
    steps := [a, m, r];
  }

  ghost predicate Reachable(w: World, id: string, s: Running) {
    exists steps, settled :: Runs(w, steps) && After(w, steps) == With(w, id, View(s, settled))
  }

  lemma FirstStep(w: World, steps: seq<Step>, w': World)
    requires steps != [] && Runs(w, steps) && After(w, steps) == w'
    ensures Enabled(w, steps[0]) && Runs(Do(w, steps[0]), steps[1..]) && After(Do(w, steps[0]), steps[1..]) == w'
  {
  }

  lemma HeadFirst<T>(a: seq<T>, b: seq<T>)
    requires a != []
    ensures [a[0]] + (a[1..] + b) == a + b
  {
  }

  /** A run to w1, and from there to w2. */
  lemma {:induction false} RunsOn(w: World, first: seq<Step>, w1: World, rest: seq<Step>, w2: World)
    requires Runs(w, first) && After(w, first) == w1 && Runs(w1, rest) && After(w1, rest) == w2
    ensures Runs(w, first + rest) && After(w, first + rest) == w2
    decreases |first|
  {
    if first == [] {
      assert first + rest == rest;
    } else {
      FirstStep(w, first, w1);
      var next, more := Do(w, first[0]), first[1..] + rest;
      RunsOn(next, first[1..], w1, rest, w2);
      HeadFirst(first, rest);
      StepThen(w, first[0], next, more, w2);
    }
  }

  lemma WithTwice(w: World, id: string, n: Node, n': Node)
    ensures With(With(w, id, n), id, n') == With(w, id, n')
  {
    assert w.nodes[id := n][id := n'] == w.nodes[id := n'];
  }

  lemma SomeViewIsReachable(w: World, id: string, i: nat, s: Running, mat: Material, t: Running)
    requires LogInv(w) && id in w.nodes && i < |w.hist| && Due(s, w.hist[i]) == Some(mat) && Reachable(w, id, s)
    requires forall settled :: SomeView(View(s, settled), mat, t)
    ensures Reachable(w, id, t)
  {
    var first, settled :| Runs(w, first) && After(w, first) == With(w, id, View(s, settled));
    assert SomeView(View(s, settled), mat, t);
    var later :| OnTheWay(View(s, settled), mat, View(t, later));
    MaterialIsRecord(w.hist[i]);
    var w1 := With(w, id, View(s, settled));
    var rest := OnTheWayIsSteps(w1, id, i, View(t, later));
    WithTwice(w, id, View(s, settled), View(t, later));
    RunsOn(w, first, w1, rest, With(w, id, View(t, later)));
  }

  lemma AtRestIsReachable(w: World, id: string, s: Running, settled: bool)
    requires id in w.nodes && w.nodes[id] == View(s, settled) && AtRest(s)
    ensures Reachable(w, id, s) && Reachable(w, id, Restarted(s))
  {
    assert Runs(w, []) && w.nodes[id := w.nodes[id]] == w.nodes;
    assert After(w, []) == With(w, id, View(s, settled));
    assert Restarted(s) == s;
  }

  /**
   Wherever an apply of any state on the log stops, the process that goes on and the one a restart
   makes are managers CAWorld's own steps lead to, if the two it began from are; so after any number of
   applies, each cut anywhere, in which no certificate presented was other than the one on disk.
   */
  lemma ApplyIsSteps(w: World, id: string, i: nat, s: Running, k: nat)
    requires LogInv(w) && id in w.nodes && i < |w.hist| && s.floor == s.files.floor
    requires Reachable(w, id, s) && Reachable(w, id, Restarted(s))
    requires Due(s, w.hist[i]).Some? && CertIsKept(s, Due(s, w.hist[i]).value)
    requires k <= |ApplyActions(s, Due(s, w.hist[i]).value)|
    ensures var t := Acts(s, ApplyActions(s, Due(s, w.hist[i]).value)[..k]);
            Reachable(w, id, t) && Reachable(w, id, Restarted(t)) && t.floor == t.files.floor
  {
    var mat := Due(s, w.hist[i]).value;
    MaterialIsRecord(w.hist[i]);
    var t := Acts(s, ApplyActions(s, mat)[..k]);
    forall settled ensures SomeView(View(s, settled), mat, t) && SomeView(View(Restarted(s), settled), mat, Restarted(t)) {
      EveryPartIsOnTheWay(s, mat, settled, k);
    }
    FloorIsKept(s, ApplyActions(s, mat)[..k]);
    SomeViewIsReachable(w, id, i, s, mat, t);
    SomeViewIsReachable(w, id, i, Restarted(s), mat, Restarted(t));
  }

  lemma {:induction false} FloorIsKept(s: Running, acts: seq<Action>)
    requires s.floor == s.files.floor
    ensures Acts(s, acts).floor == Acts(s, acts).files.floor
    decreases |acts|
  {
    if acts != [] {
      FloorIsKept(Act(s, acts[0]), acts[1..]);
    }
  }

  /** A process, what it has done so far, and how much more of it will succeed. */
  datatype Progress = Progress(now: Running, trail: seq<Action>, budget: nat)

  /** Doing acts from p leads to q: all of it, or the first part that succeeds. */
  predicate Carries(p: Progress, acts: seq<Action>, q: Progress, ok: bool) {
    var k := if p.budget < |acts| then p.budget else |acts|;
    && ok == (p.budget >= |acts|) && q == Progress(Acts(p.now, acts[..k]), p.trail + acts[..k], p.budget - k)
  }

  lemma CarriesOne(p: Progress, a: Action)
    ensures p.budget > 0 ==> Carries(p, [a], Progress(Act(p.now, a), p.trail + [a], p.budget - 1), true)
    ensures p.budget == 0 ==> Carries(p, [a], p, false)
    ensures Carries(p, [], p, true)
  {
    assert [a][..1] == [a] && [a][1..] == [] && [a][..0] == [];
    assert p.trail + [] == p.trail;
  }

  lemma CarriesPart(p: Progress, a: seq<Action>, b: seq<Action>, q: Progress)
    requires Carries(p, a, q, false)
    ensures Carries(p, a + b, q, false)
  {
    assert (a + b)[..p.budget] == a[..p.budget];
  }

  lemma CarriesMore(p: Progress, a: seq<Action>, m: Progress, b: seq<Action>, q: Progress, ok: bool)
    requires Carries(p, a, m, true) && Carries(m, b, q, ok)
    ensures Carries(p, a + b, q, ok)
  {
    var k := if m.budget < |b| then m.budget else |b|;
    assert a[..|a|] == a && (a + b)[..|a| + k] == a + b[..k];
    ActsConcat(p.now, a, b[..k]);
    assert p.trail + a + b[..k] == p.trail + (a + b[..k]);
  }

  /** A manager (ca_apply.go). budget is how many of its writes and reloads succeed before one fails. */
  class ManagerCA {
    var files: Files
    var trust: seq<Pin>
    var served: Pin
    var caFloorSeq: nat
    var caFloorLoaded: bool
    var budget: nat
    ghost var trail: seq<Action>

    ghost predicate Valid()
      reads this
    {
      caFloorSeq == if caFloorLoaded then files.floor else 0
    }

    function Now(): Running
      reads this
    {
      Running(files, trust, served, files.floor)
    }

    ghost function So(): Progress
      reads this
    {
      Progress(Now(), trail, budget)
    }

    /** A start: trust and certificate from the files, the floor read when first needed. */
    constructor (files: Files, budget: nat)
      ensures Valid() && AtRest(Now()) && this.files == files && this.budget == budget && trail == []
    {
      this.files, trust, served := files, files.caCrt, files.nodeCrt;
      caFloorSeq, caFloorLoaded, this.budget := 0, false, budget;
      trail := [];
    }

    method CARotationFloor() returns (floor: nat)
      requires Valid()
      modifies `caFloorSeq, `caFloorLoaded
      ensures Valid() && floor == files.floor == caFloorSeq && caFloorLoaded
    {
      if !caFloorLoaded {
        caFloorLoaded := true;
        caFloorSeq := files.floor;
      }
      return caFloorSeq;
    }

    /** One write or reload, which may fail. */
    method Try(a: Action) returns (ok: bool)
      requires Valid() && caFloorLoaded
      modifies `files, `trust, `served, `caFloorSeq, `budget, `trail
      ensures Valid() && Carries(old(So()), [a], So(), ok)
      ensures ok ==> Now() == Act(old(Now()), a)
    {
      CarriesOne(So(), a);
      if budget == 0 {
        return false;
      }
      budget := budget - 1;
      match a {
        case WriteCACrt(pins) => files := files.(caCrt := pins);
        case WriteCAKey(pin) => files := files.(caKey := Some(pin));
        case ReloadPool => trust := files.caCrt;
        case WriteNodeCrt(pin) => files := files.(nodeCrt := pin);
        case ServeCert => served := files.nodeCrt;
        case RaiseFloor(seqno) => files := files.(floor := seqno); caFloorSeq := seqno;
      }
      trail := trail + [a];
      return true;
    }

    /** ca.crt, the key where there is one, and the CAs trusted, in that order. */
    method ApplyTrust(mat: Material) returns (ok: bool)
      requires Valid() && caFloorLoaded
      modifies `files, `trust, `served, `caFloorSeq, `budget, `trail
      ensures Valid() && Carries(old(So()), TrustActions(old(Now()), mat), So(), ok)
      ensures ok ==> served == old(served)
    {
      ghost var p, acts := So(), TrustActions(Now(), mat);
      ghost var crt := if files.caCrt != mat.trust then [WriteCACrt(mat.trust)] else [];
      ghost var key := if files.caKey.Some? && files.caKey != Some(mat.disk) then [WriteCAKey(mat.disk)] else [];
      ghost var pool := if trust != mat.trust then [ReloadPool] else [];
      assert acts == crt + (key + pool) && acts == crt + key + pool;
      CarriesOne(p, ReloadPool);
      if files.caCrt != mat.trust {
        ok := Try(WriteCACrt(mat.trust));
        if !ok {
          CarriesPart(p, crt, key + pool, So());
          return;
        }
      }
      ghost var m := So();
      CarriesOne(m, ReloadPool);
      if files.caKey.Some? && files.caKey != Some(mat.disk) {
        ok := Try(WriteCAKey(mat.disk));
        CarriesMore(p, crt, m, key, So(), ok);
        if !ok {
          CarriesPart(p, crt + key, pool, So());
          return;
        }
      } else {
        CarriesMore(p, crt, m, key, So(), true);
      }
      m := So();
      CarriesOne(m, ReloadPool);
      ok := true;
      if trust != mat.trust {
        ok := Try(ReloadPool);
      }
      CarriesMore(p, crt + key, m, pool, So(), ok);
    }

    /** The certificate, from the CA that signs, presented at once. */
    method ApplyCert(mat: Material) returns (ok: bool)
      requires Valid() && caFloorLoaded
      modifies `files, `trust, `served, `caFloorSeq, `budget, `trail
      ensures Valid() && Carries(old(So()), CertActions(old(Now()), mat), So(), ok)
    {
      ghost var p := So();
      CarriesOne(p, ServeCert);
      if served == mat.sign {
        return true;
      }
      assert CertActions(Now(), mat) == [WriteNodeCrt(mat.sign)] + [ServeCert];
      ok := Try(WriteNodeCrt(mat.sign));
      if !ok {
        CarriesPart(p, [WriteNodeCrt(mat.sign)], [ServeCert], So());
        return;
      }
      ghost var m := So();
      ok := Try(ServeCert);
      CarriesMore(p, [WriteNodeCrt(mat.sign)], m, [ServeCert], So(), ok);
    }

    /** Records seqno, when it is higher; the floor moves in memory once the file holds it. */
    method RaiseCARotationFloor(seqno: nat) returns (ok: bool)
      requires Valid() && caFloorLoaded
      modifies `files, `trust, `served, `caFloorSeq, `budget, `trail
      ensures Valid()
      ensures Carries(old(So()), if seqno > old(files.floor) then [RaiseFloor(seqno)] else [], So(), ok)
    {
      CarriesOne(So(), ServeCert);
      if seqno <= caFloorSeq {
        return true;
      }
      ok := Try(RaiseFloor(seqno));
    }

    /**
     Applies replicated state when it is not behind the floor and names all its CAs: ApplyActions in
     their order, as far as they succeed, and nothing at all otherwise.
     */
    method ApplyClusterCA(state: Slots) returns (ok: bool)
      requires Valid()
      modifies this
      ensures Valid()
      ensures Due(old(Now()), state) == None ==> So() == old(So()) && !ok
      ensures Due(old(Now()), state).Some? ==>
                Carries(old(So()), ApplyActions(old(Now()), Due(old(Now()), state).value), So(), ok)
    {
      ghost var p := So();
      var floor := CARotationFloor();
      if state.rec == None || state.rec.value.seqno < floor {
        return false;
      }
      var due := MaterialOf(state);
      if due == None {
        return false;
      }
      var mat := due.value;
      ghost var a, b, c := TrustActions(p.now, mat), CertActions(p.now, mat), FloorActions(p.now, mat);
      assert a + b + c == a + (b + c);
      ApplyParts(p.now, mat);
      ok := ApplyTrust(mat);
      if !ok {
        CarriesPart(p, a, b + c, So());
        return;
      }
      ghost var m := So();
      assert a[..|a|] == a;
      ok := ApplyCert(mat);
      CarriesMore(p, a, m, b, So(), ok);
      if !ok {
        CarriesPart(p, a + b, c, So());
        return;
      }
      m := So();
      ActsConcat(p.now, a, b);
      assert (a + b)[..|a + b|] == a + b;
      assert mat.seqno == state.rec.value.seqno && files.floor == p.now.floor;
      ok := RaiseCARotationFloor(state.rec.value.seqno);
      CarriesMore(p, a + b, m, c, So(), ok);
    }
  }
}
