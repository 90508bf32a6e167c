/**
 A CA rotation whose leaders each go by a clock of their own: the leader that records the rollback may
 be another than the one that heard an agent. How far apart the clocks may be, exactly, for the
 heard-since rule to hold.
 */
module CAClocks {
  import opened Options
  import opened CARecord
  import opened CALeader
  import W = CAWorld
  import CATrust
  import CATheorems
  import opened CADrop

  /**
   The cluster in time. offset is each leader's clock against the fastest, no more than skew behind; gap
   the shortest time from the last thing one leader heard or recorded to the next leader's lead.
   */
  datatype World = World(w: W.World, time: int, leader: string, offset: map<string, int>, last: int, skew: nat, gap: nat)
  {
    /** What the leader's clock says. */
    function Reading(): int { time + if leader in offset then offset[leader] else 0 }
  }

  datatype Step = Pass(time: int) | Elect(leader: string) | Act(step: W.Step)

  /** The steps at which a leader reads its clock. */
  predicate ReadsClock(s: W.Step) {
    s.Lead? || s.Ping? || s.LatePing?
  }

  /** The cluster as a step finds it: its time is the leader's reading, when the leader reads it. */
  function Set(t: World, s: W.Step): W.World {
    if ReadsClock(s) then t.w.(clock := t.Reading()) else t.w
  }

  ghost predicate Enabled(t: World, s: Step) {
    match s
    case Pass(time) => time >= t.time
    case Elect(leader) => leader in t.offset && t.time >= t.last + t.gap
    case Act(step) => !step.Tick? && W.Enabled(Set(t, step), step)
  }

  ghost function Do(t: World, s: Step): World
    requires Enabled(t, s)
  {
    match s
    case Pass(time) => t.(time := time)
    case Elect(leader) => t.(leader := leader)
    case Act(step) => t.(w := W.Do(Set(t, step), step), last := if ReadsClock(step) then t.time else t.last)
  }

  predicate Skewed(t: World) {
    forall l :: l in t.offset ==> 0 - t.skew <= t.offset[l] <= 0
  }

  predicate Init(t: World) {
    W.Init(t.w) && Skewed(t) && t.leader in t.offset && t.last == t.time && t.w.clock == t.Reading()
  }

  ghost predicate Runs(t: World, steps: seq<Step>)
    decreases |steps|
  {
    steps == [] || (Enabled(t, steps[0]) && Runs(Do(t, steps[0]), steps[1..]))
  }

  ghost function After(t: World, steps: seq<Step>): World
    requires Runs(t, steps)
    decreases |steps|
  {
    if steps == [] then t else After(Do(t, steps[0]), steps[1..])
  }

  /** No leader's reading is before one already taken. */
  predicate Ahead(t: World) {
    && Skewed(t) && t.leader in t.offset && t.last <= t.time
    && t.w.clock <= t.last && t.w.clock <= t.Reading()
  }

  lemma StepStaysAhead(t: World, s: Step)
    requires Ahead(t) && t.skew <= t.gap && Enabled(t, s)
    ensures Ahead(Do(t, s)) && Do(t, s).skew == t.skew && Do(t, s).gap == t.gap
  {
    if s.Act? {
      ActKeepsClock(Set(t, s.step), s.step);
    }
  }

  lemma ActKeepsClock(w: W.World, s: W.Step)
    requires W.Enabled(w, s) && !s.Tick?
    ensures W.Do(w, s).clock == w.clock
  {
  }

  /** An act is CAWorld's own step, after its clock has moved up to the reading. */
  lemma ActThen(t: World, s: W.Step, rest: seq<W.Step>, w': W.World) returns (steps: seq<W.Step>)
    requires Ahead(t) && Enabled(t, Act(s)) && W.Runs(Do(t, Act(s)).w, rest) && W.After(Do(t, Act(s)).w, rest) == w'
    ensures W.Runs(t.w, steps) && W.After(t.w, steps) == w'
  {
    var w1 := Set(t, s);
    W.StepThen(w1, s, W.Do(w1, s), rest, w');
    if ReadsClock(s) {
      var tick := W.Tick(t.Reading());
      W.StepThen(t.w, tick, w1, [s] + rest, w');
      steps := [tick] + ([s] + rest);
    } else {
      steps := [s] + rest;
    }
  }

  /** When the clocks are no further apart than a change of leader takes, a run in time is one of CAWorld's. */
  lemma {:induction false} TimedIsRun(t: World, steps: seq<Step>) returns (plain: seq<W.Step>)
    requires Ahead(t) && t.skew <= t.gap && Runs(t, steps)
    ensures W.Runs(t.w, plain) && W.After(t.w, plain) == After(t, steps).w
    decreases |steps|
  {
    if steps == [] {
      plain := [];
    } else {
      StepStaysAhead(t, steps[0]);
      plain := TimedIsRun(Do(t, steps[0]), steps[1..]);
      if steps[0].Act? {
        plain := ActThen(t, steps[0].step, plain, After(t, steps).w);
      }
    }
  }

  /** Once drop is recorded the agent's certificate, and a renewal on its way, are the old CA's. */
  ghost predicate BackAtDrop(w: W.World, id: string) {
    id in w.nodes && !w.nodes[id].manager && CATheorems.IsDropped(w) ==> CATrust.OnlyFrom(w.nodes[id], w.recs[|w.recs| - 1].oldPin)
  }

  ghost predicate AlwaysBack(skew: nat, gap: nat) {
    forall t0, steps, id :: Init(t0) && t0.skew == skew && t0.gap == gap && Runs(t0, steps) ==> BackAtDrop(After(t0, steps).w, id)
  }

  lemma BoundedIsBack(t0: World, steps: seq<Step>, id: string)
    requires Init(t0) && t0.skew <= t0.gap && Runs(t0, steps)
    ensures BackAtDrop(After(t0, steps).w, id)
  {
    var plain := TimedIsRun(t0, steps);
    var w := After(t0, steps).w;
    if id in w.nodes && !w.nodes[id].manager && CATheorems.IsDropped(w) {
      CATheorems.AgentsAreBackAtDrop(t0.w, plain, id);
    }
  }

  // --- A run that drops too early ---

  ghost predicate Comes(t0: World, t: World) {
    exists steps :: Runs(t0, steps) && After(t0, steps) == t
  }

  lemma {:induction false} OneMoreStep(t: World, steps: seq<Step>, s: Step)
    requires Runs(t, steps) && Enabled(After(t, steps), s)
    ensures Runs(t, steps + [s]) && After(t, steps + [s]) == Do(After(t, steps), s)
    decreases |steps|
  {
    if steps == [] {
      assert [] + [s] == [s];
      assert Runs(Do(t, s), []);
    } else {
      OneMoreStep(Do(t, steps[0]), steps[1..], s);
      assert (steps + [s])[1..] == steps[1..] + [s];
    }
  }

  lemma Then(t0: World, t: World, s: Step, t': World)
    requires Comes(t0, t) && Enabled(t, s) && Do(t, s) == t'
    ensures Comes(t0, t')
  {
    var steps :| Runs(t0, steps) && After(t0, steps) == t;
    OneMoreStep(t0, steps, s);
  }

  /** The leader's clock says what the cluster's does, and has just been read. */
  predicate OnTime(t: World) {
    t.w.clock == t.Reading() && t.last == t.time
  }

  lemma Acts(t0: World, t: World, s: W.Step, w': W.World)
    requires Comes(t0, t) && OnTime(t) && !s.Tick? && W.Enabled(t.w, s) && W.Do(t.w, s) == w'
    ensures Comes(t0, t.(w := w')) && OnTime(t.(w := w'))
  {
    ActKeepsClock(t.w, s);
    assert Set(t, s) == t.w;
    Then(t0, t, Act(s), t.(w := w'));
  }

  // A member that has not moved its certificate applies the trust record.
  lemma TakesUp(t0: World, t: World, id: string, n: W.Node)
    requires Comes(t0, t) && OnTime(t) && t.w.hist == TRUSTED.hist && id in t.w.nodes && n == t.w.nodes[id]
    requires n == W.Node(n.manager, 0, ["O"], "O", true, None)
    ensures Comes(t0, t.(w := W.With(t.w, id, n.(floor := 1, trust := BOTH))))
    ensures OnTime(t.(w := W.With(t.w, id, n.(floor := 1, trust := BOTH))))
  {
    var w := t.w;
    assert MaterialOf(w.hist[3]) == Some(Material(1, "O", "O", BOTH)) && w.hist[3].rec == Some(TRUST);
    var w1 := W.With(w, id, n.(trust := BOTH, settled := false));
    Acts(t0, t, W.Adopt(id, 3), w1);
    var w2 := W.With(w, id, n.(floor := 1, trust := BOTH));
    assert w1.nodes[id := w2.nodes[id]] == w2.nodes;
    Acts(t0, t.(w := w1), W.Record(id, 3), w2);
  }

  lemma Says(t0: World, t: World, id: string)
    requires Comes(t0, t) && OnTime(t) && t.w.hist != [] && id in t.w.nodes && t.w.clock == 0
    requires t.w.nodes[id].floor == 1 && t.w.nodes[id].trust == BOTH && t.w.nodes[id].cert == "O"
    requires t.w.nodes[id].settled && t.w.nodes[id].offer == None
    ensures Comes(t0, t.(w := t.w.(reports := t.w.reports + {Said(id, 0)})))
    ensures OnTime(t.(w := t.w.(reports := t.w.reports + {Said(id, 0)})))
  {
    Acts(t0, t, W.Ping(id), t.w.(reports := t.w.reports + {Said(id, 0)}));
  }

  const A := "a"

  function Agent(floor: nat, trust: seq<Pin>): W.Node { W.Node(false, floor, trust, "O", true, None) }

  const NODES0: map<string, W.Node> := map[M := Member(0, ["O"]), P := Member(0, ["O"]), A := Agent(0, ["O"])]
  const NODES1: map<string, W.Node> := map[M := Member(1, BOTH), P := Member(1, BOTH), A := Agent(1, BOTH)]
  const HEARD: set<W.Report> := {Said(M, 0), Said(P, 0), Said(A, 0)}
  const ALL := [Heard(M, 0), Heard(P, 0), CANode(A, false, true, true, true, BOTH, "O", 0)]

  // p leads, by the fastest clock; m's is skew behind.
  function Cluster(skew: nat, gap: nat): World {
    World(W.World([S0], [], "O", NODES0, {}, 0, {"O"}), 0, P, map[M := 0 - skew, P := 0], 0, skew, gap)
  }

  function Trusting(skew: nat, gap: nat): World {
    Cluster(skew, gap).(w := W.World(TRUSTED.hist, [TRUST], "O", NODES1, HEARD, 0, {"O", "N"}))
  }

  lemma Starts(skew: nat, gap: nat)
    ensures var t, w' := Cluster(skew, gap), Trusting(skew, gap).w.(nodes := NODES0, reports := {});
            Comes(t, t.(w := w')) && OnTime(t.(w := w'))
  {
    var t := Cluster(skew, gap);
    assert Runs(t, []) && After(t, []) == t;
    var op, ws := StartOp("N", Some("O"), true, 0, 0), [SetNextCert("N"), SetNextKey("N"), SetRec(TRUST)];
    assert t.w.Now() == S0 && OpWrites(S0, op) == ws;
    StatesOfThree(S0, ws);
    assert ws[..3] == ws;
    Acts(t, t, W.Lead(op, 3), Trusting(skew, gap).w.(nodes := NODES0, reports := {}));
  }

  lemma AllTrust(skew: nat, gap: nat)
    ensures Comes(Cluster(skew, gap), Trusting(skew, gap))
  {
    var t0, w := Cluster(skew, gap), Trusting(skew, gap).w.(nodes := NODES0, reports := {});
    Starts(skew, gap);
    TakesUp(t0, t0.(w := w), M, Member(0, ["O"]));
    var w1 := W.With(w, M, Member(1, BOTH));
    TakesUp(t0, t0.(w := w1), P, Member(0, ["O"]));
    var w2 := W.With(w1, P, Member(1, BOTH));
    TakesUp(t0, t0.(w := w2), A, Agent(0, ["O"]));
    var w3 := W.With(w2, A, Agent(1, BOTH));
    assert w3.nodes == NODES1;
    AllSay(t0.(w := w3));
  }

  lemma AllSay(t: World)
    requires t == Trusting(t.skew, t.gap).(w := Trusting(t.skew, t.gap).w.(reports := {})) && Comes(Cluster(t.skew, t.gap), t)
    ensures Comes(Cluster(t.skew, t.gap), Trusting(t.skew, t.gap))
  {
    var t0 := Cluster(t.skew, t.gap);
    Says(t0, t, M);
    var t1 := t.(w := t.w.(reports := t.w.reports + {Said(M, 0)}));
    Says(t0, t1, P);
    var t2 := t1.(w := t1.w.(reports := t1.w.reports + {Said(P, 0)}));
    Says(t0, t2, A);
    assert t2.w.reports + {Said(A, 0)} == HEARD;
  }

  lemma AllIsGenuine(w: W.World)
    requires w.reports == HEARD && w.nodes.Keys == NODES1.Keys
    requires w.nodes[M].manager && w.nodes[P].manager && !w.nodes[A].manager
    ensures W.Genuine(w, ALL)
  {
    assert ALL[0].id == M && ALL[1].id == P && ALL[2].id == A;
    assert Said(M, 0) in w.reports && Said(P, 0) in w.reports && Said(A, 0) in w.reports;
  }

  // The reissue is recorded and the agent, heard before, has its certificate from the next CA.
  function Reissued(skew: nat, gap: nat): World {
    var t := Trusting(skew, gap);
    t.(w := t.w.(hist := TRUSTED.hist + [S4], recs := [TRUST, REISSUE], nodes := NODES1[A := Agent(1, BOTH).(cert := "N")]))
  }

  lemma ReissueFollows()
    ensures States(S3, OpWrites(S3, AdvanceOp(ALL, 0))) == [S4]
  {
    assert OpWrites(S3, AdvanceOp(ALL, 0)) == [SetRec(REISSUE)];
    assert States(S3, [SetRec(REISSUE)]) == [S4];
  }

  lemma ReissueLed(w: W.World)
    requires w.hist == TRUSTED.hist && w.recs == [TRUST] && w.nodes == NODES1 && w.reports == HEARD && w.clock == 0
    ensures W.Enabled(w, W.Lead(AdvanceOp(ALL, 0), 1))
    ensures W.Do(w, W.Lead(AdvanceOp(ALL, 0), 1)) == w.(hist := TRUSTED.hist + [S4], recs := [TRUST, REISSUE])
  {
    AllIsGenuine(w);
    ReissueFollows();
    assert w.Now() == S3;
    W.LeadIs(w, AdvanceOp(ALL, 0), [S4], REISSUE);
  }

  lemma AgentMoves(skew: nat, gap: nat)
    ensures Comes(Cluster(skew, gap), Reissued(skew, gap)) && OnTime(Reissued(skew, gap))
  {
    AllTrust(skew, gap);
    var t0, t := Cluster(skew, gap), Trusting(skew, gap);
    ReissueLed(t.w);
    var w1 := t.w.(hist := TRUSTED.hist + [S4], recs := [TRUST, REISSUE]);
    Acts(t0, t, W.Lead(AdvanceOp(ALL, 0), 1), w1);
    Renews(t0, t.(w := w1), Reissued(skew, gap).w);
  }

  lemma Renews(t0: World, t: World, w': W.World)
    requires Comes(t0, t) && OnTime(t) && t.w.hist == TRUSTED.hist + [S4] && t.w.nodes == NODES1
    requires w' == t.w.(nodes := NODES1[A := Agent(1, BOTH).(cert := "N")])
    ensures Comes(t0, t.(w := w')) && OnTime(t.(w := w'))
  {
    assert t.w.Now() == S4 && MaterialOf(S4) == Some(Material(2, "N", "O", BOTH));
    var w1 := t.w.(nodes := NODES1[A := Agent(1, BOTH).(offer := Some("N"))]);
    Acts(t0, t, W.Renew(A), w1);
    assert w1.nodes[A := Agent(1, BOTH).(cert := "N")] == w'.nodes;
    Acts(t0, t.(w := w1), W.Install(A), w');
  }

  // m, leading as soon as it may, has recorded the rollback by its own clock.
  function Back(skew: nat, gap: nat): CARotation {
    CARotation(3, Rollback, "O", "N", gap - skew, DEFAULT_PHASE_TIMEOUT, ByOperator)
  }

  function Turned(skew: nat, gap: nat): World {
    var t := Reissued(skew, gap);
    t.(w := t.w.(hist := t.w.hist + [S2.(rec := Some(Back(skew, gap)))], recs := [TRUST, REISSUE, Back(skew, gap)],
                 clock := gap - skew), time := gap, last := gap, leader := M)
  }

  lemma OtherTurnsBack(skew: nat, gap: nat)
    ensures Comes(Cluster(skew, gap), Turned(skew, gap))
  {
    AgentMoves(skew, gap);
    var t0, t := Cluster(skew, gap), Reissued(skew, gap);
    Then(t0, t, Pass(gap), t.(time := gap));
    var t1 := t.(time := gap, leader := M);
    Then(t0, t.(time := gap), Elect(M), t1);
    var op, ws := AbortOp(gap - skew), [SetRec(Back(skew, gap))];
    assert t1.w.Now() == S4 && OpWrites(S4, op) == ws;
    assert ws[..1] == ws && States(S4, ws) == [S2.(rec := Some(Back(skew, gap)))];
    Then(t0, t1, Act(W.Lead(op, 1)), Turned(skew, gap));
  }

  // p leads again, and goes by what it heard before.
  function DroppedRec(skew: nat, gap: nat): CARotation {
    Back(skew, gap).(seqno := 4, phase := Drop, phaseAt := 2 * gap)
  }

  function Dropped(skew: nat, gap: nat): World {
    var t := Turned(skew, gap);
    t.(w := t.w.(hist := t.w.hist + [S2.(rec := Some(DroppedRec(skew, gap)))], recs := t.w.recs + [DroppedRec(skew, gap)],
                 clock := 2 * gap), time := 2 * gap, last := 2 * gap, leader := P)
  }

  lemma DropFollows(skew: nat, gap: nat)
    requires skew > gap
    ensures var s := S2.(rec := Some(Back(skew, gap)));
            States(s, OpWrites(s, AdvanceOp(ALL, 2 * gap))) == [S2.(rec := Some(DroppedRec(skew, gap)))]
  {
    var s, ws := S2.(rec := Some(Back(skew, gap))), [SetRec(DroppedRec(skew, gap))];
    assert OpWrites(s, AdvanceOp(ALL, 2 * gap)) == ws;
    assert States(s, ws) == [S2.(rec := Some(DroppedRec(skew, gap)))];
  }

  lemma DropLed(skew: nat, gap: nat)
    requires skew > gap
    ensures var w, s := Turned(skew, gap).w.(clock := 2 * gap), W.Lead(AdvanceOp(ALL, 2 * gap), 1);
            W.Enabled(w, s) && W.Do(w, s) == Dropped(skew, gap).w
  {
    var w := Turned(skew, gap).w.(clock := 2 * gap);
    DropFollows(skew, gap);
    AllIsGenuine(w);
    assert w.Now() == S2.(rec := Some(Back(skew, gap)));
    W.LeadIs(w, AdvanceOp(ALL, 2 * gap), [S2.(rec := Some(DroppedRec(skew, gap)))], DroppedRec(skew, gap));
  }

  lemma FirstDrops(skew: nat, gap: nat)
    requires skew > gap
    ensures Comes(Cluster(skew, gap), Dropped(skew, gap))
  {
    OtherTurnsBack(skew, gap);
    var t0, t := Cluster(skew, gap), Turned(skew, gap);
    var t1 := t.(time := 2 * gap);
    Then(t0, t, Pass(2 * gap), t1);
    var t2 := t1.(leader := P);
    Then(t0, t1, Elect(P), t2);
    DropLed(skew, gap);
    assert t2.Reading() == 2 * gap;
    Then(t0, t2, Act(W.Lead(AdvanceOp(ALL, 2 * gap), 1)), Dropped(skew, gap));
  }

  /**
   Over all runs and changes of leader, once drop is recorded every agent is back on the old CA for
   good, if and only if the leaders' clocks are no further apart than a change of leader takes.
   */
  lemma BackAtDropIff(skew: nat, gap: nat)
    ensures AlwaysBack(skew, gap) <==> skew <= gap
  {
    if skew <= gap {
      forall t0, steps, id | Init(t0) && t0.skew == skew && t0.gap == gap && Runs(t0, steps)
        ensures BackAtDrop(After(t0, steps).w, id)
      {
        BoundedIsBack(t0, steps, id);
      }
    } else {
      FirstDrops(skew, gap);
      var steps :| Runs(Cluster(skew, gap), steps) && After(Cluster(skew, gap), steps) == Dropped(skew, gap);
      assert !BackAtDrop(Dropped(skew, gap).w, A);
    }
  }
}
