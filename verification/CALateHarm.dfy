/**
 Late writes of a CA rotation that cut a member off, one run for each thing a late record has to find,
 and with them the exact condition for every certificate to stay trusted.
 */
module CALateHarm {
  import opened Options
  import opened CARecord
  import opened CALeader
  import W = CAWorld
  import opened CATrust
  import CATheorems
  import opened CADrop
  import CAClocks
  import CALate
  import opened CALateTrust

  /** A patient run comes from v0 to v, late records landing as older and heard allow. */
  ghost predicate Comes(v0: World, v: World, older: bool, heard: bool) {
    exists steps :: Runs(v0, steps) && FairRun(v0, steps, older, heard) && PatientRun(v0, steps) && After(v0, steps) == v
  }

  lemma {:induction false} OneMore(v: World, steps: seq<Step>, s: Step, older: bool, heard: bool)
    requires Runs(v, steps) && FairRun(v, steps, older, heard) && PatientRun(v, steps)
    requires Enabled(After(v, steps), s) && Fair(After(v, steps), s, older, heard) && Patient(After(v, steps), s)
    ensures Runs(v, steps + [s]) && FairRun(v, steps + [s], older, heard) && PatientRun(v, steps + [s])
    ensures After(v, steps + [s]) == Do(After(v, steps), s)
    decreases |steps|
  {
    if steps == [] {
      assert [] + [s] == [s];
      assert Runs(Do(v, s), []);
    } else {
      OneMore(Do(v, steps[0]), steps[1..], s, older, heard);
      assert (steps + [s])[1..] == steps[1..] + [s];
    }
  }

  lemma Then(v0: World, v: World, s: Step, v': World, older: bool, heard: bool)
    requires Comes(v0, v, older, heard) && Enabled(v, s) && Do(v, s) == v' && Fair(v, s, older, heard) && Patient(v, s)
    ensures Comes(v0, v', older, heard)
  {
    var steps :| Runs(v0, steps) && FairRun(v0, steps, older, heard) && PatientRun(v0, steps) && After(v0, steps) == v;
    OneMore(v0, steps, s, older, heard);
  }

  // A step that is no lead's.
  lemma Acts(v0: World, v: World, s: W.Step, w': W.World, older: bool, heard: bool)
    requires Comes(v0, v, older, heard) && !s.Lead? && W.Enabled(v.w, s) && W.Do(v.w, s) == w'
    ensures Comes(v0, v.(w := w'), older, heard)
  {
    StepContinues(v.w, s);
    NoLeadNoRecord(v.w, s);
    Then(v0, v, Act(s), v.(w := w'), older, heard);
  }

  lemma NoLeadNoRecord(w: W.World, s: W.Step)
    requires W.Enabled(w, s) && !s.Lead?
    ensures W.Do(w, s).recs == w.recs
  {
  }

  // A lead, cut where rest is left.
  lemma Leads(v0: World, v: World, op: Op, first: seq<CAWrite>, rest: seq<CAWrite>, states: seq<Slots>, w': W.World,
              older: bool, heard: bool)
    requires Comes(v0, v, older, heard) && v.w.hist != [] && W.OpEnabled(v.w, op)
    requires OpWrites(v.w.Now(), op) == first + rest && States(v.w.Now(), first) == states
    requires var moved := states != [] && states[|states| - 1].rec != v.w.Now().rec && states[|states| - 1].rec.Some?;
             w' == v.w.(hist := v.w.hist + states,
                        recs := if moved then v.w.recs + [states[|states| - 1].rec.value] else v.w.recs,
                        used := if moved && op.StartOp? then v.w.used + {op.next} else v.w.used)
    requires CATheorems.DropsAfterRollback(v.w, w') ==> CATheorems.CaughtUp(v.w)
    ensures Comes(v0, World(w', CALate.Owe(v.owed, rest)), older, heard)
  {
    assert (first + rest)[..|first|] == first && (first + rest)[|first|..] == rest;
    Then(v0, v, Act(W.Lead(op, |first|)), World(w', CALate.Owe(v.owed, rest)), older, heard);
  }

  // A lead whose one write is its record.
  lemma Records(v0: World, v: World, op: Op, r: CARotation, older: bool, heard: bool)
    requires Comes(v0, v, older, heard) && v.w.hist != [] && !op.StartOp? && W.OpEnabled(v.w, op)
    requires OpWrites(v.w.Now(), op) == [SetRec(r)] && v.w.Now().rec != Some(r)
    requires r.phase == Drop && v.w.recs != [] && v.w.recs[|v.w.recs| - 1].phase == Rollback ==> CATheorems.CaughtUp(v.w)
    ensures Comes(v0, v.(w := v.w.(hist := v.w.hist + [Put(v.w.Now(), SetRec(r))], recs := v.w.recs + [r])), older, heard)
  {
    var w' := v.w.(hist := v.w.hist + [Put(v.w.Now(), SetRec(r))], recs := v.w.recs + [r]);
    assert [SetRec(r)] + [] == [SetRec(r)];
    Leads(v0, v, op, [SetRec(r)], [], [Put(v.w.Now(), SetRec(r))], w', older, heard);
  }

  // What an advance writes once all are ready, in a phase that leaves nothing for after its record.
  lemma AdvanceIs(s: Slots, r: CARotation, nodes: seq<CANode>, now: int)
    requires s.rec == Some(r) && (r.phase == Trust || r.phase == Rollback) && AllReady(r, nodes)
    ensures OpWrites(s, AdvanceOp(nodes, now)) == [SetRec(NextRec(r, Following(r.phase).value, NoReason, now))]
  {
  }

  lemma Applies(v0: World, v: World, id: string, i: nat, n: W.Node, older: bool, heard: bool)
    requires Comes(v0, v, older, heard) && v.w.hist != [] && id in v.w.nodes && W.Usable(v.w, v.w.nodes[id], i)
    requires v.w.nodes[id].manager ==> v.w.nodes[id].cert == MaterialOf(v.w.hist[i]).value.sign
    requires n == v.w.nodes[id].(trust := MaterialOf(v.w.hist[i]).value.trust, floor := v.w.hist[i].rec.value.seqno, settled := true)
    ensures Comes(v0, v.(w := W.With(v.w, id, n)), older, heard)
  {
    var w1 := W.With(v.w, id, v.w.nodes[id].(trust := MaterialOf(v.w.hist[i]).value.trust, settled := false));
    Acts(v0, v, W.Adopt(id, i), w1, older, heard);
    assert w1.nodes[id := n] == v.w.nodes[id := n];
    Acts(v0, v.(w := w1), W.Record(id, i), W.With(v.w, id, n), older, heard);
  }

  lemma Says(v0: World, v: World, id: string, r: W.Report, older: bool, heard: bool)
    requires Comes(v0, v, older, heard) && v.w.hist != [] && id in v.w.nodes && v.w.nodes[id].settled && v.w.nodes[id].offer == None
    requires r == W.Report(id, v.w.nodes[id].trust, v.w.nodes[id].cert, v.w.clock, v.w.nodes[id].floor)
    ensures Comes(v0, v.(w := v.w.(reports := v.w.reports + {r})), older, heard)
  {
    Acts(v0, v, W.Ping(id), v.w.(reports := v.w.reports + {r}), older, heard);
  }

  lemma Begins(v: World, older: bool, heard: bool)
    ensures Comes(v, v, older, heard)
  {
    assert Runs(v, []) && FairRun(v, [], older, heard) && PatientRun(v, []) && After(v, []) == v;
  }

  // --- A record older than the one it finds ---

  // One leader's start is cut before its record, another's is whole, and the member is reissued a certificate.
  const ON_OTHER := ["O", "L"]
  const OTHER := CARotation(1, Trust, "O", "L", 0, DEFAULT_PHASE_TIMEOUT, NoReason)
  const OTHER_REISSUED := OTHER.(seqno := 2, phase := Reissue)
  const LATE_DROPPED := TRUST.(seqno := 2, phase := Drop, reason := ByOperator)
  const SO := S0.(nextCert := Some("L"), nextKey := Some("L"))

  const ALONE := World(W.World([S0], [], "O", map[M := Member(0, ["O"])], {}, 0, {"O"}), {})
  const OWED: set<seq<CAWrite>> := {[SetRec(TRUST)]}

  function Alone(states: seq<Slots>, recs: seq<CARotation>, used: set<Pin>, n: W.Node): World {
    World(W.World([S0, S1, S2] + states, recs, "O", map[M := n], {}, 0, used), OWED)
  }

  lemma StartIsCut(heard: bool)
    ensures Comes(ALONE, Alone([], [], {"O"}, Member(0, ["O"])), true, heard)
  {
    var op, first := StartOp("N", Some("O"), true, 0, 0), [SetNextCert("N"), SetNextKey("N")];
    Begins(ALONE, true, heard);
    assert ALONE.w.Now() == S0 && OpWrites(S0, op) == first + [SetRec(TRUST)];
    assert States(S1, [first[1]]) == [S2] && States(S0, first) == [S1] + States(S1, first[1..]);
    Leads(ALONE, ALONE, op, first, [SetRec(TRUST)], [S1, S2], Alone([], [], {"O"}, Member(0, ["O"])).w, true, heard);
  }

  const STARTED := [S2.(nextCert := Some("L")), SO, SO.(rec := Some(OTHER))]

  lemma OtherStarts(heard: bool)
    ensures Comes(ALONE, Alone(STARTED, [OTHER], {"O", "L"}, Member(0, ["O"])), true, heard)
  {
    StartIsCut(heard);
    var v, v' := Alone([], [], {"O"}, Member(0, ["O"])), Alone(STARTED, [OTHER], {"O", "L"}, Member(0, ["O"]));
    var op, ws := StartOp("L", Some("O"), true, 0, 0), [SetNextCert("L"), SetNextKey("L"), SetRec(OTHER)];
    assert v.w.Now() == S2 && OpWrites(S2, op) == ws + [];
    StatesOfThree(S2, ws);
    Leads(ALONE, v, op, ws, [], STARTED, v'.w, true, heard);
  }

  const HEARD := W.Report(M, ON_OTHER, "O", 0, 1)
  const TAKEN := Member(1, ON_OTHER)

  lemma MemberTakes(heard: bool)
    ensures var v := Alone(STARTED, [OTHER], {"O", "L"}, TAKEN);
            Comes(ALONE, v.(w := v.w.(reports := {HEARD})), true, heard)
  {
    OtherStarts(heard);
    var v := Alone(STARTED, [OTHER], {"O", "L"}, Member(0, ["O"]));
    assert v.w.hist[5] == SO.(rec := Some(OTHER)) && MaterialOf(v.w.hist[5]) == Some(Material(1, "O", "O", ON_OTHER));
    Applies(ALONE, v, M, 5, TAKEN, true, heard);
    var v1 := Alone(STARTED, [OTHER], {"O", "L"}, TAKEN);
    assert W.With(v.w, M, TAKEN) == v1.w;
    Says(ALONE, v1, M, HEARD, true, heard);
    assert v1.w.reports + {HEARD} == {HEARD};
  }

  const REISSUED := STARTED + [SO.(rec := Some(OTHER_REISSUED))]

  function Told(states: seq<Slots>, recs: seq<CARotation>, n: W.Node): W.World {
    Alone(states, recs, {"O", "L"}, n).w.(reports := {HEARD})
  }

  const ALONE_HEARD := [CANode(M, true, true, true, true, ON_OTHER, "O", 0)]

  lemma OtherReissueIsNext(w: W.World)
    requires w.hist != [] && w.Now() == SO.(rec := Some(OTHER)) && w.nodes == map[M := TAKEN] && w.reports == {HEARD} && w.clock == 0
    ensures W.OpEnabled(w, AdvanceOp(ALONE_HEARD, 0))
    ensures OpWrites(w.Now(), AdvanceOp(ALONE_HEARD, 0)) == [SetRec(OTHER_REISSUED)]
  {
    assert ALONE_HEARD[0].id == M;
    assert AllReady(OTHER, ALONE_HEARD);
    AdvanceIs(w.Now(), OTHER, ALONE_HEARD, 0);
  }

  lemma OtherReissues(heard: bool)
    ensures Comes(ALONE, World(Told(REISSUED, [OTHER, OTHER_REISSUED], TAKEN), OWED), true, heard)
  {
    MemberTakes(heard);
    var v := World(Told(STARTED, [OTHER], TAKEN), OWED);
    assert v.w.Now() == SO.(rec := Some(OTHER));
    OtherReissueIsNext(v.w);
    Records(ALONE, v, AdvanceOp(ALONE_HEARD, 0), OTHER_REISSUED, true, heard);
    assert Told(REISSUED, [OTHER, OTHER_REISSUED], TAKEN).hist == v.w.hist + [SO.(rec := Some(OTHER_REISSUED))];
  }

  lemma MemberMoves(heard: bool)
    ensures Comes(ALONE, World(Told(REISSUED, [OTHER, OTHER_REISSUED], TAKEN.(cert := "L", settled := false)), OWED), true, heard)
  {
    OtherReissues(heard);
    var w := Told(REISSUED, [OTHER, OTHER_REISSUED], TAKEN);
    assert w.hist[6].rec == Some(OTHER_REISSUED) && MaterialOf(w.hist[6]) == Some(Material(2, "L", "O", ON_OTHER));
    var w' := Told(REISSUED, [OTHER, OTHER_REISSUED], TAKEN.(cert := "L", settled := false));
    assert w'.nodes == w.nodes[M := TAKEN.(cert := "L", settled := false)];
    Acts(ALONE, World(w, OWED), W.Move(M, 6), w', true, heard);
  }

  // The record of the start cut lands, and the operator stops what is now the rotation.
  const FELL := REISSUED + [SO.(rec := Some(TRUST))]
  const STOPPED := FELL + [SO.(rec := Some(LATE_DROPPED))]
  const MOVED := TAKEN.(cert := "L", settled := false)

  function Fallen(states: seq<Slots>, recs: seq<CARotation>, n: W.Node): World {
    World(Told(states, recs, n).(used := {"O", "L", "N"}), {})
  }

  lemma RecordFalls(heard: bool)
    ensures Comes(ALONE, Fallen(FELL, [OTHER, OTHER_REISSUED, TRUST], MOVED), true, heard)
  {
    MemberMoves(heard);
    var v := World(Told(REISSUED, [OTHER, OTHER_REISSUED], MOVED), OWED);
    var v' := Fallen(FELL, [OTHER, OTHER_REISSUED, TRUST], MOVED);
    assert v.w.Now() == SO.(rec := Some(OTHER_REISSUED));
    assert v'.w.hist == v.w.hist + [SO.(rec := Some(TRUST))];
    assert OWED - {[SetRec(TRUST)]} == {};
    Then(ALONE, v, Late([SetRec(TRUST)]), v', true, heard);
  }

  lemma OperatorStops(heard: bool)
    ensures Comes(ALONE, Fallen(STOPPED, [OTHER, OTHER_REISSUED, TRUST, LATE_DROPPED], MOVED), true, heard)
  {
    RecordFalls(heard);
    var v := Fallen(FELL, [OTHER, OTHER_REISSUED, TRUST], MOVED);
    var v' := Fallen(STOPPED, [OTHER, OTHER_REISSUED, TRUST, LATE_DROPPED], MOVED);
    var s := SO.(rec := Some(TRUST));
    assert v.w.Now() == s && OpWrites(s, AbortOp(0)) == [SetRec(LATE_DROPPED)];
    Records(ALONE, v, AbortOp(0), LATE_DROPPED, true, heard);
    assert v'.w.hist == v.w.hist + [SO.(rec := Some(LATE_DROPPED))];
  }

  /** The member, whose floor the record that fell does not pass, takes the drop and refuses its own certificate. */
  lemma OlderCutsOff(heard: bool)
    ensures !AlwaysTrusted(true, heard)
  {
    OperatorStops(heard);
    var v := Fallen(STOPPED, [OTHER, OTHER_REISSUED, TRUST, LATE_DROPPED], MOVED);
    assert v.w.hist[8] == SO.(rec := Some(LATE_DROPPED)) && MaterialOf(v.w.hist[8]) == Some(Material(2, "O", "O", ["O"]));
    var w' := W.With(v.w, M, MOVED.(trust := ["O"]));
    Acts(ALONE, v, W.Adopt(M, 8), w', true, heard);
    assert !CrossTrust(w') by {
      assert w'.nodes[M].cert !in w'.nodes[M].trust;
    }
    assert Init(ALONE);
  }

  // --- A rollback that lands after an agent was heard ---

  const A := CAClocks.A

  // A manager and an agent, and what each says at the times it is heard.
  function Pair(m: W.Node, a: W.Node): map<string, W.Node> { map[M := m, A := a] }

  function PairSaid(at: int): set<W.Report> { {Said(M, at), Said(A, at)} }

  function PairHeard(at: int): seq<CANode> { [Heard(M, at), CANode(A, false, true, true, true, BOTH, "O", at)] }

  const TWO := World(W.World([S0], [], "O", Pair(Member(0, ["O"]), CAClocks.Agent(0, ["O"])), {}, 0, {"O"}), {})

  function At(states: seq<Slots>, recs: seq<CARotation>, m: W.Node, a: W.Node, said: set<W.Report>, clock: int): W.World {
    W.World([S0, S1, S2] + states, recs, "O", Pair(m, a), said, clock, {"O", "N"})
  }

  const M0 := Member(0, ["O"])
  const M1 := Member(1, BOTH)
  const A0 := CAClocks.Agent(0, ["O"])
  const A1 := CAClocks.Agent(1, BOTH)

  lemma BothStart(older: bool)
    ensures Comes(TWO, World(At([S3], [TRUST], M0, A0, {}, 0), {}), older, true)
  {
    var op, ws := StartOp("N", Some("O"), true, 0, 0), [SetNextCert("N"), SetNextKey("N"), SetRec(TRUST)];
    Begins(TWO, older, true);
    assert TWO.w.Now() == S0 && OpWrites(S0, op) == ws + [];
    StatesOfThree(S0, ws);
    Leads(TWO, TWO, op, ws, [], [S1, S2, S3], At([S3], [TRUST], M0, A0, {}, 0), older, true);
  }

  lemma BothTake(older: bool)
    ensures Comes(TWO, World(At([S3], [TRUST], M1, A1, {}, 0), {}), older, true)
  {
    BothStart(older);
    var w := At([S3], [TRUST], M0, A0, {}, 0);
    assert w.hist[3] == S3 && MaterialOf(S3) == Some(Material(1, "O", "O", BOTH));
    Applies(TWO, World(w, {}), M, 3, M1, older, true);
    var w1 := At([S3], [TRUST], M1, A0, {}, 0);
    assert W.With(w, M, M1) == w1;
    Applies(TWO, World(w1, {}), A, 3, A1, older, true);
    assert W.With(w1, A, A1) == At([S3], [TRUST], M1, A1, {}, 0);
  }

  // Both say what they hold, at any time before the agent renews.
  lemma BothSay(w: W.World, owed: set<seq<CAWrite>>, older: bool)
    requires Comes(TWO, World(w, owed), older, true) && w.hist != [] && w.nodes == Pair(M1, A1)
    ensures Comes(TWO, World(w.(reports := w.reports + PairSaid(w.clock)), owed), older, true)
  {
    Says(TWO, World(w, owed), M, Said(M, w.clock), older, true);
    var w1 := w.(reports := w.reports + {Said(M, w.clock)});
    Says(TWO, World(w1, owed), A, Said(A, w.clock), older, true);
    assert w1.reports + {Said(A, w.clock)} == w.reports + PairSaid(w.clock);
  }

  lemma PairIsGenuine(w: W.World, at: int)
    requires w.nodes.Keys == {M, A} && w.nodes[M].manager && !w.nodes[A].manager && PairSaid(at) <= w.reports
    ensures W.Genuine(w, PairHeard(at))
  {
    var nodes := PairHeard(at);
    assert nodes[0].id == M && nodes[1].id == A;
    assert Said(M, at) in w.reports && Said(A, at) in w.reports;
  }

  lemma BothAreHeard(older: bool)
    ensures Comes(TWO, World(At([S3], [TRUST], M1, A1, PairSaid(0), 0), {}), older, true)
  {
    BothTake(older);
    BothSay(At([S3], [TRUST], M1, A1, {}, 0), {}, older);
    assert {} + PairSaid(0) == PairSaid(0);
  }

  lemma ReissueIsNext(w: W.World)
    requires w.hist != [] && w.Now() == S3 && w.nodes == Pair(M1, A1) && w.reports == PairSaid(0) && w.clock == 0
    ensures W.OpEnabled(w, AdvanceOp(PairHeard(0), 0))
    ensures OpWrites(w.Now(), AdvanceOp(PairHeard(0), 0)) == [SetRec(REISSUE)]
  {
    PairIsGenuine(w, 0);
    PairIsReady(TRUST, 0);
    AdvanceIs(S3, TRUST, PairHeard(0), 0);
  }

  lemma PairIsReady(r: CARotation, at: int)
    requires r == TRUST || (r == ROLLBACK && at > 0)
    ensures AllReady(r, PairHeard(at))
  {
  }

  const TOLD := At([S3], [TRUST], M1, A1, PairSaid(0), 0)

  lemma PairMoves()
    ensures TOLD.Now() == S3
    ensures TOLD.(hist := TOLD.hist + [Put(S3, SetRec(REISSUE))], recs := TOLD.recs + [REISSUE])
         == At([S3, S4], [TRUST, REISSUE], M1, A1, PairSaid(0), 0)
  {
  }

  lemma BothReissue(older: bool)
    ensures Comes(TWO, World(At([S3, S4], [TRUST, REISSUE], M1, A1, PairSaid(0), 0), {}), older, true)
  {
    BothAreHeard(older);
    PairMoves();
    ReissueIsNext(TOLD);
    Records(TWO, World(TOLD, {}), AdvanceOp(PairHeard(0), 0), REISSUE, older, true);
  }

  const TURNING: set<seq<CAWrite>> := {[SetRec(ROLLBACK)]}
  const SAID := PairSaid(0) + PairSaid(1)

  // An operator's stop is held up before its one write; meanwhile both are heard.
  lemma StopIsHeldUp(older: bool)
    ensures Comes(TWO, World(At([S3, S4], [TRUST, REISSUE], M1, A1, SAID, 1), TURNING), older, true)
  {
    BothReissue(older);
    var w := At([S3, S4], [TRUST, REISSUE], M1, A1, PairSaid(0), 0);
    assert w.Now() == S4 && OpWrites(S4, AbortOp(0)) == [] + [SetRec(ROLLBACK)];
    Leads(TWO, World(w, {}), AbortOp(0), [], [SetRec(ROLLBACK)], [], w, older, true);
    assert CALate.Owe({}, [SetRec(ROLLBACK)]) == TURNING;
    Acts(TWO, World(w, TURNING), W.Tick(1), w.(clock := 1), older, true);
    BothSay(w.(clock := 1), TURNING, older);
  }

  const A_NEW := A1.(cert := "N")

  lemma AgentRenews(older: bool)
    ensures Comes(TWO, World(At([S3, S4], [TRUST, REISSUE], M1, A_NEW, SAID, 1), TURNING), older, true)
  {
    StopIsHeldUp(older);
    var w := At([S3, S4], [TRUST, REISSUE], M1, A1, SAID, 1);
    assert w.Now() == S4 && MaterialOf(S4) == Some(Material(2, "N", "O", BOTH));
    var w1 := At([S3, S4], [TRUST, REISSUE], M1, A1.(offer := Some("N")), SAID, 1);
    assert w1.nodes == w.nodes[A := A1.(offer := Some("N"))];
    Acts(TWO, World(w, TURNING), W.Renew(A), w1, older, true);
    var w2 := At([S3, S4], [TRUST, REISSUE], M1, A_NEW, SAID, 1);
    assert w2.nodes == w1.nodes[A := A_NEW];
    Acts(TWO, World(w1, TURNING), W.Install(A), w2, older, true);
  }

  lemma RollbackLands(older: bool)
    ensures Comes(TWO, World(CAUGHT_UP, {}), older, true)
  {
    StopLands(older);
    var w := At([S3, S4, S5], [TRUST, REISSUE, ROLLBACK], M1, A_NEW, SAID, 1);
    assert w.hist[5] == S5 && MaterialOf(S5) == Some(Material(3, "O", "O", BOTH));
    Applies(TWO, World(w, {}), M, 5, Member(3, BOTH), older, true);
    assert W.With(w, M, Member(3, BOTH)) == CAUGHT_UP;
  }

  lemma StopLands(older: bool)
    ensures Comes(TWO, World(At([S3, S4, S5], [TRUST, REISSUE, ROLLBACK], M1, A_NEW, SAID, 1), {}), older, true)
  {
    AgentRenews(older);
    var w := At([S3, S4], [TRUST, REISSUE], M1, A_NEW, SAID, 1);
    var w' := At([S3, S4, S5], [TRUST, REISSUE, ROLLBACK], M1, A_NEW, SAID, 1);
    assert w.Now() == S4 && w'.hist == w.hist + [S5] && TURNING - {[SetRec(ROLLBACK)]} == {};
    Then(TWO, World(w, TURNING), Late([SetRec(ROLLBACK)]), World(w', {}), older, true);
  }

  const S6 := S5.(rec := Some(DROPPED))

  const CAUGHT_UP := At([S3, S4, S5], [TRUST, REISSUE, ROLLBACK], Member(3, BOTH), A_NEW, SAID, 1)

  lemma DropIsNext(w: W.World)
    requires w.hist != [] && w.Now() == S5 && w.nodes == Pair(Member(3, BOTH), A_NEW) && w.reports == SAID && w.clock == 1
    ensures W.OpEnabled(w, AdvanceOp(PairHeard(1), 1))
    ensures OpWrites(w.Now(), AdvanceOp(PairHeard(1), 1)) == [SetRec(DROPPED)]
  {
    PairIsGenuine(w, 1);
    PairIsReady(ROLLBACK, 1);
    AdvanceIs(S5, ROLLBACK, PairHeard(1), 1);
  }

  lemma PairIsCaughtUp()
    ensures CAUGHT_UP.Now() == S5 && CATheorems.CaughtUp(CAUGHT_UP)
    ensures CAUGHT_UP.(hist := CAUGHT_UP.hist + [Put(S5, SetRec(DROPPED))], recs := CAUGHT_UP.recs + [DROPPED])
         == At([S3, S4, S5, S6], [TRUST, REISSUE, ROLLBACK, DROPPED], Member(3, BOTH), A_NEW, SAID, 1)
  {
  }

  lemma BothAreDropped(older: bool)
    ensures Comes(TWO, World(At([S3, S4, S5, S6], [TRUST, REISSUE, ROLLBACK, DROPPED], Member(3, BOTH), A_NEW, SAID, 1), {}), older, true)
  {
    RollbackLands(older);
    PairIsCaughtUp();
    DropIsNext(CAUGHT_UP);
    Records(TWO, World(CAUGHT_UP, {}), AdvanceOp(PairHeard(1), 1), DROPPED, older, true);
  }

  /** The agent, heard since the time the rollback says and renewed before it landed, is refused after the drop. */
  lemma HeardCutsOff(older: bool)
    ensures !AlwaysTrusted(older, true)
  {
    BothAreDropped(older);
    var w := At([S3, S4, S5, S6], [TRUST, REISSUE, ROLLBACK, DROPPED], Member(3, BOTH), A_NEW, SAID, 1);
    assert w.hist[6] == S6 && MaterialOf(S6) == Some(Material(4, "O", "O", ["O"]));
    var w' := W.With(w, M, Member(3, BOTH).(trust := ["O"], settled := false));
    Acts(TWO, World(w, {}), W.Adopt(M, 6), w', older, true);
    assert !CrossTrust(w') by {
      assert w'.nodes[A].cert !in w'.nodes[M].trust;
    }
    assert Init(TWO);
  }

  /**
   Every certificate stays trusted in every patient run if and only if each record that lands late is
   newer than the one it finds and no rollback lands after a heartbeat later than it says.
   */
  lemma TrustedLateIff(older: bool, heard: bool)
    ensures AlwaysTrusted(older, heard) <==> !older && !heard
  {
    if older {
      OlderCutsOff(heard);
    } else if heard {
      HeardCutsOff(older);
    } else {
      forall v0, steps | Init(v0) && Runs(v0, steps) && FairRun(v0, steps, false, false) && PatientRun(v0, steps)
        ensures CrossTrust(After(v0, steps).w)
      {
        CertificatesAreTrusted(v0, steps);
      }
    }
  }
}
