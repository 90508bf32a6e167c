/**
 The one step of a CA rotation that goes by too little: on the way back, a manager that has not yet
 applied the rollback, or even the reissue before it, shows the old CA and counts for the drop.
 */
module CADrop {
  import opened Options
  import opened CARecord
  import opened CALeader
  import opened CAWorld
  import opened CATrust
  import opened CATheorems

  /** Every record is in some state of the log, and every state holds all its record names. */
  ghost predicate AllSeen(w: World) {
    AllComplete(w.hist) && forall k :: 0 <= k < |w.recs| ==> Seen(w, k)
  }

  lemma StepSees(w: World, s: Step)
    requires Inv(w) && AllSeen(w) && Enabled(w, s)
    ensures AllSeen(Do(w, s))
  {
    var w' := Do(w, s);
    StepCompletes(w, s);
    forall k | 0 <= k < |w'.recs| ensures Seen(w', k) {
      if k < |w.recs| {
        assert Seen(w, k);
        var i :| 0 <= i < |w.hist| && w.hist[i].rec == Some(w.recs[k]);
        assert w'.hist[i].rec == Some(w'.recs[k]);
      } else {
        assert w'.hist[|w'.hist| - 1].rec == Some(w'.recs[k]);
      }
    }
  }

  lemma {:induction false} RunSees(w: World, steps: seq<Step>)
    requires Inv(w) && AllSeen(w) && Runs(w, steps)
    ensures AllSeen(After(w, steps))
    decreases |steps|
  {
    if steps != [] {
      StepSees(w, steps[0]);
      StepKeeps(w, steps[0]);
      RunSees(Do(w, steps[0]), steps[1..]);
    }
  }

  // --- A manager left behind ---

  /** Where a rollback has just been dropped, a manager still below the rollback record. */
  ghost predicate LeftBehind(w: World, m: string) {
    && Inv(w) && AllSeen(w) && |w.recs| >= 3 && w.recs[|w.recs| - 1].phase == Drop
    && w.recs[|w.recs| - 2].phase == Rollback
    && m in w.nodes && w.nodes[m].manager && w.nodes[m].floor < |w.recs| - 1
  }

  lemma RollbackFollowsReissue(w: World)
    requires LogInv(w) && |w.recs| >= 2 && w.recs[|w.recs| - 1].phase == Drop && w.recs[|w.recs| - 2].phase == Rollback
    ensures |w.recs| >= 3
    ensures var n := |w.recs|;
            && w.recs[n - 3].phase == Reissue && w.recs[n - 3].seqno == n - 2 && w.recs[n - 1].seqno == n
            && SamePins(w.recs[n - 3], w.recs[n - 1]) && w.recs[n - 1].oldPin != w.recs[n - 1].nextPin
  {
    var n := |w.recs|;
    assert RecInv(w.recs, w.root, w.used, n - 1) && RecInv(w.recs, w.root, w.used, n - 2);
    assert RecInv(w.recs, w.root, w.used, n - 3);
  }

  // The state of the log with record k, and what a node that may act on it applies.
  lemma StateOf(w: World, k: nat) returns (i: nat)
    requires LogInv(w) && AllSeen(w) && k < |w.recs|
    ensures i < |w.hist| && w.hist[i].rec == Some(w.recs[k]) && MaterialOf(w.hist[i]) == Some(Table(w.recs[k]))
  {
    assert Seen(w, k);
    i :| 0 <= i < |w.hist| && w.hist[i].rec == Some(w.recs[k]);
    assert Complete(w.hist[i]);
    CompleteGivesTable(w.hist[i]);
  }

  /** m takes up the i-th state, its certificate too, and p then trusts what the j-th says. */
  lemma OneMovesOneTrusts(w: World, m: string, i: nat, p: string, j: nat) returns (steps: seq<Step>)
    requires w.hist != [] && m in w.nodes && p in w.nodes && w.nodes[m].manager
    requires Usable(w, w.nodes[m], i) && Usable(w, w.nodes[p], j)
    ensures (forall k :: 0 <= k < |steps| ==> !steps[k].Lead?) && Runs(w, steps)
    ensures var w' := After(w, steps);
            && m in w'.nodes && w'.nodes[m].cert == MaterialOf(w.hist[i]).value.sign
            && p in w'.nodes && w'.nodes[p].trust == MaterialOf(w.hist[j]).value.trust
  {
    var a, b, c := Adopt(m, i), Move(m, i), Adopt(p, j);
    var w1 := With(w, m, w.nodes[m].(trust := MaterialOf(w.hist[i]).value.trust, settled := false));
    StepIs(w, a, w1);
    var w2 := With(w1, m, w1.nodes[m].(cert := MaterialOf(w.hist[i]).value.sign));
    StepIs(w1, b, w2);
    var w3 := With(w2, p, w2.nodes[p].(trust := MaterialOf(w.hist[j]).value.trust, settled := false));
    StepIs(w2, c, w3);
    StepThen(w1, b, w2, [c], w3);
    StepThen(w, a, w1, [b] + [c], w3);
    steps := [a] + ([b] + [c]);
  }

  /** It may still apply the reissue, and present a certificate no member that applied the drop trusts. */
  lemma LeftBehindIsCutOff(w: World, m: string, p: string) returns (steps: seq<Step>)
    requires LeftBehind(w, m) && p in w.nodes && w.nodes[p].floor < |w.recs|
    ensures (forall i :: 0 <= i < |steps| ==> !steps[i].Lead?) && Runs(w, steps)
    ensures var w' := After(w, steps); m in w'.nodes && p in w'.nodes && w'.nodes[m].cert !in w'.nodes[p].trust
  {
    RollbackFollowsReissue(w);
    var n := |w.recs|;
    var i := StateOf(w, n - 3);
    var j := StateOf(w, n - 1);
    steps := OneMovesOneTrusts(w, m, i, p, j);
  }

  // --- Exactly when the drop is safe ---

  /** Whatever follows w, short of another such drop made too early, no member refuses another. */
  ghost predicate StaysTrusted(w: World) {
    forall steps :: Runs(w, steps) && PatientRun(w, steps) ==> CrossTrust(After(w, steps))
  }

  lemma {:induction false} LeadlessIsPatient(w: World, steps: seq<Step>)
    requires Runs(w, steps) && forall i :: 0 <= i < |steps| ==> !steps[i].Lead?
    ensures PatientRun(w, steps)
    decreases |steps|
  {
    if steps != [] {
      LeadlessIsPatient(Do(w, steps[0]), steps[1..]);
    }
  }

  lemma CaughtUpStaysTrusted(w: World, s: Step)
    requires Inv(w) && SignersInv(w) && Enabled(w, s) && Patient(w, s)
    ensures StaysTrusted(Do(w, s))
  {
    StepKeeps(w, s);
    SignersStep(w, s);
    var w1 := Do(w, s);
    forall steps | Runs(w1, steps) && PatientRun(w1, steps) ensures CrossTrust(After(w1, steps)) {
      PatientRunKeeps(w1, steps);
      InvGivesCrossTrust(After(w1, steps));
    }
  }

  lemma DropLeavesBehind(w: World, s: Step, m: string)
    requires Inv(w) && AllSeen(w) && Enabled(w, s) && DropsAfterRollback(w, Do(w, s))
    requires m in w.nodes && w.nodes[m].manager && w.nodes[m].floor != |w.recs|
    ensures !StaysTrusted(Do(w, s))
  {
    StepKeeps(w, s);
    StepSees(w, s);
    DropIsLed(w, s);
    assert NodeInv(w.recs, w.root, w.nodes[m]);
    LeftBehindMayBeCutOff(Do(w, s), m);
  }

  lemma DropIsLed(w: World, s: Step)
    requires Enabled(w, s) && DropsAfterRollback(w, Do(w, s))
    ensures Do(w, s).nodes == w.nodes && Do(w, s).recs[..|w.recs|] == w.recs
  {
  }

  lemma LeftBehindMayBeCutOff(w: World, m: string)
    requires Inv(w) && AllSeen(w) && |w.recs| >= 2 && w.recs[|w.recs| - 1].phase == Drop
    requires w.recs[|w.recs| - 2].phase == Rollback && m in w.nodes && w.nodes[m].manager
    requires w.nodes[m].floor < |w.recs| - 1
    ensures !StaysTrusted(w)
  {
    RollbackFollowsReissue(w);
    var steps := LeftBehindIsCutOff(w, m, m);
    LeadlessIsPatient(w, steps);
  }

  /**
   In every state a patient run reaches, the leader dropping the next CA after a rollback leaves every
   later certificate trusted exactly when every manager has applied the rollback.
   */
  lemma DropSafeIff(w0: World, steps: seq<Step>, s: Step)
    requires Init(w0) && Runs(w0, steps) && PatientRun(w0, steps)
    requires var w := After(w0, steps); Enabled(w, s) && DropsAfterRollback(w, Do(w, s))
    ensures var w := After(w0, steps); StaysTrusted(Do(w, s)) <==> CaughtUp(w)
  {
    InitHolds(w0);
    PatientRunKeeps(w0, steps);
    RunSees(w0, steps);
    var w := After(w0, steps);
    if CaughtUp(w) {
      CaughtUpStaysTrusted(w, s);
    } else {
      var m :| m in w.nodes && w.nodes[m].manager && w.nodes[m].floor != |w.recs|;
      DropLeavesBehind(w, s, m);
    }
  }

  // --- The leader does drop too early ---

  ghost predicate Reaches(w0: World, w: World) {
    exists steps :: Runs(w0, steps) && PatientRun(w0, steps) && After(w0, steps) == w
  }

  lemma {:induction false} OneMore(w: World, steps: seq<Step>, s: Step)
    requires Runs(w, steps) && PatientRun(w, steps) && Enabled(After(w, steps), s) && Patient(After(w, steps), s)
    ensures Runs(w, steps + [s]) && PatientRun(w, steps + [s])
    ensures After(w, steps + [s]) == Do(After(w, steps), s)
    decreases |steps|
  {
    if steps == [] {
      assert [] + [s] == [s];
      assert Runs(Do(w, s), []);
    } else {
      OneMore(Do(w, steps[0]), steps[1..], s);
      assert (steps + [s])[1..] == steps[1..] + [s];
    }
  }

  lemma Next(w0: World, w: World, s: Step, w': World)
    requires Reaches(w0, w) && Enabled(w, s) && Do(w, s) == w' && Patient(w, s)
    ensures Reaches(w0, w')
  {
    var steps :| Runs(w0, steps) && PatientRun(w0, steps) && After(w0, steps) == w;
    OneMore(w0, steps, s);
  }

  lemma Leads(w0: World, w: World, op: Op, states: seq<Slots>, r: CARotation)
    requires Reaches(w0, w) && w.hist != [] && OpEnabled(w, op) && states != []
    requires States(w.Now(), OpWrites(w.Now(), op)) == states
    requires states[|states| - 1].rec == Some(r) && w.Now().rec != Some(r) && r.phase != Drop
    ensures Reaches(w0, w.(hist := w.hist + states, recs := w.recs + [r], used := UsedAfter(w, op)))
  {
    LeadIs(w, op, states, r);
    Next(w0, w, Lead(op, |states|), w.(hist := w.hist + states, recs := w.recs + [r], used := UsedAfter(w, op)));
  }

  // A manager whose certificate is the signer's already applies the i-th state's record.
  lemma Applies(w0: World, w: World, id: string, i: nat, n: Node)
    requires Reaches(w0, w) && id in w.nodes && Usable(w, w.nodes[id], i) && w.nodes[id].manager
    requires MaterialOf(w.hist[i]).value.sign == w.nodes[id].cert
    requires n == w.nodes[id].(trust := MaterialOf(w.hist[i]).value.trust, floor := w.hist[i].rec.value.seqno, settled := true)
    ensures Reaches(w0, With(w, id, n))
  {
    var n1 := w.nodes[id].(trust := MaterialOf(w.hist[i]).value.trust, settled := false);
    var w1 := With(w, id, n1);
    Next(w0, w, Adopt(id, i), w1);
    assert w1.nodes[id := n] == w.nodes[id := n];
    Next(w0, w1, Record(id, i), With(w, id, n));
  }

  lemma Pings(w0: World, w: World, id: string, r: Report)
    requires Reaches(w0, w) && w.hist != [] && id in w.nodes && w.nodes[id].settled && w.nodes[id].offer == None
    requires r == Report(id, w.nodes[id].trust, w.nodes[id].cert, w.clock, w.nodes[id].floor)
    ensures Reaches(w0, w.(reports := w.reports + {r}))
  {
    Next(w0, w, Ping(id), w.(reports := w.reports + {r}));
  }

  const M := "m"
  const P := "p"
  const BOTH := ["O", "N"]
  const TRUST := CARotation(1, Trust, "O", "N", 0, DEFAULT_PHASE_TIMEOUT, NoReason)
  const REISSUE := CARotation(2, Reissue, "O", "N", 0, DEFAULT_PHASE_TIMEOUT, NoReason)
  const ROLLBACK := CARotation(3, Rollback, "O", "N", 0, DEFAULT_PHASE_TIMEOUT, ByOperator)
  const S0 := Slots(Some("O"), Some("O"), None, None, None)
  const S1 := Slots(Some("O"), Some("O"), Some("N"), None, None)
  const S2 := Slots(Some("O"), Some("O"), Some("N"), Some("N"), None)

  function Member(floor: nat, trust: seq<Pin>): Node { Node(true, floor, trust, "O", true, None) }

  function Heard(id: string, at: int): CANode { CANode(id, true, true, true, true, BOTH, "O", at) }

  function Said(id: string, at: int): Report { Report(id, BOTH, "O", at, 1) }

  const START := World([S0], [], "O", map[M := Member(0, ["O"]), P := Member(0, ["O"])], {}, 0, {"O"})

  // Both managers have applied the trust record and been heard.
  const TRUSTED :=
    World([S0, S1, S2, S2.(rec := Some(TRUST))], [TRUST], "O", map[M := Member(1, BOTH), P := Member(1, BOTH)],
          {Said(M, 0), Said(P, 0)}, 0, {"O", "N"})

  lemma BothTrust()
    ensures Reaches(START, TRUSTED)
  {
    var w := START;
    assert Runs(w, []) && PatientRun(w, []) && After(w, []) == w;
    var op := StartOp("N", Some("O"), true, 0, 0);
    var ws := OpWrites(S0, op);
    assert ws == [SetNextCert("N"), SetNextKey("N"), SetRec(TRUST)];
    StatesOfThree(S0, ws);
    Leads(START, w, op, [S1, S2, S2.(rec := Some(TRUST))], TRUST);
    var w1 := w.(hist := TRUSTED.hist, recs := [TRUST], used := {"O", "N"});
    assert Reaches(START, w1);
    BothApply(w1);
  }

  lemma BothApply(w1: World)
    requires w1 == START.(hist := TRUSTED.hist, recs := [TRUST], used := {"O", "N"}) && Reaches(START, w1)
    ensures Reaches(START, TRUSTED)
  {
    TrustIsUsable(w1, M);
    Applies(START, w1, M, 3, Member(1, BOTH));
    OneApplied(w1);
    OtherApplies(With(w1, M, Member(1, BOTH)));
  }

  lemma OneApplied(w1: World)
    requires w1 == START.(hist := TRUSTED.hist, recs := [TRUST], used := {"O", "N"})
    ensures With(w1, M, Member(1, BOTH)) == TRUSTED.(reports := {}, nodes := map[M := Member(1, BOTH), P := Member(0, ["O"])])
  {
  }

  lemma OtherApplies(w: World)
    requires w == TRUSTED.(reports := {}, nodes := map[M := Member(1, BOTH), P := Member(0, ["O"])]) && Reaches(START, w)
    ensures Reaches(START, TRUSTED)
  {
    TrustIsUsable(w, P);
    Applies(START, w, P, 3, Member(1, BOTH));
    BothPing(With(w, P, Member(1, BOTH)));
  }

  lemma TrustIsUsable(w: World, id: string)
    requires w.hist == TRUSTED.hist && id in w.nodes && w.nodes[id] == Member(0, ["O"])
    ensures Usable(w, w.nodes[id], 3) && w.hist[3].rec == Some(TRUST)
    ensures MaterialOf(w.hist[3]) == Some(Material(1, "O", "O", BOTH))
  {
  }

  lemma BothPing(w: World)
    requires w == TRUSTED.(reports := {}) && Reaches(START, w)
    ensures Reaches(START, TRUSTED)
  {
    Pings(START, w, M, Said(M, 0));
    var w1 := w.(reports := w.reports + {Said(M, 0)});
    Pings(START, w1, P, Said(P, 0));
    assert w1.(reports := w1.reports + {Said(P, 0)}) == TRUSTED;
  }

  // The operator has turned the rotation back, and neither manager has applied the reissue.
  const TURNED :=
    TRUSTED.(hist := TRUSTED.hist + [S2.(rec := Some(REISSUE)), S2.(rec := Some(ROLLBACK))],
             recs := [TRUST, REISSUE, ROLLBACK], clock := 1,
             reports := {Said(M, 0), Said(P, 0), Said(M, 1), Said(P, 1)})

  const S3 := S2.(rec := Some(TRUST))
  const S4 := S2.(rec := Some(REISSUE))
  const S5 := S2.(rec := Some(ROLLBACK))

  lemma ReissueIsNext(nodes: seq<CANode>)
    requires nodes == [Heard(M, 0), Heard(P, 0)]
    ensures States(S3, OpWrites(S3, AdvanceOp(nodes, 0))) == [S4]
    ensures States(S4, OpWrites(S4, AbortOp(0))) == [S5]
  {
    assert OpWrites(S3, AdvanceOp(nodes, 0)) == [SetRec(REISSUE)];
    assert States(S3, [SetRec(REISSUE)]) == [S4];
    assert OpWrites(S4, AbortOp(0)) == [SetRec(ROLLBACK)];
    assert States(S4, [SetRec(ROLLBACK)]) == [S5];
  }

  lemma BothShowTheOldCA()
    ensures Reaches(START, TURNED)
  {
    BothTrust();
    var w, nodes := TRUSTED, [Heard(M, 0), Heard(P, 0)];
    HeardIsGenuine(w, 0);
    ReissueIsNext(nodes);
    assert w.Now() == S3;
    Leads(START, w, AdvanceOp(nodes, 0), [S4], REISSUE);
    var w1 := w.(hist := w.hist + [S4], recs := w.recs + [REISSUE]);
    assert w1.Now() == S4;
    Leads(START, w1, AbortOp(0), [S5], ROLLBACK);
    var w2 := w1.(hist := w1.hist + [S5], recs := w1.recs + [ROLLBACK]);
    assert w2.hist == TURNED.hist && w2.recs == TURNED.recs;
    BothPingAgain(w2);
  }

  lemma BothPingAgain(w: World)
    requires w == TRUSTED.(hist := TURNED.hist, recs := TURNED.recs) && Reaches(START, w)
    ensures Reaches(START, TURNED)
  {
    var w1 := w.(clock := 1);
    Next(START, w, Tick(1), w1);
    Pings(START, w1, M, Said(M, 1));
    var w2 := w1.(reports := w1.reports + {Said(M, 1)});
    Pings(START, w2, P, Said(P, 1));
    assert w2.(reports := w2.reports + {Said(P, 1)}) == TURNED;
  }

  lemma HeardIsGenuine(w: World, at: int)
    requires w.nodes == TRUSTED.nodes && Said(M, at) in w.reports && Said(P, at) in w.reports
    ensures Genuine(w, [Heard(M, at), Heard(P, at)])
  {
    var nodes := [Heard(M, at), Heard(P, at)];
    assert nodes[0].id == M && nodes[1].id == P;
  }

  /**
   The leader's own rule drops the next CA there: both managers were heard after the rollback with
   certificates of the old CA, as they have yet to apply the reissue. What follows may cut one off
   the other.
   */
  lemma LeaderDropsTooEarly()
    ensures Init(START) && Reaches(START, TURNED)
    ensures var s := Lead(AdvanceOp([Heard(M, 1), Heard(P, 1)], 1), 1);
            Enabled(TURNED, s) && DropsAfterRollback(TURNED, Do(TURNED, s)) && !StaysTrusted(Do(TURNED, s))
  {
    BothShowTheOldCA();
    EarlyDropIsEnabled();
    var steps :| Runs(START, steps) && PatientRun(START, steps) && After(START, steps) == TURNED;
    assert TURNED.nodes[M].floor == 1 && !CaughtUp(TURNED);
    DropSafeIff(START, steps, Lead(AdvanceOp([Heard(M, 1), Heard(P, 1)], 1), 1));
  }

  const DROPPED := CARotation(4, Drop, "O", "N", 1, DEFAULT_PHASE_TIMEOUT, ByOperator)

  lemma DropIsNext(nodes: seq<CANode>)
    requires nodes == [Heard(M, 1), Heard(P, 1)]
    ensures OpWrites(S5, AdvanceOp(nodes, 1)) == [SetRec(DROPPED)]
    ensures States(S5, [SetRec(DROPPED)][..1]) == [S5.(rec := Some(DROPPED))]
  {
    assert [SetRec(DROPPED)][..1] == [SetRec(DROPPED)] && [SetRec(DROPPED)][1..] == [];
  }

  lemma EarlyDropIsEnabled()
    ensures var s := Lead(AdvanceOp([Heard(M, 1), Heard(P, 1)], 1), 1);
            Enabled(TURNED, s) && DropsAfterRollback(TURNED, Do(TURNED, s))
  {
    HeardIsGenuine(TURNED, 1);
    DropIsNext([Heard(M, 1), Heard(P, 1)]);
    assert TURNED.Now() == S5;
  }
}
