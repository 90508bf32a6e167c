/**
 CAWorld's runs with operations' writes that land late: after other leaders have led, and after the
 members have acted on what those wrote. When the rotations still go one after another, and when
 every certificate is still trusted.
 */
module CALateTrust {
  import opened Options
  import opened CARecord
  import opened CALeader
  import W = CAWorld
  import opened CATrust
  import opened CATheorems
  import CAEnds
  import CALate

  /** The cluster, and the rests of operations cut, each of which may still land, in its order. */
  datatype World = World(w: W.World, owed: set<seq<CAWrite>>)

  datatype Step = Act(step: W.Step) | Late(rest: seq<CAWrite>)

  ghost predicate Enabled(v: World, s: Step) {
    match s
    case Act(step) => W.Enabled(v.w, step)
    case Late(rest) => rest in v.owed && rest != [] && v.w.hist != []
  }

  /** Whether the write turns the cluster to another record. */
  predicate Turns(w: W.World, x: CAWrite)
    requires w.hist != []
  {
    x.SetRec? && w.Now().rec != Some(x.rec)
  }

  function Land(w: W.World, x: CAWrite): W.World
    requires w.hist != []
  {
    w.(hist := w.hist + [Put(w.Now(), x)],
       recs := if Turns(w, x) then w.recs + [x.rec] else w.recs,
       used := if Turns(w, x) && x.rec.phase == Trust then w.used + {x.rec.nextPin} else w.used)
  }

  ghost function Do(v: World, s: Step): World
    requires Enabled(v, s)
  {
    match s
    case Act(step) =>
      World(W.Do(v.w, step),
            if step.Lead? then CALate.Owe(v.owed, OpWrites(v.w.Now(), step.op)[step.landed..]) else v.owed)
    case Late(rest) => World(Land(v.w, rest[0]), CALate.Owe(v.owed - {rest}, rest[1..]))
  }

  predicate Init(v: World) {
    W.Init(v.w) && v.owed == {}
  }

  ghost predicate Runs(v: World, steps: seq<Step>)
    decreases |steps|
  {
    steps == [] || (Enabled(v, steps[0]) && Runs(Do(v, steps[0]), steps[1..]))
  }

  ghost function After(v: World, steps: seq<Step>): World
    requires Runs(v, steps)
    decreases |steps|
  {
    if steps == [] then v else After(Do(v, steps[0]), steps[1..])
  }

  // --- What is owed ---

  /** r follows the last record, by what every member has shown. */
  ghost predicate Due(w: W.World, r: CARotation) {
    && W.Successor(w.recs, w.root, w.used, w.clock, r)
    && (w.recs != [] ==> forall id :: id in w.nodes ==> Shown(w, r, id))
  }

  /** A record owed is due still, or others have been written since; nothing owed changes the CA of a cluster without one. */
  ghost predicate WriteInv(w: W.World, x: CAWrite) {
    match x
    case SetRec(r) => 1 <= r.seqno <= |w.recs| + 1 && (r.seqno == |w.recs| + 1 ==> Due(w, r))
    case SetCert(_) => w.recs != []
    case _ => true
  }

  ghost predicate RestInv(w: W.World, rest: seq<CAWrite>) {
    forall i :: 0 <= i < |rest| ==> WriteInv(w, rest[i])
  }

  ghost predicate OwedInv(v: World) {
    W.LogInv(v.w) && forall rest :: rest in v.owed ==> RestInv(v.w, rest)
  }

  /** Records are only added, and while none is, nothing a member has shown is lost. */
  ghost predicate Continues(w: W.World, w': W.World) {
    && w.recs <= w'.recs
    && (w'.recs == w.recs ==>
          && w'.root == w.root && w'.used == w.used && w.clock <= w'.clock && w.reports <= w'.reports
          && w'.nodes.Keys == w.nodes.Keys
          && forall id :: id in w.nodes ==> w'.nodes[id].manager == w.nodes[id].manager)
  }

  lemma NodeContinues(w: W.World, id: string, n: W.Node)
    requires id in w.nodes && n.manager == w.nodes[id].manager
    ensures Continues(w, W.With(w, id, n))
  {
  }

  lemma StepContinues(w: W.World, s: W.Step)
    requires W.Enabled(w, s)
    ensures Continues(w, W.Do(w, s))
  {
    match s
    case Adopt(id, i) => NodeContinues(w, id, W.Do(w, s).nodes[id]);
    case Move(id, i) => NodeContinues(w, id, W.Do(w, s).nodes[id]);
    case Record(id, i) => NodeContinues(w, id, W.Do(w, s).nodes[id]);
    case Renew(id) => NodeContinues(w, id, W.Do(w, s).nodes[id]);
    case Install(id) => NodeContinues(w, id, W.Do(w, s).nodes[id]);
    case Lose(id) => NodeContinues(w, id, W.Do(w, s).nodes[id]);
    case _ =>
  }

  lemma ShownStays(w: W.World, w': W.World, r: CARotation, id: string)
    requires Continues(w, w') && w'.recs == w.recs && w.recs != [] && id in w.nodes && Shown(w, r, id)
    ensures Shown(w', r, id)
  {
  }

  lemma WriteInvStays(w: W.World, w': W.World, x: CAWrite)
    requires Continues(w, w') && WriteInv(w, x)
    ensures WriteInv(w', x)
  {
    if x.SetRec? && w'.recs == w.recs && x.rec.seqno == |w.recs| + 1 && w.recs != [] {
      forall id | id in w'.nodes ensures Shown(w', x.rec, id) {
        ShownStays(w, w', x.rec, id);
      }
    }
  }

  lemma RestInvStays(w: W.World, w': W.World, rest: seq<CAWrite>)
    requires Continues(w, w') && RestInv(w, rest)
    ensures RestInv(w', rest)
  {
    forall i | 0 <= i < |rest| ensures WriteInv(w', rest[i]) {
      WriteInvStays(w, w', rest[i]);
    }
  }

  /** What an operation cut anywhere owes is due where it was cut. */
  lemma OpOwes(w: W.World, op: Op, landed: nat)
    requires W.LogInv(w) && W.Enabled(w, W.Lead(op, landed))
    ensures RestInv(W.Do(w, W.Lead(op, landed)), OpWrites(w.Now(), op)[landed..])
  {
    var ws := OpWrites(w.Now(), op);
    OpWritesOwnRec(w.Now(), op);
    if OpRec(w.Now(), op).Some? {
      W.OpRecSucceeds(w, op);
      OpIsShown(w, op);
    }
    forall i | 0 <= i < |ws| ensures WriteInv(w, ws[i]) {
    }
    StepContinues(w, W.Lead(op, landed));
    assert RestInv(w, ws[landed..]);
    RestInvStays(w, W.Do(w, W.Lead(op, landed)), ws[landed..]);
  }

  // --- The records ---

  lemma LateIsNext(w: W.World, x: CAWrite)
    requires W.LogInv(w) && WriteInv(w, x) && Turns(w, x) && CALate.Newer(w.Now(), x.rec)
    ensures x.rec.seqno == |w.recs| + 1 && Due(w, x.rec)
  {
    if w.recs != [] {
      assert W.RecInv(w.recs, w.root, w.used, |w.recs| - 1);
    }
  }

  lemma LateRecordFits(w: W.World, r: CARotation)
    requires W.LogInv(w) && W.Successor(w.recs, w.root, w.used, w.clock, r)
    ensures W.RecsInv(w.recs + [r], w.root, if r.phase == Trust then w.used + {r.nextPin} else w.used)
  {
    W.RecsGrow(w.recs, w.root, w.used, w.clock, r);
    if r.phase != Trust {
      assert W.RecInv(w.recs, w.root, w.used, |w.recs| - 1);
      assert w.used + {r.nextPin} == w.used;
    }
  }

  lemma LateKeepsLog(w: W.World, x: CAWrite)
    requires W.LogInv(w) && WriteInv(w, x) && (x.SetRec? ==> CALate.Newer(w.Now(), x.rec))
    ensures W.LogInv(Land(w, x))
  {
    if Turns(w, x) {
      LateIsNext(w, x);
      LateRecordFits(w, x.rec);
      W.StatesTurn(w, [Put(w.Now(), x)], x.rec, Land(w, x).used);
    } else {
      W.StatesStay(w, [Put(w.Now(), x)]);
    }
  }

  lemma ActKeepsOwed(v: World, s: W.Step)
    requires OwedInv(v) && W.Enabled(v.w, s) && W.LogInv(W.Do(v.w, s))
    ensures OwedInv(Do(v, Act(s)))
  {
    StepContinues(v.w, s);
    if s.Lead? {
      OpOwes(v.w, s.op, s.landed);
    }
    var v' := Do(v, Act(s));
    forall rest | rest in v'.owed ensures RestInv(v'.w, rest) {
      if rest in v.owed {
        RestInvStays(v.w, v'.w, rest);
      }
    }
  }

  lemma LateKeepsOwed(v: World, rest: seq<CAWrite>)
    requires OwedInv(v) && Enabled(v, Late(rest)) && W.LogInv(Land(v.w, rest[0]))
    ensures OwedInv(Do(v, Late(rest)))
  {
    var v' := Do(v, Late(rest));
    assert RestInv(v.w, rest[1..]);
    forall other | other in v'.owed ensures RestInv(v'.w, other) {
      RestInvStays(v.w, v'.w, other);
    }
  }

  /** Each record that lands late is newer than the one it finds. */
  ghost predicate InOrder(v: World, s: Step)
    requires Enabled(v, s)
  {
    s.Late? && s.rest[0].SetRec? ==> CALate.Newer(v.w.Now(), s.rest[0].rec)
  }

  ghost predicate InOrderRun(v: World, steps: seq<Step>)
    requires Runs(v, steps)
    decreases |steps|
  {
    steps == [] || (InOrder(v, steps[0]) && InOrderRun(Do(v, steps[0]), steps[1..]))
  }

  lemma ActKeepsLog(w: W.World, s: W.Step)
    requires W.LogInv(w) && W.Enabled(w, s)
    ensures W.LogInv(W.Do(w, s))
  {
    if s.Lead? {
      W.LogKeeps(w, s.op, s.landed);
    }
  }

  lemma StepKeepsLog(v: World, s: Step)
    requires OwedInv(v) && Enabled(v, s) && InOrder(v, s)
    ensures OwedInv(Do(v, s))
  {
    match s
    case Act(step) =>
      ActKeepsLog(v.w, step);
      ActKeepsOwed(v, step);
    case Late(rest) =>
      LateKeepsLog(v.w, rest[0]);
      LateKeepsOwed(v, rest);
  }

  lemma {:induction false} RecsStay(v: World, steps: seq<Step>)
    requires Runs(v, steps)
    ensures v.w.recs <= After(v, steps).w.recs
    decreases |steps|
  {
    if steps != [] {
      if steps[0].Act? { StepContinues(v.w, steps[0].step); }
      RecsStay(Do(v, steps[0]), steps[1..]);
    }
  }

  predicate Numbered(recs: seq<CARotation>) {
    forall k :: 0 <= k < |recs| ==> recs[k].seqno == k + 1
  }

  lemma OlderBreaks(v: World, s: Step)
    requires OwedInv(v) && Enabled(v, s) && !InOrder(v, s)
    ensures !Numbered(Do(v, s).w.recs)
  {
    assert WriteInv(v.w, s.rest[0]);
    assert v.w.recs != [] && W.RecInv(v.w.recs, v.w.root, v.w.used, |v.w.recs| - 1);
    assert Do(v, s).w.recs[|v.w.recs|] == s.rest[0].rec;
  }

  lemma {:induction false} ChainIff(v: World, steps: seq<Step>)
    requires OwedInv(v) && Runs(v, steps)
    ensures InOrderRun(v, steps) ==> OwedInv(After(v, steps))
    ensures !InOrderRun(v, steps) ==> !Numbered(After(v, steps).w.recs)
    decreases |steps|
  {
    if steps != [] {
      var v1 := Do(v, steps[0]);
      if InOrder(v, steps[0]) {
        StepKeepsLog(v, steps[0]);
        ChainIff(v1, steps[1..]);
      } else {
        OlderBreaks(v, steps[0]);
        RecsStay(v1, steps[1..]);
      }
    }
  }

  lemma InitOwes(v: World)
    requires Init(v)
    ensures OwedInv(v) && Inv(v.w) && SignersInv(v.w)
  {
    InitHolds(v.w);
  }

  ghost predicate OneByOne(recs: seq<CARotation>) {
    forall k :: 0 <= k < |recs| ==> CAEnds.OneOfARotation(recs, k)
  }

  /**
   Over every run, rests of operations landing at any later time, the rotations go one after another,
   each along one of the three paths, if and only if every record that lands late is newer than the
   one it finds.
   */
  lemma RotationsAreWholeIff(v0: World, steps: seq<Step>)
    requires Init(v0) && Runs(v0, steps)
    ensures OneByOne(After(v0, steps).w.recs) <==> InOrderRun(v0, steps)
  {
    InitOwes(v0);
    ChainIff(v0, steps);
    var w := After(v0, steps).w;
    if InOrderRun(v0, steps) {
      forall k | 0 <= k < |w.recs| ensures CAEnds.OneOfARotation(w.recs, k) {
        CAEnds.OneAfterWhole(w.recs, w.root, w.used, k);
      }
    } else {
      var k :| 0 <= k < |w.recs| && w.recs[k].seqno != k + 1;
      assert !CAEnds.OneOfARotation(w.recs, k);
    }
  }

  // --- The members ---

  /**
   What a late record finds: newer than the record there, unless older ones may land; and, for a
   rollback, that no heartbeat came since the time it says, unless one may have.
   */
  ghost predicate Fair(v: World, s: Step, older: bool, heard: bool)
    requires Enabled(v, s)
  {
    s.Late? && s.rest[0].SetRec? ==>
      && (older || CALate.Newer(v.w.Now(), s.rest[0].rec))
      && (heard || !Turns(v.w, s.rest[0]) || Unheard(v.w, s.rest[0].rec))
  }

  ghost predicate FairRun(v: World, steps: seq<Step>, older: bool, heard: bool)
    requires Runs(v, steps)
    decreases |steps|
  {
    steps == [] || (Fair(v, steps[0], older, heard) && FairRun(Do(v, steps[0]), steps[1..], older, heard))
  }

  /** No drop after a rollback while a manager has yet to apply that. */
  ghost predicate Patient(v: World, s: Step)
    requires Enabled(v, s)
  {
    DropsAfterRollback(v.w, Do(v, s).w) ==> CaughtUp(v.w)
  }

  ghost predicate PatientRun(v: World, steps: seq<Step>)
    requires Runs(v, steps)
    decreases |steps|
  {
    steps == [] || (Patient(v, steps[0]) && PatientRun(Do(v, steps[0]), steps[1..]))
  }

  lemma LateExtends(w: W.World, x: CAWrite)
    requires Inv(w) && WriteInv(w, x) && Turns(w, x) && CALate.Newer(w.Now(), x.rec) && Unheard(w, x.rec)
    ensures Extends(w, x.rec)
  {
    LateIsNext(w, x);
  }

  lemma LateKeeps(w: W.World, x: CAWrite)
    requires Inv(w) && WriteInv(w, x)
    requires x.SetRec? ==> CALate.Newer(w.Now(), x.rec) && (Turns(w, x) ==> Unheard(w, x.rec))
    ensures Inv(Land(w, x))
  {
    LateKeepsLog(w, x);
    var w' := Land(w, x);
    var w1 := w.(recs := w'.recs);
    if Turns(w, x) {
      LateExtends(w, x);
      RecordKeeps(w, x.rec);
    }
    assert NodesInv(w1) && ReportsInv(w1);
    forall p | p in w'.reports
      ensures p.id in w'.nodes && ReportInv(w'.recs, w'.root, p, w'.nodes[p.id], w'.clock, w'.used)
    {
      assert ReportInv(w1.recs, w1.root, p, w1.nodes[p.id], w1.clock, w1.used);
    }
  }

  ghost predicate FullInv(v: World) {
    Inv(v.w) && OwedInv(v)
  }

  lemma FairStepKeeps(v: World, s: Step)
    requires FullInv(v) && Enabled(v, s) && Fair(v, s, false, false)
    ensures FullInv(Do(v, s))
  {
    match s
    case Act(step) =>
      StepKeeps(v.w, step);
      ActKeepsOwed(v, step);
    case Late(rest) =>
      assert WriteInv(v.w, rest[0]);
      LateKeeps(v.w, rest[0]);
      LateKeepsOwed(v, rest);
  }

  lemma {:induction false} FairRunKeeps(v: World, steps: seq<Step>)
    requires FullInv(v) && Runs(v, steps) && FairRun(v, steps, false, false)
    ensures FullInv(After(v, steps))
    decreases |steps|
  {
    if steps != [] {
      FairStepKeeps(v, steps[0]);
      FairRunKeeps(Do(v, steps[0]), steps[1..]);
    }
  }

  /**
   Over every such run an agent's certificate issuer is in every member's trust, while records that
   land late are newer than those they find and no rollback lands after a heartbeat later than it.
   */
  lemma AgentsAreNeverCutOff(v0: World, steps: seq<Step>, a: string, b: string)
    requires Init(v0) && Runs(v0, steps) && FairRun(v0, steps, false, false)
    requires var w := After(v0, steps).w; a in w.nodes && b in w.nodes && !w.nodes[a].manager
    ensures var w := After(v0, steps).w; w.nodes[a].cert in w.nodes[b].trust
  {
    InitOwes(v0);
    FairRunKeeps(v0, steps);
    AgentIsTrusted(After(v0, steps).w, a, b);
  }

  /** And once drop is recorded every agent is on the old CA, with no other certificate on its way. */
  lemma AgentsAreBackAtDrop(v0: World, steps: seq<Step>, id: string)
    requires Init(v0) && Runs(v0, steps) && FairRun(v0, steps, false, false)
    requires var w := After(v0, steps).w; id in w.nodes && !w.nodes[id].manager && IsDropped(w)
    ensures var w := After(v0, steps).w; OnlyFrom(w.nodes[id], w.recs[|w.recs| - 1].oldPin)
  {
    InitOwes(v0);
    FairRunKeeps(v0, steps);
    AgentIsBack(After(v0, steps).w, id);
  }

  lemma SignersLand(w: W.World, x: CAWrite)
    requires Inv(w) && SignersInv(w) && WriteInv(w, x) && Turns(w, x)
    requires CALate.Newer(w.Now(), x.rec) && Unheard(w, x.rec)
    requires DropsAfterRollback(w, Land(w, x)) ==> CaughtUp(w)
    ensures SignersInv(Land(w, x))
  {
    LateExtends(w, x);
    SignersGrow(w, x.rec);
    assert SignersInv(w.(recs := w.recs + [x.rec]));
  }

  lemma SignersFair(v: World, s: Step)
    requires FullInv(v) && SignersInv(v.w) && Enabled(v, s) && Fair(v, s, false, false) && Patient(v, s)
    ensures SignersInv(Do(v, s).w)
  {
    match s
    case Act(step) => SignersStep(v.w, step);
    case Late(rest) =>
      assert WriteInv(v.w, rest[0]);
      if Turns(v.w, rest[0]) {
        SignersLand(v.w, rest[0]);
      }
  }

  lemma {:induction false} SignersRun(v: World, steps: seq<Step>)
    requires FullInv(v) && SignersInv(v.w) && Runs(v, steps) && FairRun(v, steps, false, false) && PatientRun(v, steps)
    ensures FullInv(After(v, steps)) && SignersInv(After(v, steps).w)
    decreases |steps|
  {
    if steps != [] {
      SignersFair(v, steps[0]);
      FairStepKeeps(v, steps[0]);
      SignersRun(Do(v, steps[0]), steps[1..]);
    }
  }

  /** With no drop too early, every certificate issuer is then in every member's trust. */
  lemma CertificatesAreTrusted(v0: World, steps: seq<Step>)
    requires Init(v0) && Runs(v0, steps) && FairRun(v0, steps, false, false) && PatientRun(v0, steps)
    ensures CrossTrust(After(v0, steps).w)
  {
    InitOwes(v0);
    SignersRun(v0, steps);
    InvGivesCrossTrust(After(v0, steps).w);
  }

  /** Whether every such run keeps every certificate trusted. */
  ghost predicate AlwaysTrusted(older: bool, heard: bool) {
    forall v0, steps ::
      Init(v0) && Runs(v0, steps) && FairRun(v0, steps, older, heard) && PatientRun(v0, steps) ==> CrossTrust(After(v0, steps).w)
  }
}
