/** The results about CA rotations, over every run of CAWorld. */
module CATheorems {
  import opened Options
  import opened CARecord
  import opened CALeader
  import opened CAWorld
  import opened CATrust

  lemma InitHolds(w: World)
    requires Init(w)
    ensures Inv(w) && SignersInv(w)
  {
    forall id | id in w.nodes
      ensures NodeInv(w.recs, w.root, w.nodes[id]) && Safe(w.recs, w.root, w.nodes[id]) && SignerSafe(w.recs, w.root, w.nodes[id])
    {
      assert w.nodes[id].trust == At(w.recs, w.root, 0).trust && w.nodes[id].cert == At(w.recs, w.root, 0).sign;
    }
  }

  lemma {:induction false} RunKeeps(w: World, steps: seq<Step>)
    requires Inv(w) && Runs(w, steps)
    ensures Inv(After(w, steps))
    decreases |steps|
  {
    if steps != [] {
      StepKeeps(w, steps[0]);
      RunKeeps(Do(w, steps[0]), steps[1..]);
    }
  }

  lemma {:induction false} RunCompletes(w: World, steps: seq<Step>)
    requires Inv(w) && AllComplete(w.hist) && Runs(w, steps)
    ensures AllComplete(After(w, steps).hist)
    decreases |steps|
  {
    if steps != [] {
      StepKeeps(w, steps[0]);
      StepCompletes(w, steps[0]);
      RunCompletes(Do(w, steps[0]), steps[1..]);
    }
  }

  /**
   From the first record on, every state on the log gives a node exactly what the phase table says
   of its record, however often leaders stopped between writes and starts failed half way.
   */
  lemma MaterialOnEveryPrefix(w0: World, steps: seq<Step>, i: nat)
    requires Init(w0) && Runs(w0, steps) && i < |After(w0, steps).hist|
    ensures var s := After(w0, steps).hist[i];
            s.rec.Some? ==> MaterialOf(s) == Some(Table(s.rec.value))
  {
    InitHolds(w0);
    RunCompletes(w0, steps);
    CompleteGivesTable(After(w0, steps).hist[i]);
  }

  /** In every reachable state an agent's certificate issuer is in every member's trust, forward and back. */
  lemma AgentsAreNeverCutOff(w0: World, steps: seq<Step>, a: string, b: string)
    requires Init(w0) && Runs(w0, steps)
    requires var w := After(w0, steps); a in w.nodes && b in w.nodes && !w.nodes[a].manager
    ensures var w := After(w0, steps); w.nodes[a].cert in w.nodes[b].trust
  {
    InitHolds(w0);
    RunKeeps(w0, steps);
    AgentIsTrusted(After(w0, steps), a, b);
  }

  lemma AgentIsTrusted(w: World, a: string, b: string)
    requires NodesInv(w) && a in w.nodes && b in w.nodes && !w.nodes[a].manager
    ensures w.nodes[a].cert in w.nodes[b].trust
  {
    var n, m := w.nodes[a], w.nodes[b];
    assert Safe(w.recs, w.root, n) && Safe(w.recs, w.root, m) && NodeInv(w.recs, w.root, m);
    var j :| m.floor <= j <= |w.recs| && m.trust == At(w.recs, w.root, j).trust;
    assert TrustsLive(w.recs, w.root, j);
  }

  /** The last record is that the next CA is dropped, or that the rotation is over for it. */
  predicate IsDropped(w: World) {
    w.recs != [] && (w.recs[|w.recs| - 1].phase == Drop || w.recs[|w.recs| - 1].phase == Aborted)
  }

  lemma AgentIsBack(w: World, id: string)
    requires NodesInv(w) && id in w.nodes && !w.nodes[id].manager && IsDropped(w)
    ensures OnlyFrom(w.nodes[id], w.recs[|w.recs| - 1].oldPin)
  {
    AgentIsLive(w.recs, w.root, w.nodes[id]);
  }

  lemma AgentIsLive(recs: seq<CARotation>, root: Pin, n: Node)
    requires Safe(recs, root, n) && !n.manager && recs != []
    requires recs[|recs| - 1].phase == Drop || recs[|recs| - 1].phase == Aborted
    ensures OnlyFrom(n, recs[|recs| - 1].oldPin)
  {
  }

  /**
   On the way back, once drop is recorded every agent's certificate is the old CA's, and so is any
   renewal still on its way to it, until the next rotation.
   */
  lemma AgentsAreBackAtDrop(w0: World, steps: seq<Step>, id: string)
    requires Init(w0) && Runs(w0, steps)
    requires var w := After(w0, steps); id in w.nodes && !w.nodes[id].manager && IsDropped(w)
    ensures var w := After(w0, steps); OnlyFrom(w.nodes[id], w.recs[|w.recs| - 1].oldPin)
  {
    InitHolds(w0);
    RunKeeps(w0, steps);
    AgentIsBack(After(w0, steps), id);
  }

  // --- The managers' certificates ---

  /** Every manager has applied the last record. */
  ghost predicate CaughtUp(w: World) {
    forall id :: id in w.nodes && w.nodes[id].manager ==> w.nodes[id].floor == |w.recs|
  }

  ghost predicate DropsAfterRollback(w: World, w': World) {
    && |w'.recs| == |w.recs| + 1 && w.recs != []
    && w.recs[|w.recs| - 1].phase == Rollback && w'.recs[|w.recs|].phase == Drop
  }

  /** A step that does not drop the next CA while a manager has yet to apply the rollback. */
  ghost predicate Patient(w: World, s: Step)
    requires Enabled(w, s)
  {
    DropsAfterRollback(w, Do(w, s)) ==> CaughtUp(w)
  }

  ghost predicate PatientRun(w: World, steps: seq<Step>)
    requires Runs(w, steps)
    decreases |steps|
  {
    steps == [] || (Patient(w, steps[0]) && PatientRun(Do(w, steps[0]), steps[1..]))
  }

  lemma SignerAfter(recs: seq<CARotation>, root: Pin, used: set<Pin>, clock: int, r: CARotation, n: Node)
    requires RecsInv(recs, root, used) && Successor(recs, root, used, clock, r) && SignerSafe(recs, root, n) && n.manager
    requires r.phase == Promote ==> n.floor == |recs|
    requires recs != [] && recs[|recs| - 1].phase == Rollback ==> n.floor == |recs|
    ensures SignerSafe(recs + [r], root, n)
  {
    AtGrows(recs, root, r);
    if r.phase == Trust { LiveIsDisk(recs, root, used); }
    forall k | n.floor <= k <= |recs| + 1 ensures SignsLive(recs + [r], root, k) {
      if k <= |recs| { assert SignsLive(recs, root, k); }
    }
  }

  lemma SignerGrows(w: World, r: CARotation, id: string)
    requires Extends(w, r) && id in w.nodes && SignerSafe(w.recs, w.root, w.nodes[id])
    requires w.recs != [] && w.recs[|w.recs| - 1].phase == Rollback && w.nodes[id].manager ==> w.nodes[id].floor == |w.recs|
    ensures SignerSafe(w.recs + [r], w.root, w.nodes[id])
  {
    if w.nodes[id].manager {
      if r.phase == Promote { ReissueEvidence(w, r, id); }
      SignerAfter(w.recs, w.root, w.used, w.clock, r, w.nodes[id]);
    }
  }

  lemma SignersGrow(w: World, r: CARotation)
    requires Extends(w, r) && SignersInv(w)
    requires w.recs != [] && w.recs[|w.recs| - 1].phase == Rollback && r.phase == Drop ==> CaughtUp(w)
    ensures SignersInv(w.(recs := w.recs + [r]))
  {
    forall id | id in w.nodes ensures SignerSafe(w.recs + [r], w.root, w.nodes[id]) {
      SignerGrows(w, r, id);
    }
  }

  lemma SignersLead(w: World, op: Op, landed: nat)
    requires Inv(w) && SignersInv(w) && Enabled(w, Lead(op, landed)) && Patient(w, Lead(op, landed))
    ensures SignersInv(Do(w, Lead(op, landed)))
  {
    var w' := Do(w, Lead(op, landed));
    LogKeeps(w, op, landed);
    if w'.recs != w.recs {
      OpRecSucceeds(w, op);
      OpIsShown(w, op);
      SignersGrow(w, OpRec(w.Now(), op).value);
      assert SignersInv(w.(recs := w'.recs));
    }
  }

  lemma SignersStep(w: World, s: Step)
    requires Inv(w) && SignersInv(w) && Enabled(w, s) && Patient(w, s)
    ensures SignersInv(Do(w, s))
  {
    if s.Lead? {
      SignersLead(w, s.op, s.landed);
    } else {
      if s.Record? { UsableIsAt(w, w.nodes[s.id], s.i); }
      var w' := Do(w, s);
      forall id | id in w'.nodes ensures SignerSafe(w'.recs, w'.root, w'.nodes[id]) {
        assert SignerSafe(w.recs, w.root, w.nodes[id]);
      }
    }
  }

  lemma {:induction false} PatientRunKeeps(w: World, steps: seq<Step>)
    requires Inv(w) && SignersInv(w) && Runs(w, steps) && PatientRun(w, steps)
    ensures Inv(After(w, steps)) && SignersInv(After(w, steps))
    decreases |steps|
  {
    if steps != [] {
      StepKeeps(w, steps[0]);
      SignersStep(w, steps[0]);
      PatientRunKeeps(Do(w, steps[0]), steps[1..]);
    }
  }

  /**
   Along every run — any number of rotations, to done or turned back — in which no rollback is
   followed by a drop before every manager has applied it, each member's certificate issuer is in
   every member's trust at every moment.
   */
  lemma CertificatesAreTrusted(w0: World, steps: seq<Step>)
    requires Init(w0) && Runs(w0, steps) && PatientRun(w0, steps)
    ensures CrossTrust(After(w0, steps))
  {
    InitHolds(w0);
    PatientRunKeeps(w0, steps);
    InvGivesCrossTrust(After(w0, steps));
  }
}
