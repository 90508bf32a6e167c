/**
 How CA rotations go over a whole run: the phases each takes, that nothing goes back, that each
 comes to an end, and that a CA replaced is never trusted again.
 */
module CAEnds {
  import opened Options
  import opened CARecord
  import opened CALeader
  import opened CAWorld
  import opened CATrust
  import opened CATheorems

  // --- The phases of a rotation ---

  /** The phases of the k-th record's rotation, up to it. */
  function Path(recs: seq<CARotation>, k: nat): seq<Phase>
    requires k < |recs|
  {
    if k == 0 || recs[k].phase == Trust then [recs[k].phase] else Path(recs, k - 1) + [recs[k].phase]
  }

  const FORWARD := [Trust, Reissue, Promote, Done]
  const GIVEN_UP := [Trust, Drop, Aborted]
  const TURNED_BACK := [Trust, Reissue, Rollback, Drop, Aborted]

  predicate Begins(p: seq<Phase>) {
    p <= FORWARD || p <= GIVEN_UP || p <= TURNED_BACK
  }

  predicate Whole(p: seq<Phase>) {
    p == FORWARD || p == GIVEN_UP || p == TURNED_BACK
  }

  lemma PrefixIsLen(p: seq<Phase>, q: seq<Phase>)
    requires |p| <= |q| && forall i :: 0 <= i < |p| ==> p[i] == q[i]
    ensures p <= q
  {
  }

  lemma {:induction false} PathIsOne(recs: seq<CARotation>, root: Pin, used: set<Pin>, k: nat)
    requires RecsInv(recs, root, used) && k < |recs|
    ensures Begins(Path(recs, k)) && Path(recs, k) != [] && Path(recs, k)[|Path(recs, k)| - 1] == recs[k].phase
    ensures recs[k].Ended() <==> Whole(Path(recs, k))
  {
    assert RecInv(recs, root, used, k) && Follows(recs, root, k);
    if recs[k].phase == Trust {
      PrefixIsLen([Trust], FORWARD);
    } else {
      PathIsOne(recs, root, used, k - 1);
      var p := Path(recs, k - 1);
      NextPhase(p, recs[k].phase);
    }
  }

  lemma NextPhase(p: seq<Phase>, q: Phase)
    requires Begins(p) && p != [] && Steps(p[|p| - 1], q)
    ensures Begins(p + [q]) && (q == Done || q == Aborted <==> Whole(p + [q]))
  {
    var n := p + [q];
    if p <= FORWARD && (|p| == 3 || (|p| < 3 && q == FORWARD[|p|])) {
      PrefixIsLen(n, FORWARD);
    } else if p <= GIVEN_UP && q == (if |p| < 3 then GIVEN_UP[|p|] else Unknown) {
      PrefixIsLen(n, GIVEN_UP);
    } else {
      PrefixIsLen(n, TURNED_BACK);
    }
  }

  /** The k-th record is one more of a rotation on its way along a path, or a start after a whole one. */
  predicate OneOfARotation(recs: seq<CARotation>, k: nat)
    requires k < |recs|
  {
    && recs[k].seqno == k + 1 && Begins(Path(recs, k))
    && (k > 0 && recs[k].phase == Trust ==> Whole(Path(recs, k - 1)))
    && (recs[k].Ended() <==> Whole(Path(recs, k)))
  }

  /**
   Over a whole run every rotation goes trust-reissue-promote-done, trust-drop-aborted or
   trust-reissue-rollback-drop-aborted, or is on the way along one; the next starts only after a
   whole one, and every record's seq is one more than the last.
   */
  lemma EveryRotationIsOne(w0: World, steps: seq<Step>, k: nat)
    requires Init(w0) && Runs(w0, steps) && k < |After(w0, steps).recs|
    ensures OneOfARotation(After(w0, steps).recs, k)
  {
    InitHolds(w0);
    RunKeeps(w0, steps);
    var w := After(w0, steps);
    OneAfterWhole(w.recs, w.root, w.used, k);
  }

  lemma OneAfterWhole(recs: seq<CARotation>, root: Pin, used: set<Pin>, k: nat)
    requires RecsInv(recs, root, used) && k < |recs|
    ensures OneOfARotation(recs, k)
  {
    assert RecInv(recs, root, used, k) && Follows(recs, root, k);
    PathIsOne(recs, root, used, k);
    if k > 0 {
      PathIsOne(recs, root, used, k - 1);
    }
  }

  // --- Nothing goes back ---

  /** What is in w stays in w'. */
  ghost predicate Grown(w: World, w': World) {
    && w'.root == w.root && w.recs <= w'.recs && w.hist <= w'.hist && w'.nodes.Keys == w.nodes.Keys
    && forall id :: id in w.nodes ==> w'.nodes[id].manager == w.nodes[id].manager && w.nodes[id].floor <= w'.nodes[id].floor
  }

  lemma NodeGrows(w: World, id: string, n: Node)
    requires id in w.nodes && n.manager == w.nodes[id].manager && w.nodes[id].floor <= n.floor
    ensures Grown(w, With(w, id, n))
  {
  }

  lemma StepGrows(w: World, s: Step)
    requires Inv(w) && Enabled(w, s)
    ensures Grown(w, Do(w, s))
  {
    match s
    case Adopt(id, i) => NodeGrows(w, id, Do(w, s).nodes[id]);
    case Move(id, i) => NodeGrows(w, id, Do(w, s).nodes[id]);
    case Record(id, i) => NodeGrows(w, id, Do(w, s).nodes[id]);
    case Renew(id) => NodeGrows(w, id, Do(w, s).nodes[id]);
    case Install(id) => NodeGrows(w, id, Do(w, s).nodes[id]);
    case Lose(id) => NodeGrows(w, id, Do(w, s).nodes[id]);
    case _ =>
  }

  /** No node's effective step goes back: not by a restart, an older view of the log or a stale hint. */
  lemma {:induction false} RunGrows(w: World, steps: seq<Step>)
    requires Inv(w) && Runs(w, steps)
    ensures Inv(After(w, steps)) && Grown(w, After(w, steps))
    decreases |steps|
  {
    if steps != [] {
      StepGrows(w, steps[0]);
      StepKeeps(w, steps[0]);
      RunGrows(Do(w, steps[0]), steps[1..]);
    }
  }

  // --- A CA replaced is gone ---

  /** From record k on, pin is trusted by no record, nor comes back as one's new or old CA. */
  predicate Gone(recs: seq<CARotation>, root: Pin, pin: Pin, k: nat)
    requires k < |recs|
  {
    && pin !in At(recs, root, k + 1).trust
    && (pin == recs[k].oldPin ==> recs[k].phase == Promote || recs[k].phase == Done)
    && pin != recs[k].nextPin
  }

  lemma {:induction false} GoneForGood(recs: seq<CARotation>, root: Pin, used: set<Pin>, pin: Pin, k: nat, j: nat)
    requires RecsInv(recs, root, used) && k <= j < |recs| && Gone(recs, root, pin, k)
    requires exists i :: 0 <= i <= k && pin in At(recs, root, i).trust
    ensures Gone(recs, root, pin, j)
  {
    if j > k {
      GoneForGood(recs, root, used, pin, k, j - 1);
      assert RecInv(recs, root, used, j) && Follows(recs, root, j);
      SignIsTrusted(recs, root, used, j);
    }
  }

  lemma ReplacedIsGone(recs: seq<CARotation>, root: Pin, used: set<Pin>, k: nat)
    requires RecsInv(recs, root, used) && k < |recs| && (recs[k].phase == Promote || recs[k].phase == Done)
    ensures Gone(recs, root, recs[k].oldPin, k)
    ensures exists i :: 0 <= i <= k && recs[k].oldPin in At(recs, root, i).trust
  {
    assert RecInv(recs, root, used, k) && Follows(recs, root, k);
    var a := k - 1;
    assert RecInv(recs, root, used, a) && Follows(recs, root, a);
    if recs[k].phase == Done {
      assert RecInv(recs, root, used, a - 1) && Follows(recs, root, a - 1);
      assert recs[a - 1].phase == Reissue && recs[k].oldPin in At(recs, root, a).trust;
    } else {
      assert recs[k].oldPin in At(recs, root, a + 1).trust;
    }
  }

  lemma GoneFromNode(recs: seq<CARotation>, root: Pin, used: set<Pin>, n: Node, k: nat)
    requires RecsInv(recs, root, used) && NodeInv(recs, root, n) && k < |recs| && n.floor > k
    requires recs[k].phase == Promote || recs[k].phase == Done
    ensures recs[k].oldPin !in n.trust && (n.manager ==> n.cert != recs[k].oldPin)
  {
    ReplacedIsGone(recs, root, used, k);
    var j :| n.floor <= j <= |recs| && n.trust == At(recs, root, j).trust;
    GoneForGood(recs, root, used, recs[k].oldPin, k, j - 1);
    if n.manager {
      var i :| n.floor <= i <= |recs| && n.cert == At(recs, root, i).sign;
      GoneForGood(recs, root, used, recs[k].oldPin, k, i - 1);
      SignIsTrusted(recs, root, used, i);
    }
  }

  /** A member that has applied the promote never trusts the CA it replaced again, nor does it sign with it. */
  lemma PromotedForGood(w: World, steps: seq<Step>, id: string, k: nat)
    requires Inv(w) && Runs(w, steps) && id in w.nodes && k < |w.recs|
    requires (w.recs[k].phase == Promote || w.recs[k].phase == Done) && w.nodes[id].floor > k
    ensures var n := After(w, steps).nodes;
            id in n && w.recs[k].oldPin !in n[id].trust && (n[id].manager ==> n[id].cert != w.recs[k].oldPin)
  {
    RunGrows(w, steps);
    var w' := After(w, steps);
    assert NodeInv(w'.recs, w'.root, w'.nodes[id]) && w'.recs[k] == w.recs[k];
    GoneFromNode(w'.recs, w'.root, w'.used, w'.nodes[id], k);
  }

  /** Every manager has applied the promote before done is recorded. */
  lemma PromoteEvidence(w: World, r: CARotation, id: string)
    requires Extends(w, r) && r.phase == Done && id in w.nodes && w.nodes[id].manager
    ensures w.recs != [] && w.recs[|w.recs| - 1].phase == Promote && w.nodes[id].floor == |w.recs|
  {
    assert Shown(w, r, id);
    var p :| p in w.reports && p.id == id && p.trust == [r.nextPin];
    assert ReportInv(w.recs, w.root, p, w.nodes[id], w.clock, w.used);
    if p.floor < |w.recs| {
      PromoteTrustIsNew(w.recs, w.root, w.used, p.floor);
    }
  }

  lemma DoneIsShown(w: World, op: Op, id: string)
    requires Inv(w) && OpEnabled(w, op) && id in w.nodes && w.nodes[id].manager
    requires OpRec(w.Now(), op).Some? && OpRec(w.Now(), op).value.phase == Done
    ensures w.recs != [] && w.recs[|w.recs| - 1].phase == Promote && w.nodes[id].floor == |w.recs|
  {
    OpIsShown(w, op);
    OpRecSucceeds(w, op);
    PromoteEvidence(w, OpRec(w.Now(), op).value, id);
  }

  // No record before a promote trusts its new CA alone.
  lemma PromoteTrustIsNew(recs: seq<CARotation>, root: Pin, used: set<Pin>, i: nat)
    requires RecsInv(recs, root, used) && recs != [] && recs[|recs| - 1].phase == Promote && i < |recs|
    ensures At(recs, root, i).trust != [recs[|recs| - 1].nextPin]
  {
    var k := |recs| - 1;
    assert RecInv(recs, root, used, k) && Follows(recs, root, k);
    assert RecInv(recs, root, used, k - 1) && Follows(recs, root, k - 1);
    assert RecInv(recs, root, used, k - 2) && Follows(recs, root, k - 2);
    assert recs[k - 2].phase == Trust;
    if i <= k - 2 {
      assert recs[k].nextPin !in At(recs, root, i).trust;
    }
  }

  /**
   When a leader records done, the CA it replaced has left every manager for good: none trusts it or
   presents a certificate of it ever again, whatever restarts, older views and rotations follow.
   */
  lemma RetiredForGood(w0: World, before: seq<Step>, op: Op, landed: nat, after: seq<Step>, id: string)
    requires Init(w0) && Runs(w0, before) && Enabled(After(w0, before), Lead(op, landed))
    requires var w1 := Do(After(w0, before), Lead(op, landed));
             && |w1.recs| > |After(w0, before).recs| && w1.recs[|w1.recs| - 1].phase == Done
             && Runs(w1, after) && id in w1.nodes && w1.nodes[id].manager
    ensures var w1 := Do(After(w0, before), Lead(op, landed));
            var pin, n := w1.recs[|w1.recs| - 1].oldPin, After(w1, after).nodes;
            id in n && pin !in n[id].trust && n[id].cert != pin
  {
    InitHolds(w0);
    RunKeeps(w0, before);
    DoneRetires(After(w0, before), op, landed, id);
    RetiredFrom(Do(After(w0, before), Lead(op, landed)), after, id);
  }

  /** The last record retires a CA, and manager id has applied the promote before it. */
  ghost predicate Retires(w: World, id: string) {
    && Inv(w) && |w.recs| >= 2 && w.recs[|w.recs| - 2].phase == Promote && id in w.nodes && w.nodes[id].manager
    && w.nodes[id].floor >= |w.recs| - 1 && w.recs[|w.recs| - 2].oldPin == w.recs[|w.recs| - 1].oldPin
  }

  /** When done is recorded the promote before it is one every manager has applied. */
  lemma DoneRetires(w: World, op: Op, landed: nat, id: string)
    requires Inv(w) && Enabled(w, Lead(op, landed))
    requires var w1 := Do(w, Lead(op, landed));
             && |w1.recs| > |w.recs| && w1.recs[|w1.recs| - 1].phase == Done && id in w1.nodes && w1.nodes[id].manager
    ensures Retires(Do(w, Lead(op, landed)), id)
  {
    LogKeeps(w, op, landed);
    DoneIsShown(w, op, id);
    OpRecSucceeds(w, op);
    StepKeeps(w, Lead(op, landed));
  }

  lemma RetiredFrom(w: World, after: seq<Step>, id: string)
    requires Retires(w, id) && Runs(w, after)
    ensures var pin, n := w.recs[|w.recs| - 1].oldPin, After(w, after).nodes;
            id in n && pin !in n[id].trust && n[id].cert != pin
  {
    PromotedForGood(w, after, id, |w.recs| - 2);
    RunGrows(w, after);
  }

  // --- A CA dropped is gone from the agents ---

  /** The record signs nobody with pin, nor will the rotation it is of. */
  predicate Out(r: CARotation, pin: Pin) {
    pin != r.oldPin && (pin == r.nextPin ==> r.phase == Drop || r.phase == Aborted)
  }

  lemma {:induction false} DroppedStaysOut(recs: seq<CARotation>, root: Pin, used: set<Pin>, k: nat, j: nat)
    requires RecsInv(recs, root, used) && k <= j < |recs| && (recs[k].phase == Drop || recs[k].phase == Aborted)
    ensures Out(recs[j], recs[k].nextPin)
    decreases j
  {
    assert RecInv(recs, root, used, k) && Follows(recs, root, k);
    if k < j {
      DroppedStaysOut(recs, root, used, k, j - 1);
      assert RecInv(recs, root, used, j) && Follows(recs, root, j);
      if recs[j].phase == Trust {
        var a := TrustedOnce(recs, root, used, k);
        assert recs[j].nextPin !in At(recs, root, a).trust;
      }
    }
  }

  /** The next CA of a rotation under way was trusted by its first record. */
  lemma {:induction false} TrustedOnce(recs: seq<CARotation>, root: Pin, used: set<Pin>, k: nat) returns (a: nat)
    requires RecsInv(recs, root, used) && k < |recs|
    ensures a <= k + 1 && recs[k].nextPin in At(recs, root, a).trust
  {
    assert RecInv(recs, root, used, k) && Follows(recs, root, k);
    if recs[k].phase == Trust {
      a := k + 1;
    } else {
      a := TrustedOnce(recs, root, used, k - 1);
    }
  }

  /**
   From the drop on no agent's certificate, and no renewal on its way to one, comes from the CA the
   rotation gave up, in any run that follows, through any number of later rotations.
   */
  lemma DroppedForGood(w0: World, before: seq<Step>, after: seq<Step>, id: string)
    requires Init(w0) && Runs(w0, before) && Runs(After(w0, before), after)
    requires var w := After(w0, before);
             id in w.nodes && !w.nodes[id].manager && IsDropped(w)
    ensures var w := After(w0, before);
            var n := After(w, after).nodes;
            id in n && n[id].cert != w.recs[|w.recs| - 1].nextPin && n[id].offer != Some(w.recs[|w.recs| - 1].nextPin)
  {
    InitHolds(w0);
    RunKeeps(w0, before);
    var w := After(w0, before);
    RunGrows(w, after);
    AgentIsOff(w, After(w, after), id);
  }

  lemma AgentIsOff(w: World, w': World, id: string)
    requires Inv(w') && Grown(w, w') && id in w.nodes && !w.nodes[id].manager && IsDropped(w)
    ensures var pin := w.recs[|w.recs| - 1].nextPin;
            id in w'.nodes && w'.nodes[id].cert != pin && w'.nodes[id].offer != Some(pin)
  {
    var n, k := w'.nodes[id], |w.recs| - 1;
    assert NodeInv(w'.recs, w'.root, n) && Safe(w'.recs, w'.root, n);
    assert w'.recs[k] == w.recs[k];
    NotFromOut(w'.recs, w'.root, w'.used, k, n);
  }

  lemma NotFromOut(recs: seq<CARotation>, root: Pin, used: set<Pin>, k: nat, n: Node)
    requires RecsInv(recs, root, used) && Safe(recs, root, n) && !n.manager && k < |recs|
    requires recs[k].phase == Drop || recs[k].phase == Aborted
    ensures n.cert != recs[k].nextPin && n.offer != Some(recs[k].nextPin)
  {
    DroppedStaysOut(recs, root, used, k, |recs| - 1);
  }

  // --- Every rotation ends ---

  /** The member has done all the last record asks of it, and said so since. */
  ghost predicate HasFollowed(w: World, id: string)
    requires w.recs != [] && id in w.nodes
  {
    var n, last := w.nodes[id], w.recs[|w.recs| - 1];
    && n.floor == |w.recs| && n.settled
    && (last.phase == Reissue || last.phase == Rollback ==> n.cert == Table(last).sign)
    && last.phaseAt < w.clock
  }

  /** The leader has just heard the member, as it is now. */
  ghost predicate JustHeard(w: World, c: CANode) {
    && c.id in w.nodes && c.heardFrom && c.online && c.capable && c.heardAt == w.clock
    && c.trusts == w.nodes[c.id].trust && c.certCA == w.nodes[c.id].cert
  }

  /** Once every member a phase waits for has followed it and been heard, the leader takes the next, nearer the end. */
  lemma FollowedStepsOn(w: World, nodes: seq<CANode>)
    requires Inv(w) && w.recs != [] && w.recs[|w.recs| - 1].Active()
    requires forall i :: 0 <= i < |nodes| && Counts(w.recs[|w.recs| - 1], nodes[i]) ==>
               JustHeard(w, nodes[i]) && HasFollowed(w, nodes[i].id)
    ensures var last, rec := w.recs[|w.recs| - 1], OpRec(w.Now(), AdvanceOp(nodes, w.clock));
            rec.Some? && Following(last.phase) == Some(rec.value.phase) && Distance(rec.value.phase) < Distance(last.phase)
  {
    var last, k := w.recs[|w.recs| - 1], |w.recs| - 1;
    assert RecInv(w.recs, w.root, w.used, k) && Follows(w.recs, w.root, k);
    forall i | 0 <= i < |nodes| && Counts(last, nodes[i]) ensures Ready(last, nodes[i]) {
      assert JustHeard(w, nodes[i]) && HasFollowed(w, nodes[i].id) && NodeInv(w.recs, w.root, w.nodes[nodes[i].id]);
    }
  }

  /** Each record within a rotation is nearer its end than the one before it. */
  lemma DistanceFalls(recs: seq<CARotation>, root: Pin, used: set<Pin>, k: nat)
    requires RecsInv(recs, root, used) && 0 < k < |recs| && recs[k].phase != Trust
    ensures Distance(recs[k].phase) < Distance(recs[k - 1].phase)
  {
    assert RecInv(recs, root, used, k) && Follows(recs, root, k);
  }

  /** Records come to at most five a rotation: after any more, another has started. */
  lemma {:induction false} RotationIsShort(recs: seq<CARotation>, root: Pin, used: set<Pin>, a: nat, b: nat)
    requires RecsInv(recs, root, used) && a <= b < |recs|
    requires forall k :: a < k <= b ==> recs[k].phase != Trust
    ensures Distance(recs[b].phase) + (b - a) <= Distance(recs[a].phase)
    decreases b
  {
    if a < b {
      DistanceFalls(recs, root, used, b);
      RotationIsShort(recs, root, used, a, b - 1);
    }
  }
}
