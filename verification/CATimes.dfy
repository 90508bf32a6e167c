/**
 When a CA rotation goes on, when it turns back by itself, and what its operations leave: stated on
 records, the leader's picture and the slots alone.
 */
module CATimes {
  import opened Options
  import opened CARecord
  import opened CALeader
  import opened CAWorld
  import opened CATrust
  import opened CATheorems

  // --- What the leader waits for ---

  /** What the leader must know of a member before the phase is left for the next, by the phase's purpose. */
  predicate Followed(r: CARotation, n: CANode) {
    && n.heardFrom && n.online && n.capable
    && match r.phase
       case Trust => r.oldPin in n.trusts && r.nextPin in n.trusts
       case Reissue => n.certCA == r.nextPin
       case Promote => n.trusts == [r.nextPin]
       case Rollback => n.certCA == r.oldPin && n.heardAt > r.phaseAt
       case Drop => n.trusts == [r.oldPin]
       case _ => false
  }

  /** A member no phase goes on without: any, but for an agent that is away once trust has closed to one CA. */
  predicate Needed(r: CARotation, n: CANode) {
    n.manager || (n.heardFrom && n.online) || (r.phase != Promote && r.phase != Drop)
  }

  function NextOf(p: Phase): Phase {
    match p
    case Trust => Reissue
    case Reissue => Promote
    case Promote => Done
    case Rollback => Drop
    case _ => Aborted
  }

  /** The records an operation leaves when all its writes land. */
  ghost function Led(w: World, op: Op): seq<CARotation>
    requires w.hist != [] && OpEnabled(w, op)
  {
    Do(w, Lead(op, |OpWrites(w.Now(), op)|)).recs
  }

  /** Which way a phase turns back when it takes too long. */
  predicate TurnsBack(p: Phase, q: Phase) {
    (p == Trust && q == Drop) || (p == Reissue && q == Rollback)
  }

  // --- Over every run ---

  /**
   The k-th record's times and reason. A rotation turns back by itself only past the phase's time, and
   says so; nothing but an operator's stop turns it back sooner.
   */
  predicate Timed(recs: seq<CARotation>, k: nat)
    requires k < |recs|
  {
    var r := recs[k];
    && 300 <= r.phaseTimeout <= 86_400
    && (r.phase == Trust || r.phase == Reissue || r.phase == Promote || r.phase == Done ==> r.reason == NoReason)
    && (k > 0 ==> recs[k - 1].phaseAt <= r.phaseAt && (r.phase != Trust ==> r.phaseTimeout == recs[k - 1].phaseTimeout))
    && (k > 0 && TurnsBack(recs[k - 1].phase, r.phase) ==>
          || r.reason == ByOperator
          || (r.reason == TimedOut(recs[k - 1].phase) && r.phaseAt > recs[k - 1].phaseAt + recs[k - 1].phaseTimeout))
    && (k > 0 && (recs[k - 1].phase == Rollback || recs[k - 1].phase == Drop) && r.phase != Trust ==> r.reason == recs[k - 1].reason)
  }

  predicate AllTimed(recs: seq<CARotation>) {
    forall k :: 0 <= k < |recs| ==> Timed(recs, k)
  }

  lemma OpIsTimed(w: World, op: Op)
    requires LogInv(w) && AllTimed(w.recs) && OpEnabled(w, op) && OpRec(w.Now(), op).Some?
    ensures Timed(w.recs + [OpRec(w.Now(), op).value], |w.recs|)
  {
    OpRecSucceeds(w, op);
    if w.recs != [] {
      assert Timed(w.recs, |w.recs| - 1);
    }
  }

  lemma TimedMore(recs: seq<CARotation>, r: CARotation)
    requires AllTimed(recs) && Timed(recs + [r], |recs|)
    ensures AllTimed(recs + [r])
  {
    forall k | 0 <= k < |recs| + 1 ensures Timed(recs + [r], k) {
      if k < |recs| {
        assert Timed(recs, k);
      }
    }
  }

  lemma StepIsTimed(w: World, s: Step)
    requires LogInv(w) && AllTimed(w.recs) && Enabled(w, s)
    ensures AllTimed(Do(w, s).recs)
  {
    if s.Lead? {
      LogKeeps(w, s.op, s.landed);
      if Do(w, s).recs != w.recs {
        OpIsTimed(w, s.op);
        TimedMore(w.recs, OpRec(w.Now(), s.op).value);
      }
    }
  }

  lemma {:induction false} RunIsTimed(w: World, steps: seq<Step>)
    requires Inv(w) && AllTimed(w.recs) && Runs(w, steps)
    ensures AllTimed(After(w, steps).recs)
    decreases |steps|
  {
    if steps != [] {
      StepKeeps(w, steps[0]);
      StepIsTimed(w, steps[0]);
      RunIsTimed(Do(w, steps[0]), steps[1..]);
    }
  }

  /** In every run every record is timed. */
  lemma TurnsBackInTime(w0: World, steps: seq<Step>, k: nat)
    requires Init(w0) && Runs(w0, steps) && k < |After(w0, steps).recs|
    ensures Timed(After(w0, steps).recs, k)
  {
    InitHolds(w0);
    RunIsTimed(w0, steps);
  }

  // --- One advance ---

  /** All its writes landed, a state shows the operation's record, if there is one. */
  lemma FinalRec(s: Slots, ws: seq<CAWrite>, op: Op)
    requires Complete(s) && FreshCA(s, op) && ws == OpWrites(s, op)
    ensures Final(s, ws).rec == if OpRec(s, op).Some? then OpRec(s, op) else s.rec
  {
    OpKeepsComplete(s, op);
    LastIsFinal(s, ws);
    if OpRec(s, op).Some? {
      var k :| 0 <= k < |States(s, ws)| && TurnsAt(States(s, ws), s.rec, OpRec(s, op), k);
      assert States(s, ws)[|ws| - 1].rec == OpRec(s, op);
    }
  }

  /** With all of its writes landed, an operation's record is the cluster's. */
  lemma AllLandedIs(w: World, op: Op)
    requires LogInv(w) && Complete(w.Now()) && OpEnabled(w, op)
    ensures Led(w, op) == if OpRec(w.Now(), op).Some? then w.recs + [OpRec(w.Now(), op).value] else w.recs
  {
    var s, ws := w.Now(), OpWrites(w.Now(), op);
    assert ws[..|ws|] == ws;
    OpIsFresh(w, op);
    FinalRec(s, ws, op);
    LastIsFinal(s, ws);
    RecTurns(w, op);
    if ws == [] {
      assert States(s, ws) == [];
    }
  }

  lemma OpIsFresh(w: World, op: Op)
    requires LogInv(w) && OpEnabled(w, op)
    ensures FreshCA(w.Now(), op)
  {
    assert StateInv(w.recs, w.root, w.hist[|w.hist| - 1]);
    if MaterialOf(w.Now()).Some? {
      MaterialIsTable(w.recs, w.root, w.Now());
      PinsAreUsed(w.recs, w.root, w.used, |w.recs|);
    }
  }

  /** Every member needed has followed. */
  predicate AllFollowed(r: CARotation, nodes: seq<CANode>) {
    forall i :: 0 <= i < |nodes| && Needed(r, nodes[i]) ==> Followed(r, nodes[i])
  }

  predicate TooLong(r: CARotation, now: int) {
    (r.phase == Trust || r.phase == Reissue) && now > r.phaseAt + r.phaseTimeout
  }

  function Onward(r: CARotation, now: int): CARotation {
    r.(seqno := r.seqno + 1, phase := NextOf(r.phase), phaseAt := now)
  }

  function Back(r: CARotation, now: int, reason: Reason): CARotation {
    r.(seqno := r.seqno + 1, phase := if r.phase == Trust then Drop else Rollback, phaseAt := now, reason := reason)
  }

  /**
   The leader's advance in every reachable state of a rotation under way: on, exactly when all it needs
   have followed; back, past the time of a phase that has one, when some have not; and otherwise nothing.
   */
  lemma AdvanceIs(w0: World, steps: seq<Step>, nodes: seq<CANode>)
    requires Init(w0) && Runs(w0, steps) && After(w0, steps).hist != [] && Genuine(After(w0, steps), nodes)
    requires var w := After(w0, steps); w.recs != [] && w.recs[|w.recs| - 1].Active()
    ensures var w := After(w0, steps);
            var last := w.recs[|w.recs| - 1];
            Led(w, AdvanceOp(nodes, w.clock)) ==
              if AllFollowed(last, nodes) then w.recs + [Onward(last, w.clock)]
              else if TooLong(last, w.clock) then w.recs + [Back(last, w.clock, TimedOut(last.phase))]
              else w.recs
  {
    StateHolds(w0, steps);
    var w := After(w0, steps);
    var last := w.recs[|w.recs| - 1];
    TurnsBackInTime(w0, steps, |w.recs| - 1);
    AllLandedIs(w, AdvanceOp(nodes, w.clock));
    AdvanceRecIs(w.Now(), last, nodes, w.clock);
  }

  lemma StateHolds(w0: World, steps: seq<Step>)
    requires Init(w0) && Runs(w0, steps)
    ensures var w := After(w0, steps); LogInv(w) && Complete(w.Now())
  {
    InitHolds(w0);
    RunKeeps(w0, steps);
    RunCompletes(w0, steps);
  }

  lemma AdvanceRecIs(s: Slots, r: CARotation, nodes: seq<CANode>, now: int)
    requires s.rec == Some(r) && r.Active() && r.phaseTimeout > 0
    requires r.phase == Trust || r.phase == Reissue ==> r.reason == NoReason
    ensures OpRec(s, AdvanceOp(nodes, now)) ==
              if AllFollowed(r, nodes) then Some(Onward(r, now))
              else if TooLong(r, now) then Some(Back(r, now, TimedOut(r.phase)))
              else None
  {
    FollowedIsReady(r, nodes);
  }

  lemma FollowedIsReady(r: CARotation, nodes: seq<CANode>)
    requires r.Active()
    ensures AllReady(r, nodes) <==> AllFollowed(r, nodes)
  {
    assert forall i :: 0 <= i < |nodes| ==> (Counts(r, nodes[i]) <==> Needed(r, nodes[i])) && (Ready(r, nodes[i]) <==> Followed(r, nodes[i]));
  }

  /** Those the leader names are the members needed that have not followed. */
  lemma WaitedForIs(r: CARotation, n: CANode)
    requires r.Active()
    ensures HoldsUp(r, n) <==> Needed(r, n) && !Followed(r, n)
  {
  }

  // --- A start ---

  /** What the slots, the record and the request must be for a start. */
  predicate MayStart(w: World, onDisk: Option<Pin>, ready: bool, asked: int)
    requires w.hist != []
  {
    && (w.recs == [] || w.recs[|w.recs| - 1].phase == Done || w.recs[|w.recs| - 1].phase == Aborted) && ready
    && w.Now().cert == w.Now().key == onDisk == Some(At(w.recs, w.root, |w.recs|).disk)
    && (asked == 0 || 300 <= asked <= 86_400)
  }

  /**
   A start turns the record exactly when no rotation is under way, the cluster is ready, the cluster's
   CA is whole and the one ca.crt starts with, and the time asked for is in bounds.
   */
  lemma StartIs(w0: World, steps: seq<Step>, next: Pin, onDisk: Option<Pin>, ready: bool, asked: int)
    requires Init(w0) && Runs(w0, steps) && After(w0, steps).hist != [] && next !in After(w0, steps).used
    ensures var w := After(w0, steps);
            Led(w, StartOp(next, onDisk, ready, asked, w.clock)) ==
              if MayStart(w, onDisk, ready, asked) then
                w.recs + [CARotation(|w.recs| + 1, Trust, At(w.recs, w.root, |w.recs|).disk, next, w.clock,
                                     if asked == 0 then 1_800 else asked, NoReason)]
              else w.recs
  {
    StateHolds(w0, steps);
    AllLandedIs(After(w0, steps), StartOp(next, onDisk, ready, asked, After(w0, steps).clock));
    StartRecIs(After(w0, steps), next, onDisk, ready, asked);
  }

  lemma StartRecIs(w: World, next: Pin, onDisk: Option<Pin>, ready: bool, asked: int)
    requires LogInv(w) && Complete(w.Now())
    ensures OpRec(w.Now(), StartOp(next, onDisk, ready, asked, w.clock)) ==
              if MayStart(w, onDisk, ready, asked) then
                Some(CARotation(|w.recs| + 1, Trust, At(w.recs, w.root, |w.recs|).disk, next, w.clock,
                                if asked == 0 then 1_800 else asked, NoReason))
              else None
  {
    assert StateInv(w.recs, w.root, w.hist[|w.hist| - 1]);
    CompleteGivesTable(w.Now());
    MaterialIsTable(w.recs, w.root, w.Now());
    if w.recs != [] {
      assert RecInv(w.recs, w.root, w.used, |w.recs| - 1);
    }
  }

  // --- A stop ---

  /** An operator's stop turns back a rotation that has not promoted, says so, and changes nothing else. */
  lemma StopIs(w0: World, steps: seq<Step>)
    requires Init(w0) && Runs(w0, steps) && After(w0, steps).hist != []
    ensures var w := After(w0, steps);
            Led(w, AbortOp(w.clock)) ==
              if w.recs != [] && (w.recs[|w.recs| - 1].phase == Trust || w.recs[|w.recs| - 1].phase == Reissue) then
                w.recs + [Back(w.recs[|w.recs| - 1], w.clock, ByOperator)]
              else w.recs
  {
    StateHolds(w0, steps);
    AllLandedIs(After(w0, steps), AbortOp(After(w0, steps).clock));
  }

  /** What a stop is answered, by the phase. */
  lemma StopAnswerIs(rec: Option<CARotation>)
    ensures rec == None ==> AbortPhase(rec) == NoRotation
    ensures rec.Some? ==>
              var p := rec.value.phase;
              && (p == Trust ==> AbortPhase(rec) == To(Drop)) && (p == Reissue ==> AbortPhase(rec) == To(Rollback))
              && (p == Promote <==> AbortPhase(rec) == PastReturn)
              && (p == Rollback || p == Drop <==> AbortPhase(rec) == GoingBackAlready)
              && (p == Done || p == Aborted <==> AbortPhase(rec) == NoRotation)
  {
  }

  /** With the CA a promote goes to in neither place, an advance leaves everything as it is, whatever the members say. */
  lemma LostCAIsLeft(s: Slots, nodes: seq<CANode>, now: int)
    requires s.rec.Some? && (s.rec.value.phase == Promote || s.rec.value.phase == Done)
    requires var pin := s.rec.value.nextPin; !(s.cert == s.key == Some(pin)) && !(s.nextCert == s.nextKey == Some(pin))
    ensures OpWrites(s, AdvanceOp(nodes, now)) == []
  {
  }

  // --- What is left of the next CA ---

  /** A key of the next CA stands only beside its certificate, and the cluster's key turns after the certificate. */
  predicate KeyAfterCert(s: Slots) {
    && (s.nextKey.Some? ==> s.nextCert.Some?)
    && (s.rec.Some? && s.rec.value.phase == Promote && s.key == Some(s.rec.value.nextPin) ==> s.cert == s.key)
  }

  predicate AllAfterCert(hist: seq<Slots>) {
    forall i :: 0 <= i < |hist| ==> KeyAfterCert(hist[i])
  }

  lemma OneThenOtherAfterCert(s: Slots, a: seq<CAWrite>, b: seq<CAWrite>)
    requires AllAfterCert(States(s, a)) && AllAfterCert(States(Final(s, a), b))
    ensures AllAfterCert(States(s, a + b))
  {
    StatesConcat(s, a, b);
  }

  lemma PromoteAfterCert(s: Slots, read: Slots, r: CARotation)
    requires KeyAfterCert(s) && s.rec == Some(r) && read.(rec := None) == s.(rec := None) && PromoteWrites(read, r).Some?
    requires r.phase == Promote || r.phase == Done
    requires r.phase == Promote && s.key == Some(r.nextPin) ==> s.cert == s.key
    ensures var ws := PromoteWrites(read, r).value; AllAfterCert(States(s, ws)) && KeyAfterCert(Final(s, ws))
  {
    var ws := PromoteWrites(read, r).value;
    if |ws| == 2 {
      StatesConcat(s, [ws[0]], [ws[1]]);
      assert ws == [ws[0]] + [ws[1]];
    }
  }

  lemma RemoveAfterCert(s: Slots, read: Slots)
    requires KeyAfterCert(s) && s.rec.Some? && s.rec.value.Ended()
    requires read.nextCert == s.nextCert && read.nextKey == s.nextKey
    ensures AllAfterCert(States(s, RemoveWrites(read)))
    ensures var last := Final(s, RemoveWrites(read)); last.nextCert == None && last.nextKey == None
  {
    var ws := RemoveWrites(read);
    if |ws| == 2 {
      StatesConcat(s, [ws[0]], [ws[1]]);
      assert ws == [ws[0]] + [ws[1]];
    }
  }

  /** The writes of a step from read, the slots now s: the record, then what its phase leaves. */
  lemma StepAfterCert(s: Slots, read: Slots, next: CARotation)
    requires Complete(s) && KeyAfterCert(s) && s.rec.Some? && read.rec == s.rec && Steps(s.rec.value.phase, next.phase)
    requires next.oldPin == s.rec.value.oldPin && next.nextPin == s.rec.value.nextPin && next.seqno > 0
    requires s.rec.value.phase == Promote ==> CurrentIs(s, next.nextPin)
    requires s.rec.value.phase != Promote ==> read == s
    requires read.nextCert == s.nextCert && read.nextKey == s.nextKey
    ensures AllAfterCert(States(s, StepWrites(read, next)))
    ensures next.Ended() ==> var last := Final(s, StepWrites(read, next)); last.nextCert == None && last.nextKey == None
  {
    var s1 := Put(s, SetRec(next));
    if next.phase == Promote {
      PromoteAfterCert(s1, read, next);
    } else if next.Ended() {
      RemoveAfterCert(s1, read);
    }
    assert States(s, StepWrites(read, next)) == [s1] + States(s1, StepWrites(read, next)[1..]);
  }

  lemma AdvanceAfterCert(s: Slots, nodes: seq<CANode>, now: int)
    requires Complete(s) && KeyAfterCert(s)
    ensures AllAfterCert(States(s, AdvanceWrites(s, nodes, now)))
    ensures s.rec.Some? && (s.rec.value.Ended() || (OpRec(s, AdvanceOp(nodes, now)).Some? && OpRec(s, AdvanceOp(nodes, now)).value.Ended()))
            ==> var last := Final(s, AdvanceWrites(s, nodes, now)); last.nextCert == None && last.nextKey == None
  {
    if s.rec.Some? {
      var r := s.rec.value;
      UnfinishedLands(s, r);
      var first := Unfinished(s, r).value;
      FirstAfterCert(s, r);
      var s1 := Final(s, first);
      StatesConcat(s, first, MoveWrites(s, r, nodes, now));
      if r.Ended() {
        RemoveAfterCert(s1, s);
      } else if Decision(r, nodes, now).Some? {
        StepAfterCert(s1, s, OpRec(s, AdvanceOp(nodes, now)).value);
      }
      OneThenOtherAfterCert(s, first, MoveWrites(s, r, nodes, now));
    }
  }

  lemma FirstAfterCert(s: Slots, r: CARotation)
    requires Complete(s) && KeyAfterCert(s) && s.rec == Some(r) && Unfinished(s, r).Some?
    ensures var first := Unfinished(s, r).value;
            && AllAfterCert(States(s, first)) && KeyAfterCert(Final(s, first))
            && Final(s, first).nextCert == s.nextCert && Final(s, first).nextKey == s.nextKey
  {
    if r.phase == Promote || r.phase == Done {
      PromoteAfterCert(s, s, r);
      var ws := PromoteWrites(s, r).value;
      assert |ws| == 2 ==> Final(s, ws) == Final(Put(s, ws[0]), ws[1..]) && Final(Put(s, ws[0]), ws[1..]) == Put(Put(s, ws[0]), ws[1]);
    }
  }

  lemma OpAfterCert(s: Slots, op: Op)
    requires Complete(s) && KeyAfterCert(s)
    ensures AllAfterCert(States(s, OpWrites(s, op)))
  {
    match op
    case StartOp(_, _, _, _, _) =>
      if OpWrites(s, op) != [] {
        StatesOfThree(s, OpWrites(s, op));
      }
    case AdvanceOp(nodes, now) => AdvanceAfterCert(s, nodes, now);
    case AbortOp(_) =>
      if OpWrites(s, op) != [] {
        assert States(s, OpWrites(s, op)) == [Put(s, OpWrites(s, op)[0])];
      }
  }

  lemma PartAfterCert(s: Slots, op: Op, landed: nat)
    requires Complete(s) && KeyAfterCert(s) && landed <= |OpWrites(s, op)|
    ensures AllAfterCert(States(s, OpWrites(s, op)[..landed]))
  {
    var ws := OpWrites(s, op);
    OpAfterCert(s, op);
    StatesConcat(s, ws[..landed], ws[landed..]);
    assert ws == ws[..landed] + ws[landed..];
    var part, whole := States(s, ws[..landed]), States(s, ws);
    assert forall i :: 0 <= i < |part| ==> part[i] == whole[i];
  }

  lemma {:induction false} RunAfterCert(w: World, steps: seq<Step>)
    requires Inv(w) && AllComplete(w.hist) && AllAfterCert(w.hist) && Runs(w, steps)
    ensures AllAfterCert(After(w, steps).hist)
    decreases |steps|
  {
    if steps != [] {
      var s := steps[0];
      StepKeeps(w, s);
      StepCompletes(w, s);
      if s.Lead? {
        assert Complete(w.hist[|w.hist| - 1]) && KeyAfterCert(w.hist[|w.hist| - 1]);
        PartAfterCert(w.Now(), s.op, s.landed);
      }
      RunAfterCert(Do(w, s), steps[1..]);
    }
  }

  /** So in every state of every run, whichever write of whatever operation was the last. */
  lemma CertsComeFirst(w0: World, steps: seq<Step>, i: nat)
    requires Init(w0) && Runs(w0, steps) && i < |After(w0, steps).hist|
    ensures KeyAfterCert(After(w0, steps).hist[i])
  {
    InitHolds(w0);
    RunAfterCert(w0, steps);
  }

  /** An advance that ends a rotation, or finds it ended, leaves nothing of the next CA in its slots. */
  lemma EndedIsClean(w0: World, steps: seq<Step>, nodes: seq<CANode>)
    requires Init(w0) && Runs(w0, steps) && After(w0, steps).hist != []
    ensures var w := After(w0, steps);
            var last := Final(w.Now(), OpWrites(w.Now(), AdvanceOp(nodes, w.clock)));
            last.rec.Some? && (last.rec.value.phase == Done || last.rec.value.phase == Aborted) ==>
              last.nextCert == None && last.nextKey == None
  {
    StateHolds(w0, steps);
    var w, s := After(w0, steps), After(w0, steps).Now();
    CertsComeFirst(w0, steps, |w.hist| - 1);
    AdvanceAfterCert(s, nodes, w.clock);
    FinalRec(s, OpWrites(s, AdvanceOp(nodes, w.clock)), AdvanceOp(nodes, w.clock));
  }
}
