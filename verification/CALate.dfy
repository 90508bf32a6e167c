/**
 A CA rotation's writes that land late: a leader that lost its lead before a write of an operation
 makes the rest after others have led and it leads again. What members are given survives exactly when
 each such write finds a state it does no harm to: its slots, and the order of its records.
 */
module CALate {
  import opened Options
  import opened CARecord
  import opened CALeader
  import CANodes

  /** A node is given what the record says: the phase table's material, or with no record the cluster's CA. */
  predicate Given(s: Slots) {
    match s.rec
    case None => s.cert.Some? && s.key == s.cert
    case Some(r) => r.phase != Unknown && MaterialOf(s) == Some(Table(r))
  }

  /** The record reads the next CA's slot: it is on it, or goes to it and finds it nowhere else. */
  predicate ReadsNext(s: Slots) {
    s.rec.Some? &&
      var r := s.rec.value;
      || r.phase == Trust || r.phase == Reissue || r.phase == Rollback
      || ((r.phase == Promote || r.phase == Done) && !CurrentIs(s, r.nextPin))
  }

  /** It reads the cluster's slot: it is on that CA, or past it and finds the next nowhere else. */
  predicate ReadsCurrent(s: Slots) {
    s.rec == None ||
      var r := s.rec.value;
      if r.phase == Promote || r.phase == Done then !NextIs(s, r.nextPin) else true
  }

  /** The slots name every CA a record of this phase needs. */
  predicate NamesAll(s: Slots, r: CARotation) {
    match r.phase
    case Trust | Reissue | Rollback => CurrentIs(s, r.oldPin) && NextIs(s, r.nextPin)
    case Promote | Done => CurrentIs(s, r.nextPin) || NextIs(s, r.nextPin)
    case Drop | Aborted => CurrentIs(s, r.oldPin)
    case Unknown => false
  }

  /** A write that changes no slot the record reads, or is of a record whose CAs are there. */
  predicate LeavesGiven(s: Slots, w: CAWrite) {
    match w
    case SetCert(p) => s.cert == Some(p) || !ReadsCurrent(s)
    case SetKey(p) => s.key == Some(p) || !ReadsCurrent(s)
    case SetNextCert(p) => s.nextCert == Some(p) || !ReadsNext(s)
    case SetNextKey(p) => s.nextKey == Some(p) || !ReadsNext(s)
    case DelNextCert => s.nextCert == None || !ReadsNext(s)
    case DelNextKey => s.nextKey == None || !ReadsNext(s)
    case SetRec(r) => NamesAll(s, r)
  }

  /** One write on any state, whoever makes it and whenever: nodes go on being given what the record says iff it leaves that. */
  lemma WriteKeepsIff(s: Slots, w: CAWrite)
    requires Given(s)
    ensures Given(Put(s, w)) <==> LeavesGiven(s, w)
  {
    if w.SetRec? {
      NamesAllIsGiven(Put(s, w), w.rec);
    } else if s.rec.Some? {
      NamesAllIsGiven(s, s.rec.value);
      NamesAllIsGiven(Put(s, w), s.rec.value);
    }
  }

  lemma NamesAllIsGiven(s: Slots, r: CARotation)
    requires s.rec == Some(r)
    ensures Given(s) <==> NamesAll(s, r)
  {
  }

  /** r is newer than the record there, or is that one. */
  predicate Newer(s: Slots, r: CARotation) {
    s.rec == None || s.rec == Some(r) || r.seqno > s.rec.value.seqno
  }

  /** It leaves nodes what the record says, and takes no record back. */
  predicate Harmless(s: Slots, w: CAWrite) {
    LeavesGiven(s, w) && (w.SetRec? ==> Newer(s, w.rec))
  }

  /** s1 is at s's record or at a newer one. */
  predicate Rises(s: Slots, s1: Slots) {
    s.rec.Some? ==> s1.rec.Some? && Newer(s, s1.rec.value)
  }

  /** s has what a member needs that has applied was: the same record or a newer one, and its CAs. */
  predicate Serves(was: Slots, s: Slots) {
    Given(s) && Rises(was, s)
  }

  /** A manager whose floor is was's record is then due what s says. */
  lemma ServedIsDue(was: Slots, s: Slots, n: CANodes.Running)
    requires Serves(was, s) && was.rec.Some? && n.floor == was.rec.value.seqno
    ensures CANodes.Due(n, s) == Some(Table(s.rec.value))
  {
  }

  lemma ServesOn(a: Slots, b: Slots, c: Slots)
    requires Serves(a, b) && Serves(b, c)
    ensures Serves(a, c)
  {
  }

  // --- An operation on time ---

  predicate AllGiven(states: seq<Slots>) {
    forall i :: 0 <= i < |states| ==> Given(states[i])
  }

  lemma OneThenRest(s: Slots, a: seq<CAWrite>, b: seq<CAWrite>)
    requires AllGiven(States(s, a)) && AllGiven(States(Final(s, a), b))
    ensures AllGiven(States(s, a + b))
  {
    StatesConcat(s, a, b);
  }

  lemma FinishGives(s: Slots, read: Slots, r: CARotation)
    requires Given(s) && s.rec == Some(r) && (r.phase == Promote || r.phase == Done)
    requires read.(rec := None) == s.(rec := None)
    ensures PromoteWrites(read, r).Some?
    ensures var ws := PromoteWrites(read, r).value;
            AllGiven(States(s, ws)) && Given(Final(s, ws)) && CurrentIs(Final(s, ws), r.nextPin) && Final(s, ws).rec == s.rec
  {
    NamesAllIsGiven(s, r);
    var ws := PromoteWrites(read, r).value;
    if |ws| == 2 {
      StatesConcat(s, [ws[0]], [ws[1]]);
      assert ws == [ws[0]] + [ws[1]];
    }
  }

  lemma RemoveGives(s: Slots, read: Slots)
    requires Given(s) && s.rec.Some? && s.rec.value.Ended()
    requires s.rec.value.phase == Done ==> CurrentIs(s, s.rec.value.nextPin)
    ensures AllGiven(States(s, RemoveWrites(read)))
  {
    var ws := RemoveWrites(read);
    if |ws| == 2 {
      StatesConcat(s, [ws[0]], [ws[1]]);
      assert ws == [ws[0]] + [ws[1]];
    }
  }

  lemma StepGives(s: Slots, read: Slots, next: CARotation)
    requires Given(s) && s.rec.Some? && read.rec == s.rec && Steps(s.rec.value.phase, next.phase)
    requires next.oldPin == s.rec.value.oldPin && next.nextPin == s.rec.value.nextPin
    requires s.rec.value.phase == Promote ==> CurrentIs(s, next.nextPin)
    requires s.rec.value.phase != Promote ==> read == s
    ensures AllGiven(States(s, StepWrites(read, next)))
  {
    var s1 := Put(s, SetRec(next));
    NamesAllIsGiven(s, s.rec.value);
    NamesAllIsGiven(s1, next);
    if next.phase == Promote {
      FinishGives(s1, read, next);
    } else if next.Ended() {
      RemoveGives(s1, read);
    }
    assert States(s, StepWrites(read, next)) == [s1] + States(s1, StepWrites(read, next)[1..]);
  }

  lemma AdvanceGives(s: Slots, nodes: seq<CANode>, now: int)
    requires Given(s)
    ensures AllGiven(States(s, AdvanceWrites(s, nodes, now)))
  {
    if s.rec.Some? {
      var r := s.rec.value;
      var first: seq<CAWrite> := [];
      if r.phase == Promote || r.phase == Done {
        FinishGives(s, s, r);
        first := PromoteWrites(s, r).value;
      }
      var s1 := Final(s, first);
      if r.Ended() {
        RemoveGives(s1, s);
      } else if Decision(r, nodes, now).Some? {
        StepGives(s1, s, OpRec(s, AdvanceOp(nodes, now)).value);
      }
      OneThenRest(s, first, MoveWrites(s, r, nodes, now));
    }
  }

  lemma StartGives(s: Slots, op: Op)
    requires Given(s) && op.StartOp?
    ensures AllGiven(States(s, OpWrites(s, op)))
  {
    var ws := OpWrites(s, op);
    if ws != [] {
      var s1 := Put(s, ws[0]);
      var s2 := Put(s1, ws[1]);
      StatesOfThree(s, ws);
      if s.rec.Some? {
        NamesAllIsGiven(s, s.rec.value);
        NamesAllIsGiven(s1, s.rec.value);
        NamesAllIsGiven(s2, s.rec.value);
      }
      NamesAllIsGiven(Put(s2, ws[2]), ws[2].rec);
    }
  }

  lemma AbortGives(s: Slots, op: Op)
    requires Given(s) && op.AbortOp?
    ensures AllGiven(States(s, OpWrites(s, op)))
  {
    if AbortPhase(s.rec).To? {
      StepGives(s, s, OpRec(s, op).value);
      assert StepWrites(s, OpRec(s, op).value) == OpWrites(s, op);
    }
  }

  lemma PartIsGiven(s: Slots, ws: seq<CAWrite>, landed: nat)
    requires AllGiven(States(s, ws)) && landed <= |ws|
    ensures AllGiven(States(s, ws[..landed]))
  {
    StatesConcat(s, ws[..landed], ws[landed..]);
    assert ws == ws[..landed] + ws[landed..];
    var part, whole := States(s, ws[..landed]), States(s, ws);
    assert forall i :: 0 <= i < |part| ==> part[i] == whole[i];
  }

  /** However far any operation comes on a state that gives nodes their material, every state on the way does. */
  lemma OpGives(s: Slots, op: Op, landed: nat)
    requires Given(s) && landed <= |OpWrites(s, op)|
    ensures AllGiven(States(s, OpWrites(s, op)[..landed]))
  {
    match op {
      case StartOp(_, _, _, _, _) => StartGives(s, op);
      case AdvanceOp(nodes, now) => AdvanceGives(s, nodes, now);
      case AbortOp(_) => AbortGives(s, op);
    }
    PartIsGiven(s, OpWrites(s, op), landed);
  }

  // --- Whole runs ---

  /** Every state of the log, and the rests of operations cut, each of which may still land, in its order. */
  datatype World = World(hist: seq<Slots>, owed: set<seq<CAWrite>>)

  datatype Step = Lead(op: Op, landed: nat) | Late(rest: seq<CAWrite>)

  function Now(w: World): Slots
    requires w.hist != []
  {
    w.hist[|w.hist| - 1]
  }

  function Owe(owed: set<seq<CAWrite>>, rest: seq<CAWrite>): set<seq<CAWrite>> {
    if rest == [] then owed else owed + {rest}
  }

  predicate Enabled(w: World, s: Step) {
    && w.hist != []
    && match s
       case Lead(op, landed) => landed <= |OpWrites(Now(w), op)|
       case Late(rest) => rest in w.owed && rest != []
  }

  function Do(w: World, s: Step): World
    requires Enabled(w, s)
  {
    match s
    case Lead(op, landed) =>
      var ws := OpWrites(Now(w), op);
      World(w.hist + States(Now(w), ws[..landed]), Owe(w.owed, ws[landed..]))
    case Late(rest) => World(w.hist + [Put(Now(w), rest[0])], Owe(w.owed - {rest}, rest[1..]))
  }

  predicate Runs(w: World, steps: seq<Step>)
    decreases |steps|
  {
    steps == [] || (Enabled(w, steps[0]) && Runs(Do(w, steps[0]), steps[1..]))
  }

  function After(w: World, steps: seq<Step>): World
    requires Runs(w, steps)
    decreases |steps|
  {
    if steps == [] then w else After(Do(w, steps[0]), steps[1..])
  }

  /** Every late write of the run left nodes what the record it found says. */
  predicate LateLeavesGiven(w: World, steps: seq<Step>)
    requires Runs(w, steps)
    decreases |steps|
  {
    steps == [] ||
    ((steps[0].Late? ==> LeavesGiven(Now(w), steps[0].rest[0])) && LateLeavesGiven(Do(w, steps[0]), steps[1..]))
  }

  lemma StepGivesIff(w: World, s: Step)
    requires AllGiven(w.hist) && Enabled(w, s)
    ensures AllGiven(Do(w, s).hist) <==> (s.Late? ==> LeavesGiven(Now(w), s.rest[0]))
  {
    match s
    case Lead(op, landed) => OpGives(Now(w), op, landed);
    case Late(rest) =>
      WriteKeepsIff(Now(w), rest[0]);
      assert Do(w, s).hist[|w.hist|] == Put(Now(w), rest[0]);
  }

  lemma {:induction false} HistStays(w: World, steps: seq<Step>)
    requires Runs(w, steps)
    ensures w.hist <= After(w, steps).hist
    decreases |steps|
  {
    if steps != [] {
      HistStays(Do(w, steps[0]), steps[1..]);
    }
  }

  /**
   Along every run — operations cut anywhere, their rests landing at any later time, between others or
   after them — every state of the log gives nodes exactly what its record says, if and only if every
   late write left them that where it landed.
   */
  lemma {:induction false} MaterialSurvivesIff(w: World, steps: seq<Step>)
    requires w.hist != [] && AllGiven(w.hist) && Runs(w, steps)
    ensures AllGiven(After(w, steps).hist) <==> LateLeavesGiven(w, steps)
    decreases |steps|
  {
    if steps != [] {
      var w1 := Do(w, steps[0]);
      StepGivesIff(w, steps[0]);
      if AllGiven(w1.hist) {
        MaterialSurvivesIff(w1, steps[1..]);
      } else {
        HistStays(w1, steps[1..]);
        var i :| 0 <= i < |w1.hist| && !Given(w1.hist[i]);
        assert After(w, steps).hist[i] == w1.hist[i];
      }
    }
  }

  // --- What members at their floors are due ---

  /** Every state serves every member that has applied any state before it. */
  predicate Served(hist: seq<Slots>) {
    AllGiven(hist) && forall i, j :: 0 <= i < j < |hist| ==> Serves(hist[i], hist[j])
  }

  /** Each of the states is at the record of the one before it, s before the first, or at a newer one. */
  predicate Climb(s: Slots, states: seq<Slots>)
    decreases |states|
  {
    states == [] || (Rises(s, states[0]) && Climb(states[0], states[1..]))
  }

  lemma {:induction false} WritesClimb(s: Slots, ws: seq<CAWrite>, r: CARotation)
    requires forall i :: 0 <= i < |ws| && ws[i].SetRec? ==> ws[i].rec == r
    requires Newer(s, r)
    ensures Climb(s, States(s, ws))
    decreases |ws|
  {
    if ws != [] {
      var s1 := Put(s, ws[0]);
      WritesClimb(s1, ws[1..], r);
      assert States(s, ws) == [s1] + States(s1, ws[1..]);
    }
  }

  /** An operation on time writes the record after the one it read. */
  lemma OpClimbs(s: Slots, op: Op, landed: nat)
    requires landed <= |OpWrites(s, op)|
    ensures Climb(s, States(s, OpWrites(s, op)[..landed]))
  {
    var ws := OpWrites(s, op)[..landed];
    OpWritesOwnRec(s, op);
    if OpRec(s, op).Some? {
      WritesClimb(s, ws, OpRec(s, op).value);
    } else {
      NoWriteClimbs(s, ws);
    }
  }

  lemma {:induction false} NoWriteClimbs(s: Slots, ws: seq<CAWrite>)
    requires forall i :: 0 <= i < |ws| ==> !ws[i].SetRec?
    ensures Climb(s, States(s, ws))
    decreases |ws|
  {
    if ws != [] {
      NoWriteClimbs(Put(s, ws[0]), ws[1..]);
      assert States(s, ws) == [Put(s, ws[0])] + States(Put(s, ws[0]), ws[1..]);
    }
  }

  lemma ServesOneMore(hist: seq<Slots>, s: Slots)
    requires hist != [] && Served(hist) && Serves(hist[|hist| - 1], s)
    ensures Served(hist + [s])
  {
    var all, last := hist + [s], |hist| - 1;
    forall i, j | 0 <= i < j < |all| ensures Serves(all[i], all[j]) {
      if i < last && j > last {
        ServesOn(hist[i], hist[last], s);
      }
    }
  }

  lemma {:induction false} ServesMore(hist: seq<Slots>, states: seq<Slots>)
    requires hist != [] && Served(hist) && AllGiven(states) && Climb(hist[|hist| - 1], states)
    ensures Served(hist + states)
    decreases |states|
  {
    if states == [] {
      assert hist + states == hist;
    } else {
      ServesOneMore(hist, states[0]);
      ServesMore(hist + [states[0]], states[1..]);
      assert hist + [states[0]] + states[1..] == hist + states;
    }
  }

  lemma StepServesIff(w: World, s: Step)
    requires Served(w.hist) && Enabled(w, s)
    ensures Served(Do(w, s).hist) <==> (s.Late? ==> Harmless(Now(w), s.rest[0]))
  {
    match s
    case Lead(op, landed) =>
      OpGives(Now(w), op, landed);
      OpClimbs(Now(w), op, landed);
      ServesMore(w.hist, States(Now(w), OpWrites(Now(w), op)[..landed]));
    case Late(rest) =>
      var s1 := Put(Now(w), rest[0]);
      WriteKeepsIff(Now(w), rest[0]);
      if Harmless(Now(w), rest[0]) {
        ServesOneMore(w.hist, s1);
      } else {
        assert Do(w, s).hist[|w.hist|] == s1 && Do(w, s).hist[|w.hist| - 1] == Now(w);
        assert !Serves(Now(w), s1);
      }
  }

  /** Every late write of the run found a state it did no harm to. */
  predicate LateIsHarmless(w: World, steps: seq<Step>)
    requires Runs(w, steps)
    decreases |steps|
  {
    steps == [] ||
    ((steps[0].Late? ==> Harmless(Now(w), steps[0].rest[0])) && LateIsHarmless(Do(w, steps[0]), steps[1..]))
  }

  lemma ServedBefore(hist: seq<Slots>, hist': seq<Slots>)
    requires hist <= hist' && Served(hist')
    ensures Served(hist)
  {
    assert forall i :: 0 <= i < |hist| ==> hist[i] == hist'[i];
  }

  /**
   Along every such run every state serves every member at its floor — the records are one rising
   chain, and each one's CAs are there — if and only if every late write was harmless where it landed.
   */
  lemma {:induction false} MembersServedIff(w: World, steps: seq<Step>)
    requires w.hist != [] && Served(w.hist) && Runs(w, steps)
    ensures Served(After(w, steps).hist) <==> LateIsHarmless(w, steps)
    decreases |steps|
  {
    if steps != [] {
      var w1 := Do(w, steps[0]);
      StepServesIff(w, steps[0]);
      if Served(w1.hist) {
        MembersServedIff(w1, steps[1..]);
      } else {
        HistStays(w1, steps[1..]);
        if Served(After(w, steps).hist) {
          ServedBefore(w1.hist, After(w, steps).hist);
        }
      }
    }
  }

  // --- Late writes that do harm ---

  // A cluster before its first rotation.
  const S0 := Slots(Some("O"), Some("O"), None, None, None)
  const W0 := World([S0], {})

  /** A run from there comes to s, with owed still to land; whatever was late in it did no harm. */
  predicate ComesTo(steps: seq<Step>, s: Slots, owed: set<seq<CAWrite>>) {
    && Runs(W0, steps) && LateIsHarmless(W0, steps)
    && After(W0, steps).hist != [] && Now(After(W0, steps)) == s && After(W0, steps).owed == owed
  }

  lemma {:induction false} OneMore(w: World, steps: seq<Step>, s: Step)
    requires Runs(w, steps) && LateIsHarmless(w, steps) && Enabled(After(w, steps), s) && s.Lead?
    ensures Runs(w, steps + [s]) && LateIsHarmless(w, steps + [s]) && After(w, steps + [s]) == Do(After(w, steps), s)
    decreases |steps|
  {
    if steps == [] {
      assert [] + [s] == [s];
      assert Runs(Do(w, s), []) && LateIsHarmless(Do(w, s), []);
    } else {
      OneMore(Do(w, steps[0]), steps[1..], s);
      assert (steps + [s])[1..] == steps[1..] + [s];
    }
  }

  lemma Leads(steps: seq<Step>, s: Slots, owed: set<seq<CAWrite>>, op: Op, first: seq<CAWrite>, rest: seq<CAWrite>, s1: Slots)
    returns (more: seq<Step>)
    requires ComesTo(steps, s, owed) && OpWrites(s, op) == first + rest && first != [] && Final(s, first) == s1
    ensures ComesTo(more, s1, Owe(owed, rest))
  {
    assert (first + rest)[..|first|] == first && (first + rest)[|first|..] == rest;
    LastIsFinal(s, first);
    OneMore(W0, steps, Lead(op, |first|));
    more := steps + [Lead(op, |first|)];
  }

  // One member, as a leader has heard it.
  function Heard(trusts: seq<Pin>, cert: Pin): seq<CANode> { [CANode("m", true, true, true, true, trusts, cert, 0)] }

  const FIRST := CARotation(1, Trust, "O", "N", 0, DEFAULT_PHASE_TIMEOUT, NoReason)
  const BOTH := S0.(nextCert := Some("N"), nextKey := Some("N"))

  lemma FirstStarts() returns (steps: seq<Step>)
    ensures ComesTo(steps, BOTH.(rec := Some(FIRST)), {})
  {
    var op, ws := StartOp("N", Some("O"), true, 0, 0), [SetNextCert("N"), SetNextKey("N"), SetRec(FIRST)];
    assert OpWrites(S0, op) == ws + [];
    FinalOfThree(S0, ws);
    steps := Leads([], S0, {}, op, ws, [], BOTH.(rec := Some(FIRST)));
  }

  lemma FinalOfThree(s: Slots, ws: seq<CAWrite>)
    requires |ws| == 3
    ensures Final(s, ws) == Put(Put(Put(s, ws[0]), ws[1]), ws[2])
  {
    StatesOfThree(s, ws);
    LastIsFinal(s, ws);
  }

  lemma FinalOfTwo(s: Slots, ws: seq<CAWrite>)
    requires |ws| == 2
    ensures Final(s, ws) == Put(Put(s, ws[0]), ws[1])
  {
    assert Final(Put(s, ws[0]), ws[1..]) == Final(Put(Put(s, ws[0]), ws[1]), []);
  }

  // The operator stops it at once.
  const DROPPED := FIRST.(seqno := 2, phase := Drop, reason := ByOperator)
  const ABORTED := DROPPED.(seqno := 3, phase := Aborted)
  const ENDED := BOTH.(nextKey := None, rec := Some(ABORTED))
  const NEXT := CARotation(4, Trust, "O", "M", 0, DEFAULT_PHASE_TIMEOUT, NoReason)
  const STARTED := S0.(nextCert := Some("M"), nextKey := Some("M"), rec := Some(NEXT))

  lemma FirstIsDropped() returns (steps: seq<Step>)
    ensures ComesTo(steps, BOTH.(rec := Some(DROPPED)), {})
  {
    steps := FirstStarts();
    var s := BOTH.(rec := Some(FIRST));
    assert OpWrites(s, AbortOp(0)) == [SetRec(DROPPED)] + [];
    steps := Leads(steps, s, {}, AbortOp(0), [SetRec(DROPPED)], [], BOTH.(rec := Some(DROPPED)));
  }

  // Its end is cut before the last delete.
  lemma EndIsCut() returns (steps: seq<Step>)
    ensures ComesTo(steps, ENDED, {[DelNextCert]})
  {
    steps := FirstIsDropped();
    var s := BOTH.(rec := Some(DROPPED));
    var op, first := AdvanceOp(Heard(["O"], "O"), 0), [SetRec(ABORTED), DelNextKey];
    assert OpWrites(s, op) == first + [DelNextCert];
    FinalOfTwo(s, first);
    steps := Leads(steps, s, {}, op, first, [DelNextCert], ENDED);
  }

  /**
   The last delete of a rotation's end, made after another leader has started the next rotation, takes
   that one's CA out: its record is there, and no node is given anything.
   */
  lemma LateDeleteHurts() returns (steps: seq<Step>)
    ensures Runs(W0, steps) && LateIsHarmless(W0, steps) && Enabled(After(W0, steps), Late([DelNextCert]))
    ensures var w := Do(After(W0, steps), Late([DelNextCert]));
            w.hist != [] && Now(w).rec == Some(NEXT) && MaterialOf(Now(w)) == None
  {
    steps := EndIsCut();
    var op, ws := StartOp("M", Some("O"), true, 0, 0), [SetNextCert("M"), SetNextKey("M"), SetRec(NEXT)];
    assert OpWrites(ENDED, op) == ws + [];
    FinalOfThree(ENDED, ws);
    steps := Leads(steps, ENDED, {[DelNextCert]}, op, ws, [], STARTED);
  }

  // The first rotation goes on, and its promote is cut after its record.
  const REISSUED := FIRST.(seqno := 2, phase := Reissue)
  const PROMOTED := FIRST.(seqno := 3, phase := Promote)
  const COPY: seq<CAWrite> := [SetCert("N"), SetKey("N")]

  lemma FirstIsReissued() returns (steps: seq<Step>)
    ensures ComesTo(steps, BOTH.(rec := Some(REISSUED)), {})
  {
    steps := FirstStarts();
    var s, op := BOTH.(rec := Some(FIRST)), AdvanceOp(Heard(["O", "N"], "O"), 0);
    assert OpWrites(s, op) == [SetRec(REISSUED)] + [];
    steps := Leads(steps, s, {}, op, [SetRec(REISSUED)], [], BOTH.(rec := Some(REISSUED)));
  }

  lemma PromoteIsCut() returns (steps: seq<Step>)
    ensures ComesTo(steps, BOTH.(rec := Some(PROMOTED)), {COPY})
  {
    steps := FirstIsReissued();
    var s, op := BOTH.(rec := Some(REISSUED)), AdvanceOp(Heard(["O", "N"], "N"), 0);
    assert OpWrites(s, op) == [SetRec(PROMOTED)] + COPY;
    steps := Leads(steps, s, {}, op, [SetRec(PROMOTED)], COPY, BOTH.(rec := Some(PROMOTED)));
  }

  // The next advance finishes it, and is cut before it records done; another leader does.
  const DONE := FIRST.(seqno := 4, phase := Done)
  const DONE_TOO := DONE.(phaseAt := 1)
  const REST: seq<CAWrite> := [SetRec(DONE), DelNextKey, DelNextCert]
  const COPIED := Slots(Some("N"), Some("N"), Some("N"), Some("N"), Some(PROMOTED))
  const ON_NEW := Slots(Some("N"), Some("N"), None, None, Some(DONE_TOO))

  lemma DoneIsCut() returns (steps: seq<Step>)
    ensures ComesTo(steps, COPIED, {COPY, REST})
  {
    steps := PromoteIsCut();
    var s, op := BOTH.(rec := Some(PROMOTED)), AdvanceOp(Heard(["N"], "N"), 0);
    assert OpWrites(s, op) == COPY + REST;
    FinalOfTwo(s, COPY);
    steps := Leads(steps, s, {COPY}, op, COPY, REST, COPIED);
    assert Owe({COPY}, REST) == {COPY, REST};
  }

  lemma OtherIsDone() returns (steps: seq<Step>)
    ensures ComesTo(steps, ON_NEW, {COPY, REST})
  {
    steps := DoneIsCut();
    var op, ws := AdvanceOp(Heard(["N"], "N"), 1), [SetRec(DONE_TOO), DelNextKey, DelNextCert];
    assert OpWrites(COPIED, op) == ws + [];
    FinalOfThree(COPIED, ws);
    steps := Leads(steps, COPIED, {COPY, REST}, op, ws, [], ON_NEW);
  }

  const SECOND := CARotation(5, Trust, "N", "M", 1, DEFAULT_PHASE_TIMEOUT, NoReason)
  const STARTED_AGAIN := Slots(Some("N"), Some("N"), Some("M"), Some("M"), Some(SECOND))

  /**
   An end's record that lands after another leader has ended the rotation and started the next: its
   CAs are there and nodes are given what it says, but it takes the record back, and a manager that
   has applied the newer one is due nothing.
   */
  lemma LateRecordFalls() returns (steps: seq<Step>)
    ensures Runs(W0, steps) && LateIsHarmless(W0, steps) && Enabled(After(W0, steps), Late(REST))
    ensures Now(After(W0, steps)).rec == Some(SECOND) && LeavesGiven(Now(After(W0, steps)), REST[0])
    ensures var w := Do(After(W0, steps), Late(REST));
            && w.hist != [] && Now(w).rec == Some(DONE)
            && forall n: CANodes.Running :: n.floor == SECOND.seqno ==>
                 CANodes.Due(n, Now(After(W0, steps))).Some? && CANodes.Due(n, Now(w)) == None
  {
    steps := OtherIsDone();
    var op, ws := StartOp("M", Some("N"), true, 0, 1), [SetNextCert("M"), SetNextKey("M"), SetRec(SECOND)];
    assert OpWrites(ON_NEW, op) == ws + [];
    FinalOfThree(ON_NEW, ws);
    steps := Leads(steps, ON_NEW, {COPY, REST}, op, ws, [], STARTED_AGAIN);
    assert STARTED_AGAIN.rec == Some(SECOND);
  }
}
