/**
 The leader's half of a CA rotation (internal/cluster/ca_rotation_leader.go): the writes each of its
 operations makes to replicated state, in order, any first part of which may be all that lands.
 */
module CALeader {
  import opened Options
  import opened CARecord

  const MIN_PHASE_TIMEOUT := 300
  const MAX_PHASE_TIMEOUT := 86_400
  const DEFAULT_PHASE_TIMEOUT := 1_800

  datatype CAWrite =
    | SetCert(pin: Pin) | SetKey(pin: Pin)
    | SetNextCert(pin: Pin) | SetNextKey(pin: Pin)
    | DelNextCert | DelNextKey
    | SetRec(rec: CARotation)

  function Put(s: Slots, w: CAWrite): Slots {
    match w
    case SetCert(p) => s.(cert := Some(p))
    case SetKey(p) => s.(key := Some(p))
    case SetNextCert(p) => s.(nextCert := Some(p))
    case SetNextKey(p) => s.(nextKey := Some(p))
    case DelNextCert => s.(nextCert := None)
    case DelNextKey => s.(nextKey := None)
    case SetRec(r) => s.(rec := Some(r))
  }

  /** The states replicated state goes through as ws land on s, one after each write. */
  function States(s: Slots, ws: seq<CAWrite>): (states: seq<Slots>)
    ensures |states| == |ws|
    decreases |ws|
  {
    if ws == [] then [] else [Put(s, ws[0])] + States(Put(s, ws[0]), ws[1..])
  }

  function Final(s: Slots, ws: seq<CAWrite>): Slots
    decreases |ws|
  {
    if ws == [] then s else Final(Put(s, ws[0]), ws[1..])
  }

  lemma StatesConcat(s: Slots, a: seq<CAWrite>, b: seq<CAWrite>)
    ensures States(s, a + b) == States(s, a) + States(Final(s, a), b)
    ensures Final(s, a + b) == Final(Final(s, a), b)
    decreases |a|
  {
    if a == [] {
      assert a + b == b;
    } else {
      assert (a + b)[1..] == a[1..] + b;
      StatesConcat(Put(s, a[0]), a[1..], b);
    }
  }

  lemma {:induction false} LastIsFinal(s: Slots, ws: seq<CAWrite>)
    ensures Final(s, ws) == if ws == [] then s else States(s, ws)[|ws| - 1]
    decreases |ws|
  {
    if ws != [] {
      LastIsFinal(Put(s, ws[0]), ws[1..]);
    }
  }

  lemma StatesOfThree(s: Slots, ws: seq<CAWrite>)
    requires |ws| == 3
    ensures var s1 := Put(s, ws[0]); var s2 := Put(s1, ws[1]); States(s, ws) == [s1, s2, Put(s2, ws[2])]
  {
    var s1 := Put(s, ws[0]);
    assert States(s, ws) == [s1] + States(s1, ws[1..]);
    assert States(s1, ws[1..]) == [Put(s1, ws[1])] + States(Put(s1, ws[1]), ws[1..][1..]);
  }

  /** An operation of the leader, with what it takes from outside replicated state. */
  datatype Op =
    | StartOp(next: Pin, onDisk: Option<Pin>, ready: bool, timeout: int, now: int)
    | AdvanceOp(nodes: seq<CANode>, now: int)
    | AbortOp(now: int)

  function Timeout(asked: int): int {
    if asked == 0 then DEFAULT_PHASE_TIMEOUT else asked
  }

  /**
   Every gate of a start. ready stands for the two that read other state: the proxy secret settled,
   and every other node online on a release that follows a rotation.
   */
  predicate CanStart(s: Slots, onDisk: Option<Pin>, ready: bool, timeout: int) {
    && (s.rec.Some? ==> !s.rec.value.Active())
    && ready
    && MaterialOf(s).Some? && CurrentIs(s, MaterialOf(s).value.disk)
    && onDisk == Some(MaterialOf(s).value.disk)
    && MIN_PHASE_TIMEOUT <= Timeout(timeout) <= MAX_PHASE_TIMEOUT
  }

  function StartRec(s: Slots, next: Pin, timeout: int, now: int): CARotation
    requires MaterialOf(s).Some?
  {
    CARotation(if s.rec.Some? then s.rec.value.seqno + 1 else 1, Trust, MaterialOf(s).value.disk, next,
               now, Timeout(timeout), NoReason)
  }

  /** writeNextCAAsTheClusters, by the state read: None when the next CA is nowhere to be found. */
  function PromoteWrites(read: Slots, r: CARotation): Option<seq<CAWrite>> {
    if CurrentIs(read, r.nextPin) then Some([])
    else if !NextIs(read, r.nextPin) then None
    else Some((if read.cert == Some(r.nextPin) then [] else [SetCert(r.nextPin)])
              + (if read.key == Some(r.nextPin) then [] else [SetKey(r.nextPin)]))
  }

  /** removeNextCA, by the state read: the key first. */
  function RemoveWrites(read: Slots): seq<CAWrite> {
    (if read.nextKey.Some? then [DelNextKey] else []) + (if read.nextCert.Some? then [DelNextCert] else [])
  }

  function NextRec(r: CARotation, phase: Phase, reason: Reason, now: int): CARotation {
    r.(seqno := r.seqno + 1, phase := phase, phaseAt := now, reason := if reason == NoReason then r.reason else reason)
  }

  function StepReason(r: CARotation, nodes: seq<CANode>, now: int): Reason {
    if Decision(r, nodes, now) == None || AllReady(r, nodes) then NoReason else TimedOut(r.phase)
  }

  /** What an advance that records phase next writes: the record, and what the phase leaves for after it. */
  function StepWrites(read: Slots, next: CARotation): seq<CAWrite> {
    [SetRec(next)]
    + (if next.phase == Promote then
         (match PromoteWrites(read, next) case Some(ws) => ws case None => [])
       else if next.Ended() then RemoveWrites(read)
       else [])
  }

  /** What a step left for after its record, when a leader stopped before it. */
  function Unfinished(s: Slots, r: CARotation): Option<seq<CAWrite>> {
    if r.phase == Promote || r.phase == Done then PromoteWrites(s, r) else Some([])
  }

  function MoveWrites(s: Slots, r: CARotation, nodes: seq<CANode>, now: int): seq<CAWrite> {
    if r.Ended() then RemoveWrites(s)
    else match Decision(r, nodes, now)
         case None => []
         case Some(phase) => StepWrites(s, NextRec(r, phase, StepReason(r, nodes, now), now))
  }

  function AdvanceWrites(s: Slots, nodes: seq<CANode>, now: int): seq<CAWrite> {
    if s.rec == None || Unfinished(s, s.rec.value) == None then []
    else Unfinished(s, s.rec.value).value + MoveWrites(s, s.rec.value, nodes, now)
  }

  function OpWrites(s: Slots, op: Op): seq<CAWrite> {
    match op
    case StartOp(next, onDisk, ready, timeout, now) =>
      if CanStart(s, onDisk, ready, timeout)
      then [SetNextCert(next), SetNextKey(next), SetRec(StartRec(s, next, timeout, now))] else []
    case AdvanceOp(nodes, now) => AdvanceWrites(s, nodes, now)
    case AbortOp(now) =>
      if AbortPhase(s.rec).To? then [SetRec(NextRec(s.rec.value, AbortPhase(s.rec).phase, ByOperator, now))] else []
  }

  // --- What every state on the way holds ---

  /** Replicated state holds every CA its record needs, whichever write came last. */
  predicate Complete(s: Slots) {
    match s.rec
    case None => s.cert.Some? && s.key == s.cert
    case Some(r) =>
      && r.oldPin != r.nextPin && r.seqno > 0
      && match r.phase
         case Trust | Reissue | Rollback | Drop => CurrentIs(s, r.oldPin) && NextIs(s, r.nextPin)
         case Promote =>
           && NextIs(s, r.nextPin)
           && (s.cert == Some(r.oldPin) || s.cert == Some(r.nextPin))
           && (s.key == Some(r.oldPin) || s.key == Some(r.nextPin))
         case Done => CurrentIs(s, r.nextPin)
         case Aborted => CurrentIs(s, r.oldPin)
         case Unknown => false
  }

  /** A state that holds its record's CAs gives a node exactly the phase table's material. */
  lemma CompleteGivesTable(s: Slots)
    requires Complete(s)
    ensures s.rec.Some? ==> MaterialOf(s) == Some(Table(s.rec.value))
    ensures s.rec == None ==> MaterialOf(s) == Some(Material(0, s.cert.value, s.cert.value, [s.cert.value]))
  {
  }

  /** The record an operation writes, if it writes one. */
  function OpRec(s: Slots, op: Op): Option<CARotation> {
    match op
    case StartOp(next, onDisk, ready, timeout, now) =>
      if CanStart(s, onDisk, ready, timeout) then Some(StartRec(s, next, timeout, now)) else None
    case AdvanceOp(nodes, now) =>
      if s.rec == None || s.rec.value.Ended() then None
      else (match Decision(s.rec.value, nodes, now)
            case None => None
            case Some(phase) => Some(NextRec(s.rec.value, phase, StepReason(s.rec.value, nodes, now), now)))
    case AbortOp(now) =>
      if AbortPhase(s.rec).To? then Some(NextRec(s.rec.value, AbortPhase(s.rec).phase, ByOperator, now)) else None
  }

  /** A start's CA is one never seen before. */
  predicate FreshCA(s: Slots, op: Op) {
    op.StartOp? ==> MaterialOf(s).Some? ==> op.next != MaterialOf(s).value.disk
  }

  predicate AllComplete(states: seq<Slots>) {
    forall i :: 0 <= i < |states| ==> Complete(states[i])
  }

  /** The states' record is before up to the k-th and after from it on. */
  predicate TurnsAt(states: seq<Slots>, before: Option<CARotation>, after: Option<CARotation>, k: nat) {
    && k <= |states|
    && (forall i :: 0 <= i < k ==> states[i].rec == before)
    && (forall i :: k <= i < |states| ==> states[i].rec == after)
  }

  lemma PromoteLands(s: Slots, read: Slots, r: CARotation)
    requires Complete(s) && s.rec == Some(r) && (r.phase == Promote || r.phase == Done)
    requires read.(rec := None) == s.(rec := None)
    ensures PromoteWrites(read, r).Some?
    ensures var ws := PromoteWrites(read, r).value;
            && AllComplete(States(s, ws)) && Final(s, ws) == s.(cert := Some(r.nextPin), key := Some(r.nextPin))
            && (forall i :: 0 <= i < |ws| ==> States(s, ws)[i].rec == s.rec)
  {
    var ws := PromoteWrites(read, r).value;
    if |ws| == 2 {
      StatesConcat(s, [ws[0]], [ws[1]]);
      assert ws == [ws[0]] + [ws[1]];
    }
  }

  lemma RemoveLands(s: Slots, read: Slots)
    requires Complete(s) && s.rec.Some? && s.rec.value.Ended()
    ensures AllComplete(States(s, RemoveWrites(read)))
    ensures forall i :: 0 <= i < |RemoveWrites(read)| ==> States(s, RemoveWrites(read))[i].rec == s.rec
  {
    var ws := RemoveWrites(read);
    if |ws| == 2 {
      StatesConcat(s, [ws[0]], [ws[1]]);
      assert ws == [ws[0]] + [ws[1]];
    }
  }

  lemma StepLands(s: Slots, read: Slots, next: CARotation)
    requires Complete(s) && s.rec.Some? && read.rec == s.rec
    requires Steps(s.rec.value.phase, next.phase) && next.seqno > 0
    requires next.oldPin == s.rec.value.oldPin && next.nextPin == s.rec.value.nextPin
    requires s.rec.value.phase == Promote ==> CurrentIs(s, next.nextPin)
    requires s.rec.value.phase != Promote ==> read == s
    ensures AllComplete(States(s, StepWrites(read, next)))
    ensures forall i :: 0 <= i < |StepWrites(read, next)| ==> States(s, StepWrites(read, next))[i].rec == Some(next)
  {
    var s1 := Put(s, SetRec(next));
    assert Complete(s1);
    var after := StepWrites(read, next)[1..];
    if next.phase == Promote {
      PromoteLands(s1, read, next);
    } else if next.Ended() {
      RemoveLands(s1, read);
    }
    assert States(s, StepWrites(read, next)) == [s1] + States(s1, after);
  }

  /**
   Whatever part of an operation's writes lands, every state on the way holds all its record names,
   and the record turns at most once, to the one the operation writes.
   */
  lemma OpKeepsComplete(s: Slots, op: Op)
    requires Complete(s) && FreshCA(s, op)
    ensures AllComplete(States(s, OpWrites(s, op)))
    ensures s.rec == None ==> forall i :: 0 <= i < |OpWrites(s, op)| ==> States(s, OpWrites(s, op))[i].cert == s.cert
    ensures var states := States(s, OpWrites(s, op));
            if OpRec(s, op) == None then forall i :: 0 <= i < |states| ==> states[i].rec == s.rec
            else exists k :: 0 <= k < |states| && TurnsAt(states, s.rec, OpRec(s, op), k)
  {
    CompleteGivesTable(s);
    match op
    case StartOp(next, onDisk, ready, timeout, now) =>
      if CanStart(s, onDisk, ready, timeout) {
        var ws := OpWrites(s, op);
        var s1 := Put(s, ws[0]);
        var s2 := Put(s1, ws[1]);
        var s3 := Put(s2, ws[2]);
        StatesOfThree(s, ws);
        assert TurnsAt(States(s, ws), s.rec, OpRec(s, op), 2);
      }
    case AdvanceOp(nodes, now) => AdvanceKeepsComplete(s, nodes, now);
    case AbortOp(now) =>
      if AbortPhase(s.rec).To? {
        StepLands(s, s, OpRec(s, op).value);
        assert StepWrites(s, OpRec(s, op).value) == OpWrites(s, op);
        assert TurnsAt(States(s, OpWrites(s, op)), s.rec, OpRec(s, op), 0);
      }
  }

  /** What a cut step left undone is done without turning the record. */
  lemma UnfinishedLands(s: Slots, r: CARotation)
    requires Complete(s) && s.rec == Some(r)
    ensures Unfinished(s, r).Some?
    ensures var ws := Unfinished(s, r).value;
            && AllComplete(States(s, ws)) && TurnsAt(States(s, ws), s.rec, s.rec, 0)
            && Complete(Final(s, ws)) && Final(s, ws).rec == s.rec
            && (r.phase == Promote ==> CurrentIs(Final(s, ws), r.nextPin))
            && (r.phase != Promote && r.phase != Done ==> ws == [])
  {
    if r.phase == Promote || r.phase == Done {
      PromoteLands(s, s, r);
    }
  }

  lemma OneThenOther(s: Slots, a: seq<CAWrite>, b: seq<CAWrite>, before: Option<CARotation>, after: Option<CARotation>)
    requires AllComplete(States(s, a)) && TurnsAt(States(s, a), before, before, 0)
    requires AllComplete(States(Final(s, a), b)) && TurnsAt(States(Final(s, a), b), after, after, 0)
    ensures AllComplete(States(s, a + b)) && TurnsAt(States(s, a + b), before, after, |a|)
  {
    StatesConcat(s, a, b);
  }

  lemma AdvanceKeepsComplete(s: Slots, nodes: seq<CANode>, now: int)
    requires Complete(s)
    ensures AllComplete(States(s, AdvanceWrites(s, nodes, now)))
    ensures var states, rec := States(s, AdvanceWrites(s, nodes, now)), OpRec(s, AdvanceOp(nodes, now));
            if rec == None then forall i :: 0 <= i < |states| ==> states[i].rec == s.rec
            else exists k :: 0 <= k < |states| && TurnsAt(states, s.rec, rec, k)
  {
    if s.rec.Some? {
      var r := s.rec.value;
      UnfinishedLands(s, r);
      var first, move := Unfinished(s, r).value, MoveWrites(s, r, nodes, now);
      var s1 := Final(s, first);
      if r.Ended() {
        RemoveLands(s1, s);
        OneThenOther(s, first, move, s.rec, s.rec);
      } else if Decision(r, nodes, now).Some? {
        var next := OpRec(s, AdvanceOp(nodes, now)).value;
        StepLands(s1, s, next);
        OneThenOther(s, first, move, s.rec, Some(next));
        assert TurnsAt(States(s, AdvanceWrites(s, nodes, now)), s.rec, Some(next), |first|);
      } else {
        assert move == [];
        OneThenOther(s, first, move, s.rec, s.rec);
      }
    }
  }

  /**
   A delete of an ended rotation's next CA that lands late — after another leader has gone on — takes
   away what nodes need exactly when the state's record still reads the next CA there.
   */
  lemma LateDeleteIff(s: Slots, late: CAWrite)
    requires Complete(s) && (late == DelNextKey || late == DelNextCert)
    ensures MaterialOf(Put(s, late)) == MaterialOf(s) <==>
              || s.rec == None || s.rec.value.phase == Drop || s.rec.value.Ended()
              || (s.rec.value.phase == Promote && CurrentIs(s, s.rec.value.nextPin))
    ensures MaterialOf(Put(s, late)) != MaterialOf(s) ==> MaterialOf(Put(s, late)) == None
  {
    CompleteGivesTable(s);
  }

  /** However many of an operation's writes land before the leader stops. */
  lemma LandedComplete(s: Slots, op: Op, landed: nat)
    requires Complete(s) && FreshCA(s, op) && landed <= |OpWrites(s, op)|
    ensures AllComplete(States(s, OpWrites(s, op)[..landed]))
    ensures States(s, OpWrites(s, op)[..landed]) == States(s, OpWrites(s, op))[..landed]
  {
    var ws := OpWrites(s, op);
    OpKeepsComplete(s, op);
    StatesConcat(s, ws[..landed], ws[landed..]);
    assert ws == ws[..landed] + ws[landed..];
    var part, whole := States(s, ws[..landed]), States(s, ws);
    assert forall i :: 0 <= i < |part| ==> part[i] == whole[i];
  }

  /** After ws the record is the one before, or r and then r to the end. */
  predicate TurnsOnce(before: Option<CARotation>, states: seq<Slots>, r: CARotation) {
    forall i :: 0 <= i < |states| ==>
      states[i].rec == before || (states[i].rec == Some(r) && states[|states| - 1].rec == Some(r))
  }

  lemma {:induction false} RecTurnsOnce(s: Slots, ws: seq<CAWrite>, r: CARotation)
    requires forall i :: 0 <= i < |ws| && ws[i].SetRec? ==> ws[i].rec == r
    ensures TurnsOnce(s.rec, States(s, ws), r)
    decreases |ws|
  {
    if ws != [] {
      var s1 := Put(s, ws[0]);
      RecTurnsOnce(s1, ws[1..], r);
      assert States(s, ws) == [s1] + States(s1, ws[1..]);
    }
  }

  lemma {:induction false} NoRecNoTurn(s: Slots, ws: seq<CAWrite>)
    requires forall i :: 0 <= i < |ws| ==> !ws[i].SetRec?
    ensures forall i :: 0 <= i < |ws| ==> States(s, ws)[i].rec == s.rec
    decreases |ws|
  {
    if ws != [] {
      NoRecNoTurn(Put(s, ws[0]), ws[1..]);
      assert States(s, ws) == [Put(s, ws[0])] + States(Put(s, ws[0]), ws[1..]);
    }
  }

  lemma {:induction false} NoCertNoChange(s: Slots, ws: seq<CAWrite>)
    requires forall i :: 0 <= i < |ws| ==> !ws[i].SetCert?
    ensures forall i :: 0 <= i < |ws| ==> States(s, ws)[i].cert == s.cert
    decreases |ws|
  {
    if ws != [] {
      NoCertNoChange(Put(s, ws[0]), ws[1..]);
      assert States(s, ws) == [Put(s, ws[0])] + States(Put(s, ws[0]), ws[1..]);
    }
  }

  /** The one record among an operation's writes is its own; before a first record it leaves the cluster's certificate. */
  lemma OpWritesOwnRec(s: Slots, op: Op)
    ensures forall i :: 0 <= i < |OpWrites(s, op)| && OpWrites(s, op)[i].SetRec? ==> OpRec(s, op) == Some(OpWrites(s, op)[i].rec)
    ensures s.rec == None ==> forall i :: 0 <= i < |OpWrites(s, op)| ==> !OpWrites(s, op)[i].SetCert?
  {
  }

  /** From s on, each of the states shows s's record, or r and then the last does too. */
  predicate Turns(s: Slots, states: seq<Slots>, r: Option<CARotation>) {
    forall i :: 0 <= i < |states| ==>
      || (states[i].rec == s.rec && (s.rec == None ==> states[i].cert == s.cert))
      || (r.Some? && states[i].rec == r == states[|states| - 1].rec)
  }

  /** Whatever the slots hold, each state that lands shows the record before or the operation's, and then that to the end. */
  lemma LandedTurns(s: Slots, op: Op, landed: nat)
    requires landed <= |OpWrites(s, op)|
    ensures Turns(s, States(s, OpWrites(s, op)[..landed]), OpRec(s, op))
  {
    var ws := OpWrites(s, op)[..landed];
    OpWritesOwnRec(s, op);
    if OpRec(s, op).Some? {
      RecTurnsOnce(s, ws, OpRec(s, op).value);
    } else {
      NoRecNoTurn(s, ws);
    }
    if s.rec == None {
      NoCertNoChange(s, ws);
    }
  }

  // --- The leader's manager ---

  /**
   The leader's manager and the replicated keys of a rotation. budget is how many writes land before
   it stops; trail is every state since.
   */
  class LeaderCA {
    var slots: Slots
    var budget: nat
    ghost var trail: seq<Slots>

    constructor (slots: Slots, budget: nat)
      ensures this.slots == slots && this.budget == budget && trail == []
    {
      this.slots, this.budget, this.trail := slots, budget, [];
    }

    method Commit(w: CAWrite) returns (ok: bool)
      modifies this
      ensures ok == (old(budget) > 0) && budget == (if ok then old(budget) - 1 else 0)
      ensures slots == if ok then Put(old(slots), w) else old(slots)
      ensures trail == if ok then old(trail) + [slots] else old(trail)
    {
      if budget == 0 {
        return false;
      }
      budget := budget - 1;
      slots := Put(slots, w);
      trail := trail + [slots];
      return true;
    }

    /**
     What ws[..landed] makes of the state this began in, when every write but those past the budget
     lands.
     */
    ghost predicate Made(start: Slots, given: nat, before: seq<Slots>, ws: seq<CAWrite>)
      reads this
    {
      var landed := if given < |ws| then ws[..given] else ws;
      && trail == before + States(start, landed) && slots == Final(start, landed) && budget == given - |landed|
    }

    lemma MadeMore(start: Slots, given: nat, before: seq<Slots>, a: seq<CAWrite>, middle: seq<Slots>, b: seq<CAWrite>)
      requires given >= |a| && middle == before + States(start, a)
      requires Made(Final(start, a), given - |a|, middle, b)
      ensures Made(start, given, before, a + b)
    {
      var landed := if given - |a| < |b| then b[..given - |a|] else b;
      StatesConcat(start, a, landed);
      assert (if given < |a + b| then (a + b)[..given] else a + b) == a + landed;
    }

    lemma MadePart(start: Slots, given: nat, before: seq<Slots>, a: seq<CAWrite>, b: seq<CAWrite>)
      requires given < |a| && Made(start, given, before, a)
      ensures Made(start, given, before, a + b)
    {
      assert (a + b)[..given] == a[..given];
    }

    method Write(w: CAWrite) returns (ok: bool)
      modifies this
      ensures ok == (old(budget) >= 1) && Made(old(slots), old(budget), old(trail), [w])
    {
      ok := Commit(w);
      assert [w][..0] == [] && States(old(slots), [w]) == [Put(old(slots), w)];
    }

    /** Two writes, the second only once the first has landed; either may be left out. */
    method WriteTwo(first: Option<CAWrite>, second: Option<CAWrite>) returns (ok: bool)
      modifies this
      ensures var ws := (if first.Some? then [first.value] else []) + (if second.Some? then [second.value] else []);
              ok == (old(budget) >= |ws|) && Made(old(slots), old(budget), old(trail), ws)
    {
      ghost var a := if first.Some? then [first.value] else [];
      ghost var b := if second.Some? then [second.value] else [];
      ok := true;
      if first.Some? {
        ok := Write(first.value);
        if !ok {
          MadePart(old(slots), old(budget), old(trail), a, b);
          return;
        }
      }
      ghost var middle := trail;
      if second.Some? {
        ok := Write(second.value);
      }
      MadeMore(old(slots), old(budget), old(trail), a, middle, b);
    }

    /** writeNextCAAsTheClusters, by the state read. */
    method WriteNextCAAsTheClusters(read: Slots, r: CARotation) returns (ok: bool)
      modifies this
      ensures PromoteWrites(read, r) == None ==> !ok && slots == old(slots) && trail == old(trail) && budget == old(budget)
      ensures PromoteWrites(read, r).Some? ==>
                && ok == (old(budget) >= |PromoteWrites(read, r).value|)
                && Made(old(slots), old(budget), old(trail), PromoteWrites(read, r).value)
    {
      if read.cert == Some(r.nextPin) && read.key == Some(r.nextPin) {
        return true;
      }
      if !(read.nextCert == Some(r.nextPin) && read.nextKey == Some(r.nextPin)) {
        return false;
      }
      ok := WriteTwo(if read.cert == Some(r.nextPin) then None else Some(SetCert(r.nextPin)),
                     if read.key == Some(r.nextPin) then None else Some(SetKey(r.nextPin)));
    }

    /** removeNextCA, by the state read. */
    method RemoveNextCA(read: Slots) returns (ok: bool)
      modifies this
      ensures ok == (old(budget) >= |RemoveWrites(read)|)
      ensures Made(old(slots), old(budget), old(trail), RemoveWrites(read))
    {
      ok := WriteTwo(if read.nextKey.Some? then Some(DelNextKey) else None,
                     if read.nextCert.Some? then Some(DelNextCert) else None);
    }

    /** Starts a rotation to the CA next, just made; onDisk is the first CA of this leader's ca.crt. */
    method StartCARotation(next: Pin, onDisk: Option<Pin>, ready: bool, timeout: int, now: int)
      returns (started: Option<CARotation>)
      modifies this
      ensures Made(old(slots), old(budget), old(trail), OpWrites(old(slots), StartOp(next, onDisk, ready, timeout, now)))
      ensures started == if old(budget) >= 3 then OpRec(old(slots), StartOp(next, onDisk, ready, timeout, now)) else None
    {
      ghost var op := StartOp(next, onDisk, ready, timeout, now);
      started := None;
      if slots.rec.Some? && slots.rec.value.Active() {
        return;
      }
      if !ready {
        return;
      }
      var mat := MaterialOf(slots);
      if mat == None {
        return;
      }
      var cur := mat.value.disk;
      if !CurrentIs(slots, cur) || onDisk != Some(cur) {
        return;
      }
      var phaseTimeout := if timeout == 0 then DEFAULT_PHASE_TIMEOUT else timeout;
      if phaseTimeout < MIN_PHASE_TIMEOUT || phaseTimeout > MAX_PHASE_TIMEOUT {
        return;
      }
      var seqno := if slots.rec.Some? then slots.rec.value.seqno else 0;
      var rec := CARotation(seqno + 1, Trust, cur, next, now, phaseTimeout, NoReason);
      assert OpWrites(slots, op) == [SetNextCert(next), SetNextKey(next), SetRec(rec)];
      var ok := WriteStart(next, rec);
      if ok {
        started := Some(rec);
      }
    }

    /** The next CA before the record that names it. */
    method WriteStart(next: Pin, rec: CARotation) returns (ok: bool)
      modifies this
      ensures ok == (old(budget) >= 3)
      ensures Made(old(slots), old(budget), old(trail), [SetNextCert(next), SetNextKey(next), SetRec(rec)])
    {
      ghost var ws, rest := [SetNextCert(next), SetNextKey(next)], [SetRec(rec)];
      assert ws + rest == [SetNextCert(next), SetNextKey(next), SetRec(rec)];
      ok := WriteTwo(Some(SetNextCert(next)), Some(SetNextKey(next)));
      if !ok {
        MadePart(old(slots), old(budget), old(trail), ws, rest);
        return;
      }
      ghost var middle := trail;
      ok := Write(SetRec(rec));
      MadeMore(old(slots), old(budget), old(trail), ws, middle, rest);
    }

    /** Moves the rotation on by one step, after what the last step left unfinished. */
    method AdvanceCARotation(nodes: seq<CANode>, now: int) returns (ok: bool)
      modifies this
      ensures Made(old(slots), old(budget), old(trail), OpWrites(old(slots), AdvanceOp(nodes, now)))
      ensures ok ==> old(budget) >= |OpWrites(old(slots), AdvanceOp(nodes, now))|
    {
      var read := slots;
      if read.rec == None {
        return true;
      }
      var r := read.rec.value;
      ok := FinishStep(read, r);
      if Unfinished(read, r) == None {
        return false;
      }
      ghost var first, rest := Unfinished(read, r).value, MoveWrites(read, r, nodes, now);
      if !ok {
        MadePart(old(slots), old(budget), old(trail), first, rest);
        return;
      }
      ghost var middle := trail;
      ok := Move(read, r, nodes, now);
      MadeMore(old(slots), old(budget), old(trail), first, middle, rest);
    }

    method FinishStep(read: Slots, r: CARotation) returns (ok: bool)
      modifies this
      ensures Unfinished(read, r) == None ==> !ok && slots == old(slots) && trail == old(trail) && budget == old(budget)
      ensures Unfinished(read, r).Some? ==>
                && Made(old(slots), old(budget), old(trail), Unfinished(read, r).value)
                && ok == (old(budget) >= |Unfinished(read, r).value|)
    {
      ok := true;
      if r.phase == Promote || r.phase == Done {
        ok := WriteNextCAAsTheClusters(read, r);
      }
    }

    method Move(read: Slots, r: CARotation, nodes: seq<CANode>, now: int) returns (ok: bool)
      modifies this
      ensures Made(old(slots), old(budget), old(trail), MoveWrites(read, r, nodes, now))
      ensures ok ==> old(budget) >= |MoveWrites(read, r, nodes, now)|
    {
      if r.phase == Done || r.phase == Aborted {
        ok := RemoveNextCA(read);
        return;
      }
      var step := NextCAStep(r, nodes, now);
      if step.next == None {
        return true;
      }
      var reason := if step.reason != NoReason then step.reason else r.reason;
      var next := r.(seqno := r.seqno + 1, phase := step.next.value, phaseAt := now, reason := reason);
      ok := RecordStep(read, next);
    }

    /** Writes the record of a step, and after it what the phase leaves for then. */
    method RecordStep(read: Slots, next: CARotation) returns (ok: bool)
      modifies this
      ensures Made(old(slots), old(budget), old(trail), StepWrites(read, next))
      ensures ok ==> old(budget) >= |StepWrites(read, next)|
    {
      ghost var rest := StepWrites(read, next)[1..];
      ok := Write(SetRec(next));
      if !ok {
        MadePart(old(slots), old(budget), old(trail), [SetRec(next)], rest);
        return;
      }
      ghost var middle := trail;
      match next.phase {
        case Promote => ok := WriteNextCAAsTheClusters(read, next);
        case Done | Aborted => ok := RemoveNextCA(read);
        case _ =>
      }
      MadeMore(old(slots), old(budget), old(trail), [SetRec(next)], middle, rest);
    }

    /** Stops the rotation before its point of no return. */
    method AbortCARotation(now: int) returns (result: AbortResult)
      modifies this
      ensures Made(old(slots), old(budget), old(trail), OpWrites(old(slots), AbortOp(now)))
      ensures result == AbortPhase(old(slots).rec)
    {
      result := AbortPhase(slots.rec);
      if result.To? {
        var r := slots.rec.value;
        var next := r.(seqno := r.seqno + 1, phase := result.phase, phaseAt := now, reason := ByOperator);
        var _ := Write(SetRec(next));
      }
    }
  }
}
