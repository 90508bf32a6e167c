/**
 The record of a CA rotation and the decision at each of its steps (internal/cluster/ca_rotation.go).
 A CA is its pin; a certificate slot and a key slot of replicated state hold the pins of what is
 there, and name a CA when both are of it.
 */
module CARecord {
  import opened Options

  type Pin = string

  datatype Phase = Trust | Reissue | Promote | Done | Rollback | Drop | Aborted | Unknown

  datatype Reason = NoReason | ByOperator | TimedOut(phase: Phase)

  datatype CARotation = CARotation(
    seqno: nat, phase: Phase, oldPin: Pin, nextPin: Pin,
    phaseAt: int, phaseTimeout: int, reason: Reason)
  {
    /** Whether the rotation is under way. */
    predicate Active() {
      phase == Trust || phase == Reissue || phase == Promote || phase == Rollback || phase == Drop
    }

    predicate Ended() { phase == Done || phase == Aborted }
  }

  /** The five replicated keys of a CA rotation. */
  datatype Slots = Slots(cert: Option<Pin>, key: Option<Pin>, nextCert: Option<Pin>, nextKey: Option<Pin>,
                         rec: Option<CARotation>)

  /** namedCA: the pair is there, and is the CA pin names. */
  predicate Named(cert: Option<Pin>, key: Option<Pin>, pin: Pin) {
    cert == Some(pin) && key == Some(pin)
  }

  predicate CurrentIs(s: Slots, pin: Pin) { Named(s.cert, s.key, pin) }

  predicate NextIs(s: Slots, pin: Pin) { Named(s.nextCert, s.nextKey, pin) }

  /** The CAs a node holds in a phase: which signs, which ca.crt starts with, and those to trust. */
  datatype Material = Material(seqno: nat, sign: Pin, disk: Pin, trust: seq<Pin>)

  /** caMaterialOf: what replicated state has a node hold; None when it names a CA that is not there. */
  function MaterialOf(s: Slots): Option<Material> {
    match s.rec
    case None =>
      if s.cert.Some? && s.key == s.cert then Some(Material(0, s.cert.value, s.cert.value, [s.cert.value])) else None
    case Some(r) =>
      match r.phase
      case Trust | Reissue | Rollback =>
        if CurrentIs(s, r.oldPin) && NextIs(s, r.nextPin) then
          Some(Material(r.seqno, if r.phase == Reissue then r.nextPin else r.oldPin, r.oldPin, [r.oldPin, r.nextPin]))
        else None
      case Promote | Done =>
        if NextIs(s, r.nextPin) || CurrentIs(s, r.nextPin) then
          Some(Material(r.seqno, r.nextPin, r.nextPin, [r.nextPin]))
        else None
      case Drop | Aborted =>
        if CurrentIs(s, r.oldPin) then Some(Material(r.seqno, r.oldPin, r.oldPin, [r.oldPin])) else None
      case Unknown => None
  }

  /** The phase table: what a record alone says of signer, ca.crt and trust. */
  function Table(r: CARotation): Material {
    match r.phase
    case Trust => Material(r.seqno, r.oldPin, r.oldPin, [r.oldPin, r.nextPin])
    case Reissue => Material(r.seqno, r.nextPin, r.oldPin, [r.oldPin, r.nextPin])
    case Promote => Material(r.seqno, r.nextPin, r.nextPin, [r.nextPin])
    case Done => Material(r.seqno, r.nextPin, r.nextPin, [r.nextPin])
    case Rollback => Material(r.seqno, r.oldPin, r.oldPin, [r.oldPin, r.nextPin])
    case Drop => Material(r.seqno, r.oldPin, r.oldPin, [r.oldPin])
    case Aborted => Material(r.seqno, r.oldPin, r.oldPin, [r.oldPin])
    case Unknown => Material(r.seqno, r.oldPin, r.oldPin, [])
  }

  /** Where a record's CAs are there, they give a node exactly its row of the table, and where not, nothing. */
  lemma MaterialIsRecord(s: Slots)
    requires s.rec.Some? && MaterialOf(s).Some?
    ensures MaterialOf(s) == Some(Table(s.rec.value)) && s.rec.value.phase != Unknown
  {
  }

  // --- The leader's decision ---

  /** What the leader knows of a node at a step, from its last heartbeat. */
  datatype CANode = CANode(id: string, manager: bool, heardFrom: bool, online: bool, capable: bool,
                           trusts: seq<Pin>, certCA: Pin, heardAt: int)

  datatype Why = NotHeardFrom | Offline | OldRelease | NotHeardSince | NotReady

  datatype Waiting = Waiting(id: string, why: Why)

  datatype CAStep = CAStep(next: Option<Phase>, waiting: seq<Waiting>, reason: Reason)

  function Following(p: Phase): Option<Phase> {
    match p
    case Trust => Some(Reissue)
    case Reissue => Some(Promote)
    case Promote => Some(Done)
    case Rollback => Some(Drop)
    case Drop => Some(Aborted)
    case _ => None
  }

  function OnTimeout(p: Phase): Option<Phase> {
    match p
    case Trust => Some(Drop)
    case Reissue => Some(Rollback)
    case _ => None
  }

  /** Whether the phase waits for n at all: promote and drop leave out an agent that is away. */
  predicate Counts(r: CARotation, n: CANode) {
    (r.phase == Promote || r.phase == Drop) && !n.manager ==> n.heardFrom && n.online
  }

  /** What n shows is what the phase waits for. */
  predicate Shows(r: CARotation, n: CANode) {
    match r.phase
    case Trust => r.oldPin in n.trusts && r.nextPin in n.trusts
    case Reissue => n.certCA == r.nextPin
    case Promote => n.trusts == [r.nextPin]
    case Rollback => n.certCA == r.oldPin
    case Drop => n.trusts == [r.oldPin]
    case _ => false
  }

  predicate Ready(r: CARotation, n: CANode) {
    n.heardFrom && n.online && n.capable && Shows(r, n) && (r.phase == Rollback ==> n.heardAt > r.phaseAt)
  }

  predicate AllReady(r: CARotation, nodes: seq<CANode>) {
    forall i :: 0 <= i < |nodes| && Counts(r, nodes[i]) ==> Ready(r, nodes[i])
  }

  predicate HoldsUp(r: CARotation, n: CANode) {
    Counts(r, n) && !Ready(r, n)
  }

  predicate OutOfTime(r: CARotation, now: int) {
    r.phaseTimeout > 0 && now > r.phaseAt + r.phaseTimeout
  }

  /** nextCAStep's decision, without the names of those it waits for. */
  function Decision(r: CARotation, nodes: seq<CANode>, now: int): Option<Phase> {
    if Following(r.phase) == None then None
    else if AllReady(r, nodes) then Following(r.phase)
    else if OutOfTime(r, now) then OnTimeout(r.phase)
    else None
  }

  predicate Names(ws: seq<Waiting>, id: string) {
    exists i :: 0 <= i < |ws| && ws[i].id == id
  }

  /** A node of that ID among the first n holds the phase up. */
  predicate HeldUpBy(r: CARotation, nodes: seq<CANode>, n: nat, id: string)
    requires n <= |nodes|
  {
    exists i :: 0 <= i < n && nodes[i].id == id && HoldsUp(r, nodes[i])
  }

  lemma NamesGrow(ws: seq<Waiting>, w: Waiting)
    ensures forall id :: Names(ws + [w], id) <==> Names(ws, id) || id == w.id
  {
    forall id ensures Names(ws + [w], id) <==> Names(ws, id) || id == w.id {
      assert (ws + [w])[|ws|] == w;
      if Names(ws, id) {
        var k :| 0 <= k < |ws| && ws[k].id == id;
        assert (ws + [w])[k].id == id;
      }
    }
  }

  lemma HeldUpGrows(r: CARotation, nodes: seq<CANode>, n: nat)
    requires n < |nodes|
    ensures forall id :: HeldUpBy(r, nodes, n + 1, id) <==>
                           HeldUpBy(r, nodes, n, id) || (nodes[n].id == id && HoldsUp(r, nodes[n]))
  {
    forall id
      ensures HeldUpBy(r, nodes, n + 1, id) <==> HeldUpBy(r, nodes, n, id) || (nodes[n].id == id && HoldsUp(r, nodes[n]))
    {
      if HeldUpBy(r, nodes, n + 1, id) {
        var i :| 0 <= i < n + 1 && nodes[i].id == id && HoldsUp(r, nodes[i]);
        assert i < n ==> HeldUpBy(r, nodes, n, id);
      }
    }
  }

  method NextCAStep(r: CARotation, nodes: seq<CANode>, now: int) returns (step: CAStep)
    ensures step.next == Decision(r, nodes, now)
    ensures (step.reason == NoReason) == (step.next == None || AllReady(r, nodes))
    ensures step.reason != NoReason ==> step.reason == TimedOut(r.phase)
    ensures Following(r.phase) != None ==>
              forall id :: Names(step.waiting, id) <==> HeldUpBy(r, nodes, |nodes|, id)
  {
    var next := Following(r.phase);
    if next == None {
      return CAStep(None, [], NoReason);
    }
    var agentsOnline := r.phase == Promote || r.phase == Drop;
    var heardSince := r.phase == Rollback;
    var waiting: seq<Waiting> := [];
    for i := 0 to |nodes|
      invariant forall id :: Names(waiting, id) <==> HeldUpBy(r, nodes, i, id)
    {
      var n := nodes[i];
      HeldUpGrows(r, nodes, i);
      if agentsOnline && !n.manager && (!n.heardFrom || !n.online) {
        continue;
      }
      var why := None;
      if !n.heardFrom {
        why := Some(NotHeardFrom);
      } else if !n.online {
        why := Some(Offline);
      } else if !n.capable {
        why := Some(OldRelease);
      } else if heardSince && n.heardAt <= r.phaseAt {
        why := Some(NotHeardSince);
      } else if !Shows(r, n) {
        why := Some(NotReady);
      }
      assert why != None <==> HoldsUp(r, n);
      if why != None {
        NamesGrow(waiting, Waiting(n.id, why.value));
        waiting := waiting + [Waiting(n.id, why.value)];
      }
    }
    if waiting == [] {
      forall i | 0 <= i < |nodes| ensures !HoldsUp(r, nodes[i]) {
        assert HoldsUp(r, nodes[i]) ==> HeldUpBy(r, nodes, |nodes|, nodes[i].id);
      }
      return CAStep(next, [], NoReason);
    }
    assert Names(waiting, waiting[0].id);
    var onTimeout := OnTimeout(r.phase);
    if onTimeout != None && r.phaseTimeout > 0 && now > r.phaseAt + r.phaseTimeout {
      return CAStep(onTimeout, waiting, TimedOut(r.phase));
    }
    return CAStep(None, waiting, NoReason);
  }

  datatype AbortResult = To(phase: Phase) | GoingBackAlready | PastReturn | NoRotation | UnknownPhase

  /** abortPhase: where an operator's stop leads; None for the record is no rotation. */
  function AbortPhase(rec: Option<CARotation>): AbortResult {
    match rec
    case None => NoRotation
    case Some(r) =>
      match r.phase
      case Trust => To(Drop)
      case Reissue => To(Rollback)
      case Rollback | Drop => GoingBackAlready
      case Promote => PastReturn
      case Done | Aborted => NoRotation
      case Unknown => UnknownPhase
  }

  /** The step phases from p to q a leader may record: along the rotation, out of time, or stopped. */
  predicate Steps(p: Phase, q: Phase) {
    Following(p) == Some(q) || OnTimeout(p) == Some(q)
  }

  // How far a rotation in phase p is from its end.
  function Distance(p: Phase): nat {
    match p
    case Trust => 4
    case Reissue => 3
    case Promote => 1
    case Rollback => 2
    case Drop => 1
    case _ => 0
  }
}
