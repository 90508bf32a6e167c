/**
 A CA rotation over a whole cluster. The leader's operations land in full or in part; every manager
 reads replicated state at a place of its own, behind the leader's and after a restart further
 behind; agents take the leader's hints and renew by it; the leader goes by heartbeats it may have
 heard long before. A node's floor is the record it has applied, kept across restarts.
 */
module CAWorld {
  import opened Options
  import opened CARecord
  import opened CALeader

  /**
   A member. settled says its floor is recorded for what it trusts now — it is before its next
   heartbeat. offer is the certificate of an agent's renewal on its way back.
   */
  datatype Node = Node(manager: bool, floor: nat, trust: seq<Pin>, cert: Pin, settled: bool, offer: Option<Pin>)

  /** A heartbeat as the leader keeps it; floor is the sender's floor then, which it does not say. */
  datatype Report = Report(id: string, trust: seq<Pin>, cert: Pin, at: int, floor: nat)

  datatype World = World(
    hist: seq<Slots>,          // every state of the replicated keys, the last the leader's
    recs: seq<CARotation>,     // every record among them, in order
    root: Pin,                 // the CA before the first rotation
    nodes: map<string, Node>,
    reports: set<Report>,
    clock: int,
    used: set<Pin>             // the root, and every CA a record has named
  )
  {
    function Now(): Slots
      requires hist != []
    {
      hist[|hist| - 1]
    }
  }

  /** The material of the k-th record; before the first, the root alone. */
  function At(recs: seq<CARotation>, root: Pin, k: nat): Material
    requires k <= |recs|
  {
    if k == 0 then Material(0, root, root, [root]) else Table(recs[k - 1])
  }

  datatype Step =
    | Lead(op: Op, landed: nat)
    | Tick(now: int)
    | Adopt(id: string, i: nat)
    | Move(id: string, i: nat)
    | Record(id: string, i: nat)
    | Renew(id: string)
    | Install(id: string)
    | Lose(id: string)
    | Ping(id: string)
    | LatePing(report: Report)

  /** Every member is in the leader's picture, and what the picture says was heard was said. */
  ghost predicate Genuine(w: World, nodes: seq<CANode>) {
    && (forall id :: id in w.nodes ==> exists i :: 0 <= i < |nodes| && nodes[i].id == id)
    && (forall i :: 0 <= i < |nodes| ==>
          && nodes[i].id in w.nodes && nodes[i].manager == w.nodes[nodes[i].id].manager
          && (nodes[i].heardFrom ==>
                exists r :: r in w.reports && r.id == nodes[i].id && r.trust == nodes[i].trusts
                            && r.cert == nodes[i].certCA && r.at == nodes[i].heardAt))
  }

  ghost predicate OpEnabled(w: World, op: Op) {
    match op
    case StartOp(next, _, _, _, now) => next !in w.used && now == w.clock
    case AdvanceOp(nodes, now) => Genuine(w, nodes) && now == w.clock
    case AbortOp(now) => now == w.clock
  }

  /** The material of the i-th state, whose record node n may act on. */
  predicate Usable(w: World, n: Node, i: nat) {
    && i < |w.hist| && MaterialOf(w.hist[i]).Some? && w.hist[i].rec.Some?
    && (if n.manager then w.hist[i].rec.value.seqno >= n.floor else w.hist[i].rec.value.seqno > n.floor)
  }

  ghost predicate Enabled(w: World, s: Step) {
    && w.hist != []
    && match s
       case Lead(op, landed) => OpEnabled(w, op) && landed <= |OpWrites(w.Now(), op)|
       case Tick(now) => now >= w.clock
       case Adopt(id, i) => id in w.nodes && Usable(w, w.nodes[id], i)
       case Move(id, i) =>
         id in w.nodes && w.nodes[id].manager && Usable(w, w.nodes[id], i)
         && w.nodes[id].trust == MaterialOf(w.hist[i]).value.trust
       case Record(id, i) =>
         && id in w.nodes && Usable(w, w.nodes[id], i)
         && w.nodes[id].trust == MaterialOf(w.hist[i]).value.trust
         && (w.nodes[id].manager ==> w.nodes[id].cert == MaterialOf(w.hist[i]).value.sign)
       case Renew(id) =>
         && id in w.nodes && !w.nodes[id].manager && w.nodes[id].offer == None
         && w.Now().rec.Some? && (w.Now().rec.value.phase == Reissue || w.Now().rec.value.phase == Rollback)
         && MaterialOf(w.Now()).Some?
       case Install(id) => id in w.nodes && w.nodes[id].offer.Some? && w.nodes[id].offer.value in w.nodes[id].trust
       case Lose(id) => id in w.nodes
       case Ping(id) => id in w.nodes && w.nodes[id].settled && w.nodes[id].offer == None
       case LatePing(r) => r in w.reports && r.id in w.nodes && w.nodes[r.id].manager
  }

  function With(w: World, id: string, n: Node): World {
    w.(nodes := w.nodes[id := n])
  }

  ghost function Do(w: World, s: Step): World
    requires Enabled(w, s)
  {
    match s
    case Lead(op, landed) =>
      var states := States(w.Now(), OpWrites(w.Now(), op)[..landed]);
      var moved := states != [] && states[|states| - 1].rec != w.Now().rec && states[|states| - 1].rec.Some?;
      w.(hist := w.hist + states,
         recs := if moved then w.recs + [states[|states| - 1].rec.value] else w.recs,
         used := if moved && op.StartOp? then w.used + {op.next} else w.used)
    case Tick(now) => w.(clock := now)
    case Adopt(id, i) => With(w, id, w.nodes[id].(trust := MaterialOf(w.hist[i]).value.trust, settled := false))
    case Move(id, i) => With(w, id, w.nodes[id].(cert := MaterialOf(w.hist[i]).value.sign, settled := false))
    case Record(id, i) => With(w, id, w.nodes[id].(floor := w.hist[i].rec.value.seqno, settled := true))
    case Renew(id) => With(w, id, w.nodes[id].(offer := Some(MaterialOf(w.Now()).value.sign)))
    case Install(id) => With(w, id, w.nodes[id].(cert := w.nodes[id].offer.value, offer := None))
    case Lose(id) => With(w, id, w.nodes[id].(offer := None))
    case Ping(id) =>
      var n := w.nodes[id];
      w.(reports := w.reports + {Report(id, n.trust, n.cert, w.clock, n.floor)})
    case LatePing(r) => w.(reports := w.reports + {r.(at := w.clock)})
  }

  /** A cluster that has never rotated its CA. */
  predicate Init(w: World) {
    && w.hist == [Slots(Some(w.root), Some(w.root), None, None, None)] && w.recs == []
    && w.reports == {} && w.used == {w.root}
    && forall id :: id in w.nodes ==> w.nodes[id] == Node(w.nodes[id].manager, 0, [w.root], w.root, true, None)
  }

  ghost predicate Runs(w: World, steps: seq<Step>)
    decreases |steps|
  {
    steps == [] || (Enabled(w, steps[0]) && Runs(Do(w, steps[0]), steps[1..]))
  }

  ghost function After(w: World, steps: seq<Step>): World
    requires Runs(w, steps)
    decreases |steps|
  {
    if steps == [] then w else After(Do(w, steps[0]), steps[1..])
  }

  lemma StepIs(w: World, s: Step, w': World)
    requires Enabled(w, s) && Do(w, s) == w'
    ensures Runs(w, [s]) && After(w, [s]) == w'
  {
    assert [s][1..] == [];
  }

  lemma StepThen(w: World, s: Step, w1: World, steps: seq<Step>, w': World)
    requires Enabled(w, s) && Do(w, s) == w1 && Runs(w1, steps) && After(w1, steps) == w'
    ensures Runs(w, [s] + steps) && After(w, [s] + steps) == w'
  {
    assert ([s] + steps)[1..] == steps;
  }

  /** An operation that turns the record, all of whose writes land. */
  lemma LeadIs(w: World, op: Op, states: seq<Slots>, r: CARotation)
    requires w.hist != [] && OpEnabled(w, op) && states != [] && States(w.Now(), OpWrites(w.Now(), op)) == states
    requires states[|states| - 1].rec == Some(r) && w.Now().rec != Some(r)
    ensures Enabled(w, Lead(op, |states|))
    ensures Do(w, Lead(op, |states|)) == w.(hist := w.hist + states, recs := w.recs + [r], used := UsedAfter(w, op))
  {
    var ws := OpWrites(w.Now(), op);
    assert ws[..|ws|] == ws;
  }

  // --- The log ---

  predicate SamePins(r: CARotation, next: CARotation) {
    next.oldPin == r.oldPin && next.nextPin == r.nextPin
  }

  /** The k-th record follows the one before it: a step of the same rotation, or a start with a new CA. */
  predicate Follows(recs: seq<CARotation>, root: Pin, k: nat)
    requires k < |recs|
  {
    && recs[k].seqno == k + 1 && recs[k].oldPin != recs[k].nextPin
    && if recs[k].phase == Trust then
         && (k == 0 || recs[k - 1].Ended())
         && recs[k].oldPin == At(recs, root, k).disk
         && (forall j :: 0 <= j <= k ==> recs[k].nextPin !in At(recs, root, j).trust)
       else k > 0 && Steps(recs[k - 1].phase, recs[k].phase) && SamePins(recs[k - 1], recs[k])
  }

  predicate RecInv(recs: seq<CARotation>, root: Pin, used: set<Pin>, k: nat)
    requires k < |recs|
  {
    Follows(recs, root, k) && recs[k].oldPin in used && recs[k].nextPin in used
  }

  predicate RecsInv(recs: seq<CARotation>, root: Pin, used: set<Pin>) {
    root in used && forall k :: 0 <= k < |recs| ==> RecInv(recs, root, used, k)
  }

  /** A state of the log: its record is one of the records, at its place. */
  predicate StateInv(recs: seq<CARotation>, root: Pin, s: Slots) {
    match s.rec
    case None => s.cert == Some(root)
    case Some(r) => 1 <= r.seqno <= |recs| && recs[r.seqno - 1] == r
  }

  ghost predicate Seen(w: World, k: nat)
    requires k < |w.recs|
  {
    exists i :: 0 <= i < |w.hist| && w.hist[i].rec == Some(w.recs[k])
  }

  ghost predicate LogInv(w: World) {
    && w.hist != []
    && (forall i :: 0 <= i < |w.hist| ==> StateInv(w.recs, w.root, w.hist[i]))
    && w.Now().rec == (if w.recs == [] then None else Some(w.recs[|w.recs| - 1]))
    && RecsInv(w.recs, w.root, w.used)
    && (w.recs != [] ==> w.recs[|w.recs| - 1].phaseAt <= w.clock)
  }

  /** A state on the log gives a node exactly its record's row of the phase table, or nothing. */
  lemma MaterialIsTable(recs: seq<CARotation>, root: Pin, s: Slots)
    requires MaterialOf(s).Some? && StateInv(recs, root, s)
    ensures MaterialOf(s) == Some(At(recs, root, if s.rec == None then 0 else s.rec.value.seqno))
  {
    if s.rec.Some? {
      MaterialIsRecord(s);
    }
  }

  lemma AtGrows(recs: seq<CARotation>, root: Pin, r: CARotation)
    ensures forall k :: 0 <= k <= |recs| ==> At(recs + [r], root, k) == At(recs, root, k)
  {
  }

  /** What a lead operation that lands its record adds to the records. */
  predicate Successor(recs: seq<CARotation>, root: Pin, used: set<Pin>, clock: int, r: CARotation) {
    && r.seqno == |recs| + 1 && r.phaseAt <= clock
    && r.oldPin != r.nextPin && r.oldPin in used && r.phase != Unknown
    && if r.phase == Trust then
         && (recs == [] || recs[|recs| - 1].Ended()) && r.oldPin == At(recs, root, |recs|).disk && r.nextPin !in used
       else recs != [] && Steps(recs[|recs| - 1].phase, r.phase) && SamePins(recs[|recs| - 1], r)
  }

  lemma PinsAreUsed(recs: seq<CARotation>, root: Pin, used: set<Pin>, k: nat)
    requires RecsInv(recs, root, used) && k <= |recs|
    ensures var m := At(recs, root, k);
            m.sign in used && m.disk in used && forall p :: p in m.trust ==> p in used
  {
    assert k > 0 ==> RecInv(recs, root, used, k - 1);
  }

  lemma RecsGrow(recs: seq<CARotation>, root: Pin, used: set<Pin>, clock: int, r: CARotation)
    requires RecsInv(recs, root, used) && Successor(recs, root, used, clock, r)
    ensures RecsInv(recs + [r], root, used + {r.nextPin})
  {
    AtGrows(recs, root, r);
    var recs' := recs + [r];
    forall k | 0 <= k < |recs'| ensures RecInv(recs', root, used + {r.nextPin}, k) {
      if k < |recs| {
        assert RecInv(recs, root, used, k);
      } else if r.phase == Trust {
        forall j | 0 <= j <= k ensures r.nextPin !in At(recs', root, j).trust {
          PinsAreUsed(recs, root, used, j);
        }
      }
    }
  }

  lemma OpRecSucceeds(w: World, op: Op)
    requires LogInv(w) && OpEnabled(w, op) && OpRec(w.Now(), op).Some?
    ensures Successor(w.recs, w.root, w.used, w.clock, OpRec(w.Now(), op).value)
    ensures OpRec(w.Now(), op).value.phaseAt == w.clock
    ensures !op.StartOp? ==> OpRec(w.Now(), op).value.phase != Trust
    ensures op.StartOp? ==> OpRec(w.Now(), op).value.nextPin == op.next && OpRec(w.Now(), op).value.phase == Trust
  {
    assert StateInv(w.recs, w.root, w.hist[|w.hist| - 1]);
    if MaterialOf(w.Now()).Some? {
      MaterialIsTable(w.recs, w.root, w.Now());
    }
    PinsAreUsed(w.recs, w.root, w.used, |w.recs|);
    if w.recs != [] {
      assert RecInv(w.recs, w.root, w.used, |w.recs| - 1);
    }
  }

  function UsedAfter(w: World, op: Op): set<Pin> {
    if op.StartOp? then w.used + {op.next} else w.used
  }

  lemma RecordFits(w: World, op: Op)
    requires LogInv(w) && OpEnabled(w, op) && OpRec(w.Now(), op).Some?
    ensures var r := OpRec(w.Now(), op).value;
            RecsInv(w.recs + [r], w.root, UsedAfter(w, op)) && r.seqno == |w.recs| + 1 && r.phaseAt <= w.clock
  {
    OpRecSucceeds(w, op);
    var r := OpRec(w.Now(), op).value;
    RecsGrow(w.recs, w.root, w.used, w.clock, r);
    if !op.StartOp? {
      assert RecInv(w.recs, w.root, w.used, |w.recs| - 1);
      assert w.used + {r.nextPin} == w.used;
    }
  }

  lemma StatesStay(w: World, states: seq<Slots>)
    requires LogInv(w)
    requires forall i :: 0 <= i < |states| ==> states[i].rec == w.Now().rec && (w.Now().rec == None ==> states[i].cert == w.Now().cert)
    ensures LogInv(w.(hist := w.hist + states))
  {
    assert StateInv(w.recs, w.root, w.hist[|w.hist| - 1]);
    HistGrows(w, states, w.recs, w.used);
  }

  lemma StatesTurn(w: World, states: seq<Slots>, r: CARotation, used': set<Pin>)
    requires LogInv(w) && states != [] && states[|states| - 1].rec == Some(r)
    requires RecsInv(w.recs + [r], w.root, used') && w.used <= used' && r.seqno == |w.recs| + 1 && r.phaseAt <= w.clock
    requires forall i :: 0 <= i < |states| ==>
               || (states[i].rec == w.Now().rec && (w.Now().rec == None ==> states[i].cert == w.Now().cert))
               || states[i].rec == Some(r)
    ensures LogInv(w.(hist := w.hist + states, recs := w.recs + [r], used := used'))
  {
    assert StateInv(w.recs, w.root, w.hist[|w.hist| - 1]);
    StatesFit(w.recs, w.root, r);
    forall i | 0 <= i < |states| ensures StateInv(w.recs + [r], w.root, states[i]) {
      if states[i].rec == w.Now().rec { assert StateInv(w.recs, w.root, states[i]); }
    }
    HistGrows(w, states, w.recs + [r], used');
  }

  /** The states an operation adds, and the records with the one they turn to, if they do. */
  lemma LogKeeps(w: World, op: Op, landed: nat)
    requires LogInv(w) && Enabled(w, Lead(op, landed))
    ensures LogInv(Do(w, Lead(op, landed)))
    ensures var w' := Do(w, Lead(op, landed));
            w'.recs == w.recs || (OpRec(w.Now(), op).Some? && w'.recs == w.recs + [OpRec(w.Now(), op).value])
  {
    var s := w.Now();
    var states := States(s, OpWrites(s, op)[..landed]);
    LandedTurns(s, op, landed);
    RecTurns(w, op);
    assert |states| == landed;
    if states == [] || states[|states| - 1].rec == s.rec {
      StatesStay(w, states);
    } else {
      assert OpRec(s, op).Some? && states[|states| - 1].rec == OpRec(s, op);
      RecordFits(w, op);
      StatesTurn(w, states, OpRec(s, op).value, UsedAfter(w, op));
    }
  }

  lemma RecTurns(w: World, op: Op)
    requires LogInv(w) && OpEnabled(w, op)
    ensures OpRec(w.Now(), op).Some? ==> OpRec(w.Now(), op) != w.Now().rec
  {
    if OpRec(w.Now(), op).Some? {
      OpRecSucceeds(w, op);
    }
  }

  lemma StatesFit(recs: seq<CARotation>, root: Pin, r: CARotation)
    requires r.seqno == |recs| + 1
    ensures forall s :: StateInv(recs, root, s) ==> StateInv(recs + [r], root, s)
    ensures forall s: Slots :: s.rec == Some(r) ==> StateInv(recs + [r], root, s)
  {
  }

  lemma UsedGrows(recs: seq<CARotation>, root: Pin, used: set<Pin>, used': set<Pin>)
    requires RecsInv(recs, root, used) && used <= used'
    ensures RecsInv(recs, root, used')
  {
    forall k | 0 <= k < |recs| ensures RecInv(recs, root, used', k) {
      assert RecInv(recs, root, used, k);
    }
  }

  lemma HistGrows(w: World, states: seq<Slots>, recs': seq<CARotation>, used': set<Pin>)
    requires LogInv(w) && w.used <= used'
    requires recs' == w.recs || (|recs'| == |w.recs| + 1 && w.recs == recs'[..|w.recs|] && RecsInv(recs', w.root, used')
                                 && recs'[|w.recs|].phaseAt <= w.clock)
    requires forall s :: StateInv(w.recs, w.root, s) ==> StateInv(recs', w.root, s)
    requires forall i :: 0 <= i < |states| ==> StateInv(recs', w.root, states[i])
    requires (if states == [] then w.Now().rec else states[|states| - 1].rec)
             == (if recs' == [] then None else Some(recs'[|recs'| - 1]))
    ensures LogInv(w.(hist := w.hist + states, recs := recs', used := used'))
  {
    if recs' == w.recs {
      UsedGrows(w.recs, w.root, w.used, used');
    }
    var hist' := w.hist + states;
    forall i | 0 <= i < |hist'| ensures StateInv(recs', w.root, hist'[i]) {
      if i < |w.hist| {
        assert StateInv(w.recs, w.root, w.hist[i]);
      }
    }
  }

  // --- What every state holds ---

  /** With operations' writes in order, every state goes on holding every CA its record names. */
  lemma StepCompletes(w: World, s: Step)
    requires LogInv(w) && AllComplete(w.hist) && Enabled(w, s)
    ensures AllComplete(Do(w, s).hist)
  {
    if s.Lead? {
      var last := |w.hist| - 1;
      assert StateInv(w.recs, w.root, w.hist[last]) && Complete(w.hist[last]);
      if MaterialOf(w.Now()).Some? {
        MaterialIsTable(w.recs, w.root, w.Now());
      }
      PinsAreUsed(w.recs, w.root, w.used, |w.recs|);
      LandedComplete(w.Now(), s.op, s.landed);
    }
  }
}
