/**
 What a CA rotation keeps over every run: each member's certificate comes from a CA every member
 trusts, whatever each has applied so far and may yet apply.
 */
module CATrust {
  import opened Options
  import opened CARecord
  import opened CALeader
  import opened CAWorld

  /** The CAs a member's certificate may come from while the last record stands. */
  function Live(recs: seq<CARotation>, root: Pin): set<Pin> {
    if recs == [] then {root}
    else
      var r := recs[|recs| - 1];
      match r.phase
      case Trust => {r.oldPin}
      case Reissue => {r.oldPin, r.nextPin}
      case Rollback => {r.oldPin, r.nextPin}
      case Promote => {r.nextPin}
      case Done => {r.nextPin}
      case Drop => {r.oldPin}
      case Aborted => {r.oldPin}
      case Unknown => {}
  }

  predicate TrustsLive(recs: seq<CARotation>, root: Pin, k: nat)
    requires k <= |recs|
  {
    forall p :: p in Live(recs, root) ==> p in At(recs, root, k).trust
  }

  predicate SignsLive(recs: seq<CARotation>, root: Pin, k: nat)
    requires k <= |recs|
  {
    At(recs, root, k).sign in Live(recs, root)
  }

  /** A node's trust and a manager's certificate are those of some record from its floor on. */
  ghost predicate NodeInv(recs: seq<CARotation>, root: Pin, n: Node) {
    && n.floor <= |recs|
    && (exists j :: n.floor <= j <= |recs| && n.trust == At(recs, root, j).trust)
    && (n.manager ==> exists j :: n.floor <= j <= |recs| && n.cert == At(recs, root, j).sign)
    && (n.manager ==> n.offer == None)
    && (n.settled ==> n.trust == At(recs, root, n.floor).trust
                      && (n.manager ==> n.cert == At(recs, root, n.floor).sign))
  }

  /** Whatever the node trusts from here on holds every live CA; an agent's certificates are from live CAs. */
  predicate Safe(recs: seq<CARotation>, root: Pin, n: Node) {
    && n.floor <= |recs|
    && (forall k :: n.floor <= k <= |recs| ==> TrustsLive(recs, root, k))
    && (!n.manager ==> n.cert in Live(recs, root) && (n.offer.Some? ==> n.offer.value in Live(recs, root)))
  }

  /** Whatever a manager's certificate may yet come from is live. */
  predicate SignerSafe(recs: seq<CARotation>, root: Pin, n: Node) {
    n.floor <= |recs| && (n.manager ==> forall k :: n.floor <= k <= |recs| ==> SignsLive(recs, root, k))
  }

  predicate OnlyFrom(n: Node, pin: Pin) {
    n.cert == pin && (n.offer.Some? ==> n.offer.value == pin)
  }

  /** What a heartbeat, however old, still says of an agent's certificate. */
  predicate StillSays(recs: seq<CARotation>, r: Report, n: Node) {
    recs != [] && !n.manager ==>
      var last := recs[|recs| - 1];
      && (last.phase == Trust ==> r.cert != last.nextPin)
      && (last.phase == Reissue && r.cert == last.nextPin ==> OnlyFrom(n, last.nextPin))
      && (last.phase == Rollback && r.at > last.phaseAt && r.cert == last.oldPin ==> OnlyFrom(n, last.oldPin))
  }

  predicate ReportInv(recs: seq<CARotation>, root: Pin, r: Report, n: Node, clock: int, used: set<Pin>) {
    && r.at <= clock && r.floor <= n.floor <= |recs| && r.cert in used
    && r.trust == At(recs, root, r.floor).trust
    && (n.manager ==> r.cert == At(recs, root, r.floor).sign)
    && StillSays(recs, r, n)
  }

  ghost predicate NodesInv(w: World) {
    forall id :: id in w.nodes ==> NodeInv(w.recs, w.root, w.nodes[id]) && Safe(w.recs, w.root, w.nodes[id])
  }

  ghost predicate ReportsInv(w: World) {
    forall r :: r in w.reports ==>
      r.id in w.nodes && ReportInv(w.recs, w.root, r, w.nodes[r.id], w.clock, w.used)
  }

  ghost predicate Inv(w: World) {
    LogInv(w) && NodesInv(w) && ReportsInv(w)
  }

  /** Every manager's certificates, those it may yet move to too, are from live CAs. */
  ghost predicate SignersInv(w: World) {
    forall id :: id in w.nodes ==> SignerSafe(w.recs, w.root, w.nodes[id])
  }

  /** Every member's certificate issuer is in every member's trust. */
  ghost predicate CrossTrust(w: World) {
    forall a, b :: a in w.nodes && b in w.nodes ==> w.nodes[a].cert in w.nodes[b].trust
  }

  lemma InvGivesCrossTrust(w: World)
    requires Inv(w) && SignersInv(w)
    ensures CrossTrust(w)
  {
    forall a, b | a in w.nodes && b in w.nodes ensures w.nodes[a].cert in w.nodes[b].trust {
      var n, m := w.nodes[a], w.nodes[b];
      assert NodeInv(w.recs, w.root, n) && Safe(w.recs, w.root, n) && SignerSafe(w.recs, w.root, n);
      assert NodeInv(w.recs, w.root, m) && Safe(w.recs, w.root, m);
      if n.manager {
        var i :| n.floor <= i <= |w.recs| && n.cert == At(w.recs, w.root, i).sign;
        assert SignsLive(w.recs, w.root, i);
      }
      var j :| m.floor <= j <= |w.recs| && m.trust == At(w.recs, w.root, j).trust;
      assert TrustsLive(w.recs, w.root, j);
    }
  }

  // --- What the leader goes by ---

  /** What each member has shown for the record r to follow the last one, when it is not a way back. */
  ghost predicate Shown(w: World, r: CARotation, id: string)
    requires id in w.nodes && w.recs != []
  {
    var last := w.recs[|w.recs| - 1];
    match r.phase
    case Reissue => exists p :: p in w.reports && p.id == id && r.nextPin in p.trust
    case Promote => exists p :: p in w.reports && p.id == id && p.cert == r.nextPin
    case Done => w.nodes[id].manager ==> exists p :: p in w.reports && p.id == id && p.trust == [r.nextPin]
    case Drop =>
      last.phase == Rollback ==>
        exists p :: p in w.reports && p.id == id && p.cert == r.oldPin && p.at > last.phaseAt
    case _ => true
  }

  lemma AdvanceIsShown(w: World, nodes: seq<CANode>, now: int, id: string)
    requires LogInv(w) && Genuine(w, nodes) && id in w.nodes
    requires OpRec(w.Now(), AdvanceOp(nodes, now)).Some?
    ensures w.recs != [] && Shown(w, OpRec(w.Now(), AdvanceOp(nodes, now)).value, id)
  {
    var last := w.recs[|w.recs| - 1];
    var i :| 0 <= i < |nodes| && nodes[i].id == id;
    if AllReady(last, nodes) {
      assert Counts(last, nodes[i]) ==> Ready(last, nodes[i]);
    }
  }

  // --- A record more ---

  /** A rollback is recorded with a time no earlier than the last heartbeat. */
  ghost predicate Unheard(w: World, r: CARotation) {
    r.phase == Rollback ==> forall p :: p in w.reports ==> p.at <= r.phaseAt
  }

  /** What holds when r is recorded. */
  ghost predicate Extends(w: World, r: CARotation) {
    && RecsInv(w.recs, w.root, w.used) && Successor(w.recs, w.root, w.used, w.clock, r) && Unheard(w, r)
    && (w.recs != [] ==> w.recs[|w.recs| - 1].phaseAt <= w.clock)
    && NodesInv(w) && ReportsInv(w)
    && (w.recs != [] ==> forall id :: id in w.nodes ==> Shown(w, r, id))
  }

  lemma NodeInvGrows(recs: seq<CARotation>, root: Pin, r: CARotation, n: Node)
    requires NodeInv(recs, root, n)
    ensures NodeInv(recs + [r], root, n)
  {
    AtGrows(recs, root, r);
    var j :| n.floor <= j <= |recs| && n.trust == At(recs, root, j).trust;
    assert At(recs + [r], root, j) == At(recs, root, j);
    if n.manager {
      var i :| n.floor <= i <= |recs| && n.cert == At(recs, root, i).sign;
      assert At(recs + [r], root, i) == At(recs, root, i);
    }
  }

  /** A member counted for the reissue has applied the trust record, so it trusts both CAs from there on. */
  lemma TrustEvidence(w: World, r: CARotation, id: string)
    requires Extends(w, r) && id in w.nodes && r.phase == Reissue
    ensures w.nodes[id].floor == |w.recs|
  {
    var k := |w.recs| - 1;
    assert RecInv(w.recs, w.root, w.used, k) && Follows(w.recs, w.root, k);
    assert Shown(w, r, id);
    var p :| p in w.reports && p.id == id && r.nextPin in p.trust;
    assert ReportInv(w.recs, w.root, p, w.nodes[id], w.clock, w.used);
    assert forall j :: 0 <= j <= k ==> r.nextPin !in At(w.recs, w.root, j).trust;
  }

  /** A manager counted for the promote has applied the reissue record. */
  lemma ReissueEvidence(w: World, r: CARotation, id: string)
    requires Extends(w, r) && id in w.nodes && r.phase == Promote
    ensures w.nodes[id].manager ==> w.nodes[id].floor == |w.recs|
    ensures !w.nodes[id].manager ==> OnlyFrom(w.nodes[id], r.nextPin)
  {
    assert Shown(w, r, id);
    var p :| p in w.reports && p.id == id && p.cert == r.nextPin;
    assert ReportInv(w.recs, w.root, p, w.nodes[id], w.clock, w.used);
    HeardOnNext(w.recs, w.root, w.used, w.clock, p, w.nodes[id]);
  }

  lemma HeardOnNext(recs: seq<CARotation>, root: Pin, used: set<Pin>, clock: int, p: Report, n: Node)
    requires RecsInv(recs, root, used) && ReportInv(recs, root, p, n, clock, used)
    requires recs != [] && recs[|recs| - 1].phase == Reissue && p.cert == recs[|recs| - 1].nextPin
    ensures n.manager ==> n.floor == |recs|
    ensures !n.manager ==> OnlyFrom(n, recs[|recs| - 1].nextPin)
  {
    if n.manager && p.floor < |recs| {
      NextSignsLast(recs, root, used, p.floor);
    }
  }

  /** At a reissue no record before it signs with the next CA. */
  lemma NextSignsLast(recs: seq<CARotation>, root: Pin, used: set<Pin>, k: nat)
    requires RecsInv(recs, root, used) && recs != [] && recs[|recs| - 1].phase == Reissue && k < |recs|
    ensures At(recs, root, k).sign != recs[|recs| - 1].nextPin
  {
    var last := |recs| - 1;
    assert RecInv(recs, root, used, last) && Follows(recs, root, last);
    assert RecInv(recs, root, used, last - 1) && Follows(recs, root, last - 1);
    if k < last {
      SignIsTrusted(recs, root, used, k);
      assert recs[last].nextPin !in At(recs, root, k).trust;
    }
  }

  lemma SignIsTrusted(recs: seq<CARotation>, root: Pin, used: set<Pin>, k: nat)
    requires RecsInv(recs, root, used) && k <= |recs|
    ensures var m := At(recs, root, k); m.sign in m.trust && m.disk in m.trust
  {
    if k > 0 {
      assert RecInv(recs, root, used, k - 1);
    }
  }

  /** On the way back, an agent counted for the drop is on the old CA for good. */
  lemma RollbackEvidence(w: World, r: CARotation, id: string)
    requires Extends(w, r) && id in w.nodes && !w.nodes[id].manager
    requires r.phase == Drop && w.recs[|w.recs| - 1].phase == Rollback
    ensures OnlyFrom(w.nodes[id], r.oldPin)
  {
    assert Shown(w, r, id);
    var p :| p in w.reports && p.id == id && p.cert == r.oldPin && p.at > w.recs[|w.recs| - 1].phaseAt;
    assert ReportInv(w.recs, w.root, p, w.nodes[id], w.clock, w.used);
  }

  /** Before a start the live CA is the cluster's. */
  lemma LiveIsDisk(recs: seq<CARotation>, root: Pin, used: set<Pin>)
    requires RecsInv(recs, root, used) && (recs == [] || recs[|recs| - 1].Ended())
    ensures Live(recs, root) == {At(recs, root, |recs|).disk}
  {
  }

  lemma SafeAfter(recs: seq<CARotation>, root: Pin, used: set<Pin>, clock: int, r: CARotation, n: Node)
    requires RecsInv(recs, root, used) && Successor(recs, root, used, clock, r) && Safe(recs, root, n)
    requires r.phase == Reissue ==> n.floor == |recs|
    requires !n.manager && r.phase == Promote ==> OnlyFrom(n, r.nextPin)
    requires !n.manager && r.phase == Drop && recs != [] && recs[|recs| - 1].phase == Rollback ==> OnlyFrom(n, r.oldPin)
    ensures Safe(recs + [r], root, n)
  {
    AtGrows(recs, root, r);
    if r.phase == Trust { LiveIsDisk(recs, root, used); }
    forall k | n.floor <= k <= |recs| + 1 ensures TrustsLive(recs + [r], root, k) {
      if k <= |recs| {
        assert TrustsLive(recs, root, k);
      }
    }
  }

  lemma SafeGrows(w: World, r: CARotation, id: string)
    requires Extends(w, r) && id in w.nodes
    ensures Safe(w.recs + [r], w.root, w.nodes[id])
  {
    var n := w.nodes[id];
    assert NodeInv(w.recs, w.root, n) && Safe(w.recs, w.root, n);
    if r.phase == Reissue { TrustEvidence(w, r, id); }
    if r.phase == Promote { ReissueEvidence(w, r, id); }
    if r.phase == Drop && !n.manager && w.recs[|w.recs| - 1].phase == Rollback { RollbackEvidence(w, r, id); }
    SafeAfter(w.recs, w.root, w.used, w.clock, r, n);
  }

  lemma ReportGrows(w: World, r: CARotation, p: Report)
    requires Extends(w, r) && p in w.reports
    ensures ReportInv(w.recs + [r], w.root, p, w.nodes[p.id], w.clock, w.used)
  {
    var n := w.nodes[p.id];
    AtGrows(w.recs, w.root, r);
    assert ReportInv(w.recs, w.root, p, n, w.clock, w.used);
    if r.phase == Reissue {
      assert RecInv(w.recs, w.root, w.used, |w.recs| - 1);
    }
  }

  lemma RecordKeeps(w: World, r: CARotation)
    requires Extends(w, r)
    ensures var w' := w.(recs := w.recs + [r]); NodesInv(w') && ReportsInv(w')
  {
    forall id | id in w.nodes
      ensures NodeInv(w.recs + [r], w.root, w.nodes[id]) && Safe(w.recs + [r], w.root, w.nodes[id])
    {
      NodeInvGrows(w.recs, w.root, r, w.nodes[id]);
      SafeGrows(w, r, id);
    }
    forall p | p in w.reports ensures p.id in w.nodes && ReportInv(w.recs + [r], w.root, p, w.nodes[p.id], w.clock, w.used) {
      ReportGrows(w, r, p);
    }
  }

  // --- The other steps ---

  lemma LeadKeeps(w: World, op: Op, landed: nat)
    requires Inv(w) && Enabled(w, Lead(op, landed))
    ensures Inv(Do(w, Lead(op, landed)))
  {
    var w' := Do(w, Lead(op, landed));
    LogKeeps(w, op, landed);
    if w'.recs != w.recs {
      OpRecSucceeds(w, op);
      var r := OpRec(w.Now(), op).value;
      OpIsShown(w, op);
      RecordKeeps(w, r);
    }
    forall p | p in w'.reports
      ensures p.id in w'.nodes && ReportInv(w'.recs, w'.root, p, w'.nodes[p.id], w'.clock, w'.used)
    {
      var w1 := w.(recs := w'.recs);
      assert ReportsInv(w1);
      assert ReportInv(w1.recs, w1.root, p, w1.nodes[p.id], w1.clock, w1.used);
    }
    assert NodesInv(w.(recs := w'.recs));
  }

  lemma OpIsShown(w: World, op: Op)
    requires LogInv(w) && OpEnabled(w, op) && OpRec(w.Now(), op).Some?
    ensures w.recs != [] ==> forall id :: id in w.nodes ==> Shown(w, OpRec(w.Now(), op).value, id)
  {
    if w.recs != [] && op.AdvanceOp? {
      forall id | id in w.nodes ensures Shown(w, OpRec(w.Now(), op).value, id) {
        AdvanceIsShown(w, op.nodes, op.now, id);
      }
    }
  }

  /** One node's change keeps the invariant when it keeps the node's own part and never lowers its floor. */
  lemma NodeChangeKeeps(w: World, id: string, n: Node)
    requires Inv(w) && id in w.nodes && n.manager == w.nodes[id].manager && n.floor >= w.nodes[id].floor
    requires NodeInv(w.recs, w.root, n) && Safe(w.recs, w.root, n)
    requires forall r :: r in w.reports && r.id == id ==> StillSays(w.recs, r, n)
    ensures Inv(With(w, id, n))
  {
    var w' := With(w, id, n);
    forall x | x in w'.nodes ensures NodeInv(w.recs, w.root, w'.nodes[x]) && Safe(w.recs, w.root, w'.nodes[x]) {
      if x != id { assert NodeInv(w.recs, w.root, w.nodes[x]) && Safe(w.recs, w.root, w.nodes[x]); }
    }
    forall p | p in w'.reports ensures p.id in w'.nodes && ReportInv(w.recs, w.root, p, w'.nodes[p.id], w.clock, w.used) {
      assert ReportInv(w.recs, w.root, p, w.nodes[p.id], w.clock, w.used);
    }
  }

  lemma UsableIsAt(w: World, n: Node, i: nat)
    requires LogInv(w) && Usable(w, n, i)
    ensures var k := w.hist[i].rec.value.seqno;
            n.floor <= k <= |w.recs| && MaterialOf(w.hist[i]) == Some(At(w.recs, w.root, k))
  {
    assert StateInv(w.recs, w.root, w.hist[i]);
    MaterialIsTable(w.recs, w.root, w.hist[i]);
  }

  /** What a node's own part becomes as it takes up record k: its trust, its certificate, its floor. */
  predicate TakesUp(recs: seq<CARotation>, root: Pin, n: Node, k: nat, n': Node)
    requires k <= |recs|
  {
    || n' == n.(trust := At(recs, root, k).trust, settled := false)
    || (n.manager && n' == n.(cert := At(recs, root, k).sign, settled := false))
    || (n' == n.(floor := k, settled := true) && n.trust == At(recs, root, k).trust
        && (n.manager ==> n.cert == At(recs, root, k).sign))
  }

  lemma TakesUpKeeps(recs: seq<CARotation>, root: Pin, n: Node, k: nat, n': Node)
    requires NodeInv(recs, root, n) && Safe(recs, root, n) && n.floor <= k <= |recs| && TakesUp(recs, root, n, k, n')
    ensures NodeInv(recs, root, n') && Safe(recs, root, n') && n.floor <= n'.floor
  {
  }

  lemma ApplyTakesUp(w: World, s: Step)
    requires LogInv(w) && (s.Adopt? || s.Move? || s.Record?) && Enabled(w, s)
    ensures var k := w.hist[s.i].rec.value.seqno;
            && w.nodes[s.id].floor <= k <= |w.recs| && s.id in Do(w, s).nodes
            && Do(w, s) == With(w, s.id, Do(w, s).nodes[s.id])
            && TakesUp(w.recs, w.root, w.nodes[s.id], k, Do(w, s).nodes[s.id])
  {
    UsableIsAt(w, w.nodes[s.id], s.i);
  }

  lemma ApplyKeeps(w: World, s: Step)
    requires Inv(w) && (s.Adopt? || s.Move? || s.Record?) && Enabled(w, s)
    ensures Inv(Do(w, s))
  {
    var n, n' := w.nodes[s.id], Do(w, s).nodes[s.id];
    ApplyTakesUp(w, s);
    assert NodeInv(w.recs, w.root, n) && Safe(w.recs, w.root, n);
    TakesUpKeeps(w.recs, w.root, n, w.hist[s.i].rec.value.seqno, n');
    forall r | r in w.reports && r.id == s.id ensures StillSays(w.recs, r, n') {
      assert ReportInv(w.recs, w.root, r, n, w.clock, w.used);
    }
    NodeChangeKeeps(w, s.id, n');
  }

  lemma RenewalKeeps(w: World, s: Step)
    requires Inv(w) && (s.Renew? || s.Install? || s.Lose?) && Enabled(w, s)
    ensures Inv(Do(w, s))
  {
    var n := w.nodes[s.id];
    assert NodeInv(w.recs, w.root, n) && Safe(w.recs, w.root, n);
    assert StateInv(w.recs, w.root, w.hist[|w.hist| - 1]);
    if MaterialOf(w.Now()).Some? {
      MaterialIsTable(w.recs, w.root, w.Now());
    }
    var n' := Do(w, s).nodes[s.id];
    forall r | r in w.reports && r.id == s.id ensures StillSays(w.recs, r, n') {
      assert ReportInv(w.recs, w.root, r, n, w.clock, w.used);
    }
    NodeChangeKeeps(w, s.id, n');
  }

  /** A settled node's heartbeat says what its floor's record says, and nothing of a certificate it may lose. */
  lemma SettledSays(w: World, id: string)
    requires Inv(w) && id in w.nodes && w.nodes[id].settled && w.nodes[id].offer == None
    ensures var n := w.nodes[id];
            ReportInv(w.recs, w.root, Report(id, n.trust, n.cert, w.clock, n.floor), n, w.clock, w.used)
  {
    var n := w.nodes[id];
    assert NodeInv(w.recs, w.root, n) && Safe(w.recs, w.root, n);
    CertIsUsed(w, id);
    if w.recs != [] {
      assert RecInv(w.recs, w.root, w.used, |w.recs| - 1);
    }
  }

  lemma ReportMoreKeeps(w: World, r: Report)
    requires Inv(w) && r.id in w.nodes && ReportInv(w.recs, w.root, r, w.nodes[r.id], w.clock, w.used)
    ensures Inv(w.(reports := w.reports + {r}))
  {
  }

  lemma PingKeeps(w: World, id: string)
    requires Inv(w) && Enabled(w, Ping(id))
    ensures Inv(Do(w, Ping(id)))
  {
    var n := w.nodes[id];
    SettledSays(w, id);
    ReportMoreKeeps(w, Report(id, n.trust, n.cert, w.clock, n.floor));
  }

  lemma CertIsUsed(w: World, id: string)
    requires Inv(w) && id in w.nodes
    ensures w.nodes[id].cert in w.used
  {
    var n := w.nodes[id];
    assert NodeInv(w.recs, w.root, n) && Safe(w.recs, w.root, n);
    if n.manager {
      var i :| n.floor <= i <= |w.recs| && n.cert == At(w.recs, w.root, i).sign;
      PinsAreUsed(w.recs, w.root, w.used, i);
    } else if w.recs != [] {
      assert RecInv(w.recs, w.root, w.used, |w.recs| - 1);
    }
  }

  lemma TickKeeps(w: World, now: int)
    requires Inv(w) && Enabled(w, Tick(now))
    ensures Inv(Do(w, Tick(now)))
  {
    forall r | r in w.reports ensures ReportInv(w.recs, w.root, r, w.nodes[r.id], now, w.used) {
      assert ReportInv(w.recs, w.root, r, w.nodes[r.id], w.clock, w.used);
    }
  }

  lemma LatePingKeeps(w: World, r: Report)
    requires Inv(w) && Enabled(w, LatePing(r))
    ensures Inv(Do(w, LatePing(r)))
  {
    assert ReportInv(w.recs, w.root, r, w.nodes[r.id], w.clock, w.used);
    ReportMoreKeeps(w, r.(at := w.clock));
  }

  lemma StepKeeps(w: World, s: Step)
    requires Inv(w) && Enabled(w, s)
    ensures Inv(Do(w, s))
  {
    match s
    case Lead(op, landed) => LeadKeeps(w, op, landed);
    case Tick(now) => TickKeeps(w, now);
    case LatePing(r) => LatePingKeeps(w, r);
    case Ping(id) => PingKeeps(w, id);
    case Adopt(_, _) => ApplyKeeps(w, s);
    case Move(_, _) => ApplyKeeps(w, s);
    case Record(_, _) => ApplyKeeps(w, s);
    case Renew(_) => RenewalKeeps(w, s);
    case Install(_) => RenewalKeeps(w, s);
    case Lose(_) => RenewalKeeps(w, s);
  }
}
