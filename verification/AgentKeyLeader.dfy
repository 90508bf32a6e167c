/**
 The leader's half of an agent key rotation (internal/cluster/agent_key_rotation.go): its steps as
 the writes they make to replicated state, in order, and the manager that makes them.
 */
module AgentKeyLeader {
  import opened Options

  datatype Member = Absent | Agent | Manager

  /** One agent's move to a rotation's key: issued while it has a key, switched once it has none. */
  datatype NextRec = NextRec(generation: nat, key: string, switched: bool) {
    predicate SwitchedAt(g: nat) { generation == g && switched }
    predicate Issued(g: nat) { generation == g && key != "" }
  }

  // What agentKeyNextOf gives for an agent with no record.
  const NO_NEXT := NextRec(0, "", false)

  /**
   What replicated state holds for one agent: its node record, the last rotation's generation (0
   with none), the key the managers sign for it with ("" with none), and its move.
   */
  datatype Replicated = Replicated(member: Member, generation: nat, signing: string, next: NextRec)

  datatype Write = SetMember(m: Member) | SetGeneration(g: nat) | SetSigning(key: string) | SetNext(rec: NextRec)

  function Apply(r: Replicated, w: Write): Replicated {
    match w
    case SetMember(m) => r.(member := m)
    case SetGeneration(g) => r.(generation := g)
    case SetSigning(k) => r.(signing := k)
    case SetNext(n) => r.(next := n)
  }

  function ApplyAll(r: Replicated, ws: seq<Write>): Replicated
    decreases |ws|
  {
    if ws == [] then r else ApplyAll(Apply(r, ws[0]), ws[1..])
  }

  /** agentKeyProof: an opaque term, equal only when made of the same parts. */
  datatype Proof = Proof(key: string, confirm: bool, id: string, generation: nat)

  datatype Request = Request(generation: nat, proof: Proof, confirm: bool)

  datatype Answer = NotLeader | NoKeyDue | BadProof | Issued(key: string) | Switched | Failed

  datatype Outcome = Outcome(writes: seq<Write>, answer: Answer)

  function FetchRequest(id: string, generation: nat, key: string): Request {
    Request(generation, Proof(key, false, id, generation), false)
  }

  function ConfirmRequest(id: string, generation: nat, key: string): Request {
    Request(generation, Proof(key, true, id, generation), true)
  }

  predicate Proved(id: string, q: Request, key: string, confirm: bool) {
    key != "" && q.proof == Proof(key, confirm, id, q.generation)
  }

  /** What a caught-up leader does with q for agent id; made is the key it makes if it must make one. */
  function Handle(r: Replicated, id: string, q: Request, made: string): Outcome {
    if r.member != Agent || r.generation == 0 || r.generation != q.generation then
      Outcome([], NoKeyDue)
    else if !q.confirm then
      if r.next.SwitchedAt(q.generation) then Outcome([], Switched)
      else if !Proved(id, q, r.signing, false) then Outcome([], BadProof)
      else if r.next.Issued(q.generation) then Outcome([], Issued(r.next.key))
      else Outcome([SetNext(NextRec(q.generation, made, false))], Issued(made))
    else if r.next.SwitchedAt(q.generation) then
      Outcome([], if Proved(id, q, r.signing, true) then Switched else BadProof)
    else if r.next.Issued(q.generation) then
      if !Proved(id, q, r.next.key, true) then Outcome([], BadProof)
      else Outcome([SetSigning(r.next.key), SetNext(NextRec(q.generation, "", true))], Switched)
    else Outcome([], NoKeyDue)
  }

  datatype Hint = Hint(generation: nat, current: bool)

  function HintOf(r: Replicated): Hint {
    Hint(r.generation, r.next.SwitchedAt(r.generation))
  }

  // The two deletes of a removal or a promotion, under the rotation's lock.
  const DROP_KEYS := [SetSigning(""), SetNext(NO_NEXT)]

  /** The part of ws that lands when the leader stops after landed writes. */
  function Landed<T>(ws: seq<T>, landed: nat): seq<T> {
    if landed < |ws| then ws[..landed] else ws
  }

  lemma ApplyOne(r: Replicated, w: Write)
    ensures ApplyAll(r, [w]) == Apply(r, w)
  {
    assert ApplyAll(r, [w]) == ApplyAll(Apply(r, w), [w][1..]);
  }

  lemma ApplyTwo(r: Replicated, ws: seq<Write>)
    requires |ws| == 2
    ensures ApplyAll(r, ws) == Apply(Apply(r, ws[0]), ws[1])
    ensures forall n: nat :: ApplyAll(r, Landed(ws, n)) ==
                             if n == 0 then r else if n == 1 then Apply(r, ws[0]) else ApplyAll(r, ws)
  {
    assert ws[1..][1..] == [];
    assert ApplyAll(r, ws) == ApplyAll(Apply(r, ws[0]), ws[1..]);
    assert ws[..1][1..] == [];
  }

  /**
   The leader's manager: the replicated maps a rotation reads and writes. budget is how many writes
   land before it stops; a write past it fails, and so does everything after.
   */
  class LeaderManager {
    var nodes: map<string, Member>
    var generation: nat
    var agentKeys: map<string, string>
    var agentKeyNext: map<string, NextRec>
    var leads: bool
    var caughtUp: bool
    var budget: nat

    constructor (nodes: map<string, Member>, generation: nat, agentKeys: map<string, string>,
                 agentKeyNext: map<string, NextRec>, budget: nat)
      ensures this.nodes == nodes && this.generation == generation && this.agentKeys == agentKeys
      ensures this.agentKeyNext == agentKeyNext && this.budget == budget && leads && caughtUp
    {
      this.nodes, this.generation, this.agentKeys := nodes, generation, agentKeys;
      this.agentKeyNext, this.budget := agentKeyNext, budget;
      leads, caughtUp := true, true;
    }

    function View(id: string): Replicated
      reads this
    {
      Replicated(if id in nodes then nodes[id] else Absent, generation,
                 if id in agentKeys then agentKeys[id] else "",
                 if id in agentKeyNext then agentKeyNext[id] else NO_NEXT)
    }

    /** One write about agent id, which lands while there is budget. */
    method Commit(id: string, w: Write) returns (ok: bool)
      requires !w.SetGeneration?
      modifies this`nodes, this`agentKeys, this`agentKeyNext, this`budget
      ensures ok == (old(budget) > 0) && budget == (if ok then old(budget) - 1 else 0)
      ensures View(id) == if ok then Apply(old(View(id)), w) else old(View(id))
      ensures forall other :: other != id ==> View(other) == old(View(other))
    {
      if budget == 0 {
        return false;
      }
      budget := budget - 1;
      match w {
        case SetMember(m) => nodes := nodes[id := m];
        case SetSigning(k) => agentKeys := if k == "" then agentKeys - {id} else agentKeys[id := k];
        case SetNext(n) => agentKeyNext := if n == NO_NEXT then agentKeyNext - {id} else agentKeyNext[id := n];
      }
      return true;
    }

    /**
     Starts a rotation: one write, of the next generation alone, and nothing when it is refused —
     off the leader, on one that has not caught up, or while ready is false: a manager not online,
     or an online agent, on a release that does not follow.
     */
    method StartAgentKeyRotation(ready: bool) returns (started: Option<nat>)
      modifies this`generation, this`budget
      ensures started.Some? == (leads && caughtUp && ready && old(budget) > 0)
      ensures started.Some? ==> started.value == old(generation) + 1
      ensures forall id :: View(id) == if started.Some? then Apply(old(View(id)), SetGeneration(old(generation) + 1))
                                       else old(View(id))
    {
      if !leads || !caughtUp || !ready || budget == 0 {
        return None;
      }
      budget := budget - 1;
      generation := generation + 1;
      return Some(generation);
    }

    /** Runs one step for agent id: the writes Handle gives, in order, as far as they land. */
    method HandleRotateAgentKey(id: string, q: Request, made: string) returns (answer: Answer)
      modifies this`nodes, this`agentKeys, this`agentKeyNext, this`budget
      ensures !leads || !caughtUp ==> answer == NotLeader && View(id) == old(View(id))
      ensures leads && caughtUp ==>
                var o := Handle(old(View(id)), id, q, made);
                && View(id) == ApplyAll(old(View(id)), Landed(o.writes, old(budget)))
                && answer == (if old(budget) < |o.writes| then Failed else o.answer)
                && budget == (if old(budget) < |o.writes| then 0 else old(budget) - |o.writes|)
      ensures forall other :: other != id ==> View(other) == old(View(other))
    {
      if !leads || !caughtUp {
        return NotLeader;
      }
      var r := View(id);
      if r.member != Agent || r.generation == 0 || r.generation != q.generation {
        return NoKeyDue;
      }
      var next := r.next;
      if !q.confirm {
        if next.SwitchedAt(q.generation) {
          return Switched;
        }
        if !Proved(id, q, r.signing, false) {
          return BadProof;
        }
        if next.generation == q.generation && next.key != "" {
          return Issued(next.key);
        }
        var ok := Commit(id, SetNext(NextRec(q.generation, made, false)));
        if !ok {
          return Failed;
        }
        return Issued(made);
      }
      if next.SwitchedAt(q.generation) {
        if !Proved(id, q, r.signing, true) {
          return BadProof;
        }
        return Switched;
      }
      if next.generation == q.generation && next.key != "" {
        if !Proved(id, q, next.key, true) {
          return BadProof;
        }
        ApplyTwo(r, Handle(r, id, q, made).writes);
        var ok := Commit(id, SetSigning(next.key));
        if !ok {
          return Failed;
        }
        ok := Commit(id, SetNext(NextRec(q.generation, "", true)));
        if !ok {
          return Failed;
        }
        return Switched;
      }
      return NoKeyDue;
    }

    /** Takes the agent's keys out, the signing key first, as far as the writes land. */
    method DropKeys(id: string) returns (ok: bool)
      modifies this`nodes, this`agentKeys, this`agentKeyNext, this`budget
      ensures View(id) == ApplyAll(old(View(id)), Landed(DROP_KEYS, old(budget)))
      ensures ok == (old(budget) >= 2)
      ensures forall other :: other != id ==> View(other) == old(View(other))
    {
      ApplyTwo(View(id), DROP_KEYS);
      ok := Commit(id, SetSigning(""));
      if ok {
        ok := Commit(id, SetNext(NO_NEXT));
      }
    }
  }
}
