/**
 The agent's half of an agent key rotation (rotateKey in internal/cluster/agent_link.go): what it
 does on a hint and on each answer, and one rotateKey run with nothing in between.
 */
module AgentKeyLink {
  import opened Options
  import opened AgentKeyStore
  import opened AgentKeyLeader

  datatype Action = NothingDue | SwitchNow | Fetch | ConfirmPending | KeyNotHeld

  /** What the hint h asks of an agent with the keys ring. */
  function Decide(ring: KeyRing, h: Hint): Action {
    if h.generation <= ring.state.generation then NothingDue
    else if ring.CanSwitch(h.generation) then if h.current then SwitchNow else ConfirmPending
    else if h.current then KeyNotHeld
    else Fetch
  }

  /** Whether a fetch refused for its proof is asked again with the pending key. */
  predicate Retries(ring: KeyRing, generation: nat) {
    ring.Pending() && ring.state.nextGeneration < generation
  }

  datatype Result = Done | Idle | NotHeld | NotSaved | Refused(answer: Answer)

  datatype Alone = Alone(replicated: Replicated, ring: KeyRing, result: Result)

  function ConfirmAlone(r: Replicated, ring: KeyRing, id: string, generation: nat): Alone {
    var o := Handle(r, id, ConfirmRequest(id, generation, ring.state.next), "");
    var r' := ApplyAll(r, o.writes);
    if o.answer == Switched then Alone(r', ring.Switched(), Done) else Alone(r', ring, Refused(o.answer))
  }

  function TakeAlone(r: Replicated, ring: KeyRing, id: string, generation: nat, answer: Answer): Alone {
    match answer
    case Issued(key) =>
      if ring.Takes(key, generation) then ConfirmAlone(r, ring.Taken(key, generation), id, generation)
      else Alone(r, ring, Refused(answer))
    case Switched => Alone(r, ring, NotHeld)
    case _ => Alone(r, ring, Refused(answer))
  }

  datatype FetchOutcome = FetchOutcome(replicated: Replicated, ring: KeyRing, answer: Answer)

  /** The fetch with the pending key, and the switch to it when it is answered. */
  function FetchAgain(r: Replicated, ring: KeyRing, id: string, generation: nat, made: string): FetchOutcome {
    var o := Handle(r, id, FetchRequest(id, generation, ring.state.next), made);
    FetchOutcome(ApplyAll(r, o.writes), if o.answer.Issued? || o.answer.Switched? then ring.Switched() else ring, o.answer)
  }

  /** The fetch, with the key the agent holds and then, refused for its proof, with the pending one. */
  function FetchKey(r: Replicated, ring: KeyRing, id: string, generation: nat, made: string): FetchOutcome {
    var o := Handle(r, id, FetchRequest(id, generation, ring.current), made);
    if o.answer == BadProof && Retries(ring, generation) then FetchAgain(r, ring, id, generation, made)
    else FetchOutcome(ApplyAll(r, o.writes), ring, o.answer)
  }

  /** One rotateKey by the hint h, every call answered and nothing else happening meanwhile. */
  function RotateAlone(r: Replicated, ring: KeyRing, id: string, h: Hint, made: string): Alone {
    match Decide(ring, h)
    case NothingDue => Alone(r, ring, Idle)
    case SwitchNow => Alone(r, ring.Switched(), Done)
    case KeyNotHeld => Alone(r, ring, NotHeld)
    case ConfirmPending => ConfirmAlone(r, ring, id, h.generation)
    case Fetch =>
      var f := FetchKey(r, ring, id, h.generation, made);
      TakeAlone(f.replicated, f.ring, id, h.generation, f.answer)
  }

  /** A generated key is none the agent holds, whether made now or for an earlier fetch of the generation. */
  predicate KeysAreFresh(r: Replicated, ring: KeyRing, generation: nat, made: string) {
    && made != ring.current && made != ring.state.next
    && (r.next.Issued(generation) && !ring.CanSwitch(generation) ==>
          r.next.key != ring.current && r.next.key != ring.state.next)
  }

  /** The leader is in place and at least n of its writes land. */
  predicate Up(leader: LeaderManager, n: nat)
    reads leader
  {
    leader.leads && leader.caughtUp && leader.budget >= n
  }

  method Confirm(keys: AgentKeys, leader: LeaderManager, id: string, n: nat, keySaved: bool, saved: bool, now: int)
    returns (result: Result)
    requires keys.Valid() && keys.RestartsAsItIs() && keys.Ring().CanSwitch(n)
    modifies keys, keys.dir, keys.secrets, leader`nodes, leader`agentKeys, leader`agentKeyNext, leader`budget
    ensures keys.Valid() && keys.RestartsAsItIs()
    ensures keySaved && old(Up(leader, 2)) ==>
              Alone(leader.View(id), keys.Ring(), result) == ConfirmAlone(old(leader.View(id)), old(keys.Ring()), id, n)
    ensures forall other :: other != id ==> leader.View(other) == old(leader.View(other))
  {
    var answer := leader.HandleRotateAgentKey(id, ConfirmRequest(id, n, keys.state.next), "");
    if answer != Switched {
      return Refused(answer);
    }
    var switched := keys.Switch(n, now, keySaved, saved);
    return if switched then Done else NotSaved;
  }

  method TakeAndConfirm(keys: AgentKeys, leader: LeaderManager, id: string, n: nat, answer: Answer, keySaved: bool, saved: bool, now: int)
    returns (result: Result)
    requires keys.Valid() && keys.RestartsAsItIs() && (answer.Issued? ==> answer.key != keys.current)
    modifies keys, keys.dir, keys.secrets, leader`nodes, leader`agentKeys, leader`agentKeyNext, leader`budget
    ensures keys.Valid() && keys.RestartsAsItIs()
    ensures keySaved && saved && old(Up(leader, 2)) ==>
              Alone(leader.View(id), keys.Ring(), result)
              == TakeAlone(old(leader.View(id)), old(keys.Ring()), id, n, answer)
    ensures forall other :: other != id ==> leader.View(other) == old(leader.View(other))
  {
    if answer.Switched? {
      return NotHeld;
    }
    if !answer.Issued? {
      return Refused(answer);
    }
    var taken := keys.Take(answer.key, n, saved, now);
    if !taken {
      return Refused(answer);
    }
    result := Confirm(keys, leader, id, n, keySaved, saved, now);
  }

  /** The fetch with the pending key, which the agent moves to when it is answered. */
  method AskAgain(keys: AgentKeys, leader: LeaderManager, id: string, n: nat, made: string, keySaved: bool, saved: bool, now: int)
    returns (answer: Answer)
    requires keys.Valid() && keys.RestartsAsItIs() && Retries(keys.Ring(), n)
    requires KeysAreFresh(leader.View(id), keys.Ring(), n, made)
    modifies keys, keys.dir, keys.secrets, leader`nodes, leader`agentKeys, leader`agentKeyNext, leader`budget
    ensures keys.Valid() && keys.RestartsAsItIs()
    ensures answer.Issued? ==> answer.key != keys.current
    ensures keySaved && old(Up(leader, 3)) ==>
              && Up(leader, 2)
              && FetchOutcome(leader.View(id), keys.Ring(), answer) == FetchAgain(old(leader.View(id)), old(keys.Ring()), id, n, made)
    ensures forall other :: other != id ==> leader.View(other) == old(leader.View(other))
  {
    var next, pending := keys.state.next, keys.state.nextGeneration;
    answer := leader.HandleRotateAgentKey(id, FetchRequest(id, n, next), made);
    if answer.Issued? || answer.Switched? {
      var switched := keys.Switch(pending, now, keySaved, saved);
      if !switched {
        answer := Failed;
      }
    }
  }

  method AskForKey(keys: AgentKeys, leader: LeaderManager, id: string, n: nat, made: string, keySaved: bool, saved: bool, now: int)
    returns (answer: Answer)
    requires keys.Valid() && keys.RestartsAsItIs() && !keys.Ring().CanSwitch(n)
    requires KeysAreFresh(leader.View(id), keys.Ring(), n, made)
    modifies keys, keys.dir, keys.secrets, leader`nodes, leader`agentKeys, leader`agentKeyNext, leader`budget
    ensures keys.Valid() && keys.RestartsAsItIs()
    ensures answer.Issued? ==> answer.key != keys.current
    ensures keySaved && old(Up(leader, 3)) ==>
              && Up(leader, 2)
              && FetchOutcome(leader.View(id), keys.Ring(), answer) == FetchKey(old(leader.View(id)), old(keys.Ring()), id, n, made)
    ensures forall other :: other != id ==> leader.View(other) == old(leader.View(other))
  {
    answer := leader.HandleRotateAgentKey(id, FetchRequest(id, n, keys.current), made);
    if answer == BadProof && keys.state.next != "" && keys.state.nextGeneration < n {
      RefusedChangesNothing(old(leader.View(id)), id, FetchRequest(id, n, keys.current), made);
      answer := AskAgain(keys, leader, id, n, made, keySaved, saved, now);
    }
  }

  lemma RefusedChangesNothing(r: Replicated, id: string, q: Request, made: string)
    ensures Handle(r, id, q, made).answer == BadProof ==> Handle(r, id, q, made).writes == []
  {
  }

  /**
   rotateKey itself, on the agent's key store and a leader's manager. With the leader in place, its
   writes landing and the agent's files writable it ends as RotateAlone says; whatever stops it, a
   restart of the agent loses nothing but the key left at the last switch, and no other agent's
   keys change.
   */
  method RotateKey(keys: AgentKeys, leader: LeaderManager, id: string, h: Hint, made: string, keySaved: bool, saved: bool, now: int)
    returns (result: Result)
    requires keys.Valid() && keys.RestartsAsItIs()
    requires h.generation > keys.state.generation ==> KeysAreFresh(leader.View(id), keys.Ring(), h.generation, made)
    modifies keys, keys.dir, keys.secrets, leader`nodes, leader`agentKeys, leader`agentKeyNext, leader`budget
    ensures keys.Valid() && keys.RestartsAsItIs()
    ensures keySaved && saved && old(Up(leader, 3)) ==>
              Alone(leader.View(id), keys.Ring(), result)
              == RotateAlone(old(leader.View(id)), old(keys.Ring()), id, h, made)
    ensures forall other :: other != id ==> leader.View(other) == old(leader.View(other))
  {
    var n := h.generation;
    if n <= keys.state.generation {
      return Idle;
    }
    var next, pending := keys.state.next, keys.state.nextGeneration;
    if next != "" && pending == n {
      if h.current {
        var switched := keys.Switch(n, now, keySaved, saved);
        return if switched then Done else NotSaved;
      }
      result := Confirm(keys, leader, id, n, keySaved, saved, now);
      return;
    }
    if h.current {
      return NotHeld;
    }
    var answer := AskForKey(keys, leader, id, n, made, keySaved, saved, now);
    result := TakeAndConfirm(keys, leader, id, n, answer, keySaved, saved, now);
  }
}
