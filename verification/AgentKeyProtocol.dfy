/**
 An agent key rotation as a protocol between the replicated state and one agent. Requests once sent
 may be handled at any later time and any number of times, answers are lost, a leader stops between
 its two writes or makes the second one late — after others have led — the agent crashes between any two
 file writes, rotations start at any time, and the agent may be removed or promoted, that late too.
 */
module AgentKeyProtocol {
  import opened Options
  import opened AgentKeyStore
  import opened AgentKeyLeader
  import opened AgentKeyLink

  /** What the agent's sender waits for. */
  datatype Driver = Resting | Fetching(generation: nat, second: bool) | Confirming(generation: nat)

  datatype World = World(
    r: Replicated,
    lastSigning: string,                // the last key the managers signed with, kept past a removal
    disk: Disk,
    ring: KeyRing,                      // the agent's memory, from its disk after a crash
    driver: Driver,
    calls: nat,                         // the last call the agent made
    sent: set<(nat, Request)>,
    answers: set<(nat, Answer)>,
    hints: set<Hint>,                   // every hint a caught-up leader has given
    owed: set<nat>,                     // the generations whose second confirm write may still land
    used: set<string>,                  // every key made so far
    dropOwed: bool                      // a removal's second delete may still land
  )

  datatype Step =
    | Start
    | Pong
    | Serve(call: nat, request: Request, made: string, landed: nat)
    | LateSecond(generation: nat)
    | Begin(hint: Hint, writes: nat, saved: bool)
    | Receive(answer: Answer, writes: nat, saved: bool)
    | GiveUp
    | Drop(landed: nat)
    | LateDrop
    | SetKind(member: Member)

  const ID := "agent"

  function Last(d: Disk, trail: seq<Disk>): Disk {
    if trail == [] then d else trail[|trail| - 1]
  }

  /** What an answer makes the agent do: the file writes, the keys after them, and the next request. */
  datatype Reaction = Reaction(trail: seq<Disk>, ring: KeyRing, driver: Driver, request: Option<Request>)

  function OnAnswer(d: Disk, ring: KeyRing, driver: Driver, answer: Answer, saved: bool): Reaction
    requires driver != Resting
  {
    match driver
    case Confirming(n) =>
      if answer == Switched then Reaction(SwitchTrail(d, ring, saved), ring.Switched(), Resting, None)
      else Reaction([], ring, Resting, None)
    case Fetching(n, second) =>
      var moves := second && (answer.Issued? || answer.Switched?);
      var trail := if moves then SwitchTrail(d, ring, saved) else [];
      var ring1 := if moves then ring.Switched() else ring;
      if answer.Issued? && ring1.Takes(answer.key, n) then
        Reaction(trail + TakeTrail(Last(d, trail), ring1, answer.key, n), ring1.Taken(answer.key, n),
                 Confirming(n), Some(ConfirmRequest(ID, n, answer.key)))
      else if answer == BadProof && !second && Retries(ring, n) then
        Reaction([], ring, Fetching(n, true), Some(FetchRequest(ID, n, ring.state.next)))
      else Reaction(trail, ring1, Resting, None)
  }

  function OnHint(d: Disk, ring: KeyRing, h: Hint, saved: bool): Reaction {
    match Decide(ring, h)
    case NothingDue => Reaction([], ring, Resting, None)
    case KeyNotHeld => Reaction([], ring, Resting, None)
    case SwitchNow => Reaction(SwitchTrail(d, ring, saved), ring.Switched(), Resting, None)
    case ConfirmPending =>
      Reaction([], ring, Confirming(h.generation), Some(ConfirmRequest(ID, h.generation, ring.state.next)))
    case Fetch =>
      Reaction([], ring, Fetching(h.generation, false), Some(FetchRequest(ID, h.generation, ring.current)))
  }

  /** The agent does what a says, or crashes once writes of its file writes are done and boots again. */
  function React(w: World, a: Reaction, writes: nat): World
    requires w.disk.agentKey != ""
  {
    if writes < |a.trail| then
      var disk := Last(w.disk, a.trail[..writes]);
      w.(disk := disk, ring := if Boot(disk).Some? then Boot(disk).value else w.ring, driver := Resting)
    else
      var w1 := w.(disk := Last(w.disk, a.trail), ring := a.ring, driver := a.driver);
      if a.request == None then w1
      else w1.(calls := w.calls + 1, sent := w.sent + {(w.calls + 1, a.request.value)})
  }

  ghost predicate Enabled(w: World, s: Step) {
    match s
    case Start => true
    case Pong => w.r.generation > 0
    case Serve(c, q, made, landed) => (c, q) in w.sent && made != "" && made !in w.used
    case LateSecond(g) => g in w.owed
    case Begin(h, writes, saved) => w.driver == Resting && h in w.hints && w.disk.agentKey != ""
    case Receive(a, writes, saved) => w.driver != Resting && (w.calls, a) in w.answers && w.disk.agentKey != ""
    case GiveUp => true
    case Drop(landed) => true
    case LateDrop => w.dropOwed
    case SetKind(m) => m != Agent
  }

  function Signed(last: string, r: Replicated): string {
    if r.signing == "" then last else r.signing
  }

  ghost function Do(w: World, s: Step): World
    requires Enabled(w, s)
  {
    match s
    case Start => w.(r := Apply(w.r, SetGeneration(w.r.generation + 1)))
    case Pong => w.(hints := w.hints + {HintOf(w.r)})
    case Serve(c, q, made, landed) =>
      var o := Handle(w.r, ID, q, made);
      var r := ApplyAll(w.r, Landed(o.writes, landed));
      w.(r := r, lastSigning := Signed(w.lastSigning, r), used := w.used + {made},
         answers := if landed < |o.writes| then w.answers else w.answers + {(c, o.answer)},
         owed := if |o.writes| == 2 && landed == 1 then w.owed + {q.generation} else w.owed)
    case LateSecond(g) => w.(r := Apply(w.r, SetNext(NextRec(g, "", true))))
    case Begin(h, writes, saved) => React(w, OnHint(w.disk, w.ring, h, saved), writes)
    case Receive(a, writes, saved) => React(w, OnAnswer(w.disk, w.ring, w.driver, a, saved), writes)
    case GiveUp => w.(driver := Resting)
    case Drop(landed) => w.(r := ApplyAll(w.r, Landed(DROP_KEYS, landed)), dropOwed := w.dropOwed || landed == 1)
    case LateDrop => w.(r := Apply(w.r, DROP_KEYS[1]))
    case SetKind(m) => w.(r := Apply(w.r, SetMember(m)))
  }

  /** An agent just registered, at whatever generation the cluster's last rotation has. */
  predicate Init(w: World) {
    && w.lastSigning != ""
    && w.r == Replicated(Agent, w.r.generation, w.lastSigning, NO_NEXT)
    && w.disk == Disk(w.lastSigning, Missing) && w.ring == KeyRing(w.lastSigning, FRESH_STATE)
    && w.driver == Resting && w.sent == {} && w.answers == {} && w.hints == {} && w.owed == {}
    && w.used == {w.lastSigning} && !w.dropOwed
  }

  ghost predicate Runs(w: World, steps: seq<Step>)
    decreases |steps|
  {
    steps == [] || (Enabled(w, steps[0]) && Runs(Do(w, steps[0]), steps[1..]))
  }

  ghost function After(w: World, steps: seq<Step>): World
    requires Runs(w, steps)
    decreases |steps|
  {
    if steps == [] then w else After(Do(w, steps[0]), steps[1..])
  }

  // --- The invariant ---

  /** The managers' key of generation g is the agent's, if they ever signed with one: it switched, or may. */
  predicate Settled(w: World, g: nat) {
    w.ring.state.generation >= g || (w.ring.CanSwitch(g) && w.lastSigning == w.ring.state.next)
  }

  predicate KeysInv(w: World) {
    var ring := w.ring;
    && Boot(w.disk) == Some(ring) && ring.current != "" && ring.current in w.used
    && (ring.Pending() ==> ring.state.next != ring.current && ring.state.next in w.used
                           && ring.state.generation < ring.state.nextGeneration <= w.r.generation)
    && ring.state.generation <= w.r.generation
    && w.lastSigning != "" && (w.r.signing == "" || w.r.signing == w.lastSigning)
    && (w.lastSigning == ring.current || w.lastSigning == ring.state.next)
  }

  /** The key issued is one the agent is moving to, has moved to, or has never held. */
  predicate NextInv(w: World) {
    var n, ring := w.r.next, w.ring;
    && n.generation <= w.r.generation
    && (n.switched ==> n.key == "" && Settled(w, n.generation))
    && (n.generation > 0 && !n.switched ==> n.key != "")
    && (n.key != "" ==>
          && n.key in w.used && n.generation > 0
          && (|| (ring.CanSwitch(n.generation) && ring.state.next == n.key)
              || (ring.current == n.key && ring.state.generation == n.generation)
              || (n.key != ring.current && n.key != ring.state.next)))
  }

  predicate ConfirmInv(w: World, q: Request) {
    q.generation == w.r.generation ==>
      || (w.ring.CanSwitch(q.generation) && w.ring.state.next == q.proof.key)
      || (w.ring.current == q.proof.key && w.ring.state.generation == q.generation)
  }

  ghost predicate SentInv(w: World) {
    && (forall c, q :: (c, q) in w.sent ==>
          && c <= w.calls && q.generation <= w.r.generation && q.proof.key != ""
          && q.proof == Proof(q.proof.key, q.confirm, ID, q.generation)
          && (q.confirm ==> ConfirmInv(w, q)))
    && (forall c, a :: (c, a) in w.answers ==> c <= w.calls)
    && (forall h :: h in w.hints ==> h.generation <= w.r.generation && (h.current ==> Settled(w, h.generation)))
    && (forall g :: g in w.owed ==> g <= w.r.generation && g > 0 && Settled(w, g))
  }

  function ProofKey(w: World): string
    requires w.driver.Fetching?
  {
    if w.driver.second then w.ring.state.next else w.ring.current
  }

  /** A key in an answer the agent waits for: one it never held, for a proof the managers still sign by. */
  predicate IssuedInv(w: World, key: string)
    requires w.driver.Fetching?
  {
    var n, ring := w.driver.generation, w.ring;
    && key != "" && key in w.used && key != ring.current && key != ring.state.next
    && w.lastSigning == ProofKey(w)
    && (ring.Pending() ==> ring.state.nextGeneration < n)
    && (w.r.next.key == key ==> w.r.next.generation == n)
  }

  ghost predicate DriverInv(w: World) {
    match w.driver
    case Resting => true
    case Fetching(n, second) =>
      && w.ring.state.generation < n <= w.r.generation && !w.ring.CanSwitch(n)
      && (second ==> Retries(w.ring, n))
      && (forall q :: (w.calls, q) in w.sent ==> q == FetchRequest(ID, n, ProofKey(w)))
      && (w.calls, Switched) !in w.answers
      && (forall k :: (w.calls, Issued(k)) in w.answers ==> IssuedInv(w, k))
    case Confirming(n) =>
      && w.ring.CanSwitch(n)
      && (forall q :: (w.calls, q) in w.sent ==> q == ConfirmRequest(ID, n, w.ring.state.next))
      && ((w.calls, Switched) in w.answers ==> w.lastSigning == w.ring.state.next)
  }

  ghost predicate Inv(w: World) {
    KeysInv(w) && NextInv(w) && SentInv(w) && DriverInv(w)
  }

  // --- The agent's own moves ---

  function Moved(w: World, disk: Disk, ring: KeyRing): World {
    w.(disk := disk, ring := ring, driver := Resting)
  }

  lemma RestKeeps(w: World)
    requires Inv(w)
    ensures Inv(w.(driver := Resting))
  {
  }

  /** Switching keeps the invariant once the managers sign with the pending key. */
  lemma SwitchKeeps(w: World, disk: Disk)
    requires Inv(w) && w.ring.Pending() && w.lastSigning == w.ring.state.next
    requires Boot(disk) == Some(w.ring.Switched())
    ensures Inv(Moved(w, disk, w.ring.Switched()))
  {
  }

  /** Taking a key the agent never held keeps it, when the managers sign with agent.key. */
  lemma TakeKeeps(w: World, disk: Disk, key: string, n: nat)
    requires Inv(w) && w.ring.Takes(key, n) && w.lastSigning == w.ring.current
    requires key in w.used && key != w.ring.current && key != w.ring.state.next
    requires n <= w.r.generation && (w.ring.Pending() ==> w.ring.state.nextGeneration < n)
    requires w.r.next.key == key ==> w.r.next.generation == n
    requires Boot(disk) == Some(w.ring.Taken(key, n))
    ensures Inv(Moved(w, disk, w.ring.Taken(key, n)))
  {
  }

  function Call(w: World, driver: Driver, q: Request): World {
    w.(driver := driver, calls := w.calls + 1, sent := w.sent + {(w.calls + 1, q)})
  }

  lemma FetchCallKeeps(w: World, n: nat, second: bool)
    requires Inv(w) && w.ring.state.generation < n <= w.r.generation && !w.ring.CanSwitch(n)
    requires second ==> Retries(w.ring, n)
    ensures Inv(Call(w, Fetching(n, second), FetchRequest(ID, n, if second then w.ring.state.next else w.ring.current)))
  {
  }

  lemma ConfirmCallKeeps(w: World, n: nat)
    requires Inv(w) && w.ring.CanSwitch(n)
    ensures Inv(Call(w, Confirming(n), ConfirmRequest(ID, n, w.ring.state.next)))
  {
  }

  // What a switch's file writes leave, by how many were done before a crash.
  function SwitchedPart(w: World, writes: nat, saved: bool): World {
    var trail := SwitchTrail(w.disk, w.ring, saved);
    if writes == 0 then w.(driver := Resting)
    else Moved(w, trail[if writes < |trail| then writes - 1 else |trail| - 1], w.ring.Switched())
  }

  lemma SwitchedPartKeeps(w: World, writes: nat, saved: bool)
    requires Inv(w) && w.ring.Pending() && w.lastSigning == w.ring.state.next
    ensures Inv(SwitchedPart(w, writes, saved))
  {
    var trail := SwitchTrail(w.disk, w.ring, saved);
    SwitchSurvivesBoot(w.disk, w.ring, saved);
    if writes == 0 {
      RestKeeps(w);
    } else {
      SwitchKeeps(w, trail[if writes < |trail| then writes - 1 else |trail| - 1]);
    }
  }

  // A reaction that is a switch alone.
  lemma SwitchReactionIs(w: World, writes: nat, saved: bool)
    requires Boot(w.disk) == Some(w.ring) && w.ring.Pending()
    ensures React(w, Reaction(SwitchTrail(w.disk, w.ring, saved), w.ring.Switched(), Resting, None), writes)
            == SwitchedPart(w, writes, saved)
  {
    var trail := SwitchTrail(w.disk, w.ring, saved);
    SwitchSurvivesBoot(w.disk, w.ring, saved);
    if writes < |trail| {
      assert writes > 0 ==> Last(w.disk, trail[..writes]) == trail[writes - 1];
    }
  }

  lemma SwitchNowKeeps(w: World, h: Hint, writes: nat, saved: bool)
    requires Inv(w) && Enabled(w, Begin(h, writes, saved)) && Decide(w.ring, h) == SwitchNow
    ensures Inv(Do(w, Begin(h, writes, saved)))
  {
    SwitchReactionIs(w, writes, saved);
    SwitchedPartKeeps(w, writes, saved);
  }

  lemma CallReactionIs(w: World, driver: Driver, q: Request, writes: nat)
    requires w.disk.agentKey != ""
    ensures React(w, Reaction([], w.ring, driver, Some(q)), writes) == Call(w, driver, q)
  {
  }

  lemma HintIsHeld(w: World, h: Hint)
    requires Inv(w) && h in w.hints
    ensures Decide(w.ring, h) != KeyNotHeld
  {
  }

  lemma HintKeeps(w: World, h: Hint, writes: nat, saved: bool)
    requires Inv(w) && Enabled(w, Begin(h, writes, saved))
    ensures Inv(Do(w, Begin(h, writes, saved)))
  {
    HintIsHeld(w, h);
    match Decide(w.ring, h)
    case NothingDue => RestKeeps(w);
    case SwitchNow => SwitchNowKeeps(w, h, writes, saved);
    case ConfirmPending =>
      ConfirmCallKeeps(w, h.generation);
      CallReactionIs(w, Confirming(h.generation), ConfirmRequest(ID, h.generation, w.ring.state.next), writes);
    case Fetch =>
      FetchCallKeeps(w, h.generation, false);
      CallReactionIs(w, Fetching(h.generation, false), FetchRequest(ID, h.generation, w.ring.current), writes);
  }

  lemma ConfirmAnswerKeeps(w: World, a: Answer, writes: nat, saved: bool)
    requires Inv(w) && w.driver.Confirming? && Enabled(w, Receive(a, writes, saved))
    ensures Inv(Do(w, Receive(a, writes, saved)))
  {
    if a == Switched {
      SwitchReactionIs(w, writes, saved);
      SwitchedPartKeeps(w, writes, saved);
    } else {
      RestKeeps(w);
    }
  }

  // What the first fetch's answer does: nothing before the file is written, and then the take and the confirm.
  lemma FirstIssuedIs(w: World, key: string, writes: nat, saved: bool)
    requires w.driver.Fetching? && !w.driver.second && w.ring.Takes(key, w.driver.generation)
    requires Enabled(w, Receive(Issued(key), writes, saved)) && Boot(w.disk) == Some(w.ring)
    ensures var n, w1 := w.driver.generation, Do(w, Receive(Issued(key), writes, saved));
            w1 == if writes == 0 then w.(driver := Resting)
                  else Call(Moved(w, TakeTrail(w.disk, w.ring, key, n)[0], w.ring.Taken(key, n)), Confirming(n),
                            ConfirmRequest(ID, n, key))
  {
  }

  /** The first fetch's answer: the key taken beside agent.key, and confirmed. */
  lemma FirstIssuedKeeps(w: World, key: string, writes: nat, saved: bool)
    requires Inv(w) && w.driver.Fetching? && !w.driver.second
    requires Enabled(w, Receive(Issued(key), writes, saved)) && IssuedInv(w, key)
    ensures Inv(Do(w, Receive(Issued(key), writes, saved)))
  {
    var n := w.driver.generation;
    FirstIssuedIs(w, key, writes, saved);
    if writes == 0 {
      RestKeeps(w);
    } else {
      TakeSurvivesBoot(w.disk, w.ring, key, n);
      var disk := TakeTrail(w.disk, w.ring, key, n)[0];
      TakeKeeps(w, disk, key, n);
      ConfirmCallKeeps(Moved(w, disk, w.ring.Taken(key, n)), n);
    }
  }

  lemma SecondIssuedCrashIs(w: World, key: string, writes: nat, saved: bool)
    requires w.driver.Fetching? && w.driver.second && w.ring.Pending() && w.ring.Switched().Takes(key, w.driver.generation)
    requires Enabled(w, Receive(Issued(key), writes, saved)) && Boot(w.disk) == Some(w.ring)
    requires writes <= |SwitchTrail(w.disk, w.ring, saved)|
    ensures Do(w, Receive(Issued(key), writes, saved)) ==
              if writes == 0 then w.(driver := Resting)
              else Moved(w, SwitchTrail(w.disk, w.ring, saved)[writes - 1], w.ring.Switched())
  {
    SwitchSurvivesBoot(w.disk, w.ring, saved);
    if writes > 0 {
      var a := OnAnswer(w.disk, w.ring, w.driver, Issued(key), saved);
      assert Last(w.disk, a.trail[..writes]) == SwitchTrail(w.disk, w.ring, saved)[writes - 1];
    }
  }

  /** A crash in the second fetch's file writes: before the switch, or past it and before the take. */
  lemma SecondIssuedCrashKeeps(w: World, key: string, writes: nat, saved: bool)
    requires Inv(w) && w.driver.Fetching? && w.driver.second
    requires Enabled(w, Receive(Issued(key), writes, saved)) && IssuedInv(w, key)
    requires writes <= |SwitchTrail(w.disk, w.ring, saved)|
    ensures Inv(Do(w, Receive(Issued(key), writes, saved)))
  {
    SecondIssuedCrashIs(w, key, writes, saved);
    if writes == 0 {
      RestKeeps(w);
    } else {
      SwitchSurvivesBoot(w.disk, w.ring, saved);
      SwitchKeeps(w, SwitchTrail(w.disk, w.ring, saved)[writes - 1]);
    }
  }

  lemma SecondIssuedIs(w: World, key: string, writes: nat, saved: bool)
    requires w.driver.Fetching? && w.driver.second && w.ring.Switched().Takes(key, w.driver.generation)
    requires Enabled(w, Receive(Issued(key), writes, saved)) && writes > |SwitchTrail(w.disk, w.ring, saved)|
    ensures var n, d1 := w.driver.generation, Last(w.disk, SwitchTrail(w.disk, w.ring, saved));
            var ring2, d2 := w.ring.Switched().Taken(key, n), TakeTrail(d1, w.ring.Switched(), key, n)[0];
            Do(w, Receive(Issued(key), writes, saved))
            == Call(Moved(Moved(w, d1, w.ring.Switched()), d2, ring2), Confirming(n), ConfirmRequest(ID, n, key))
  {
  }

  /** The answer to the fetch asked again: the switch to the pending key, the take, and the confirm. */
  lemma SecondIssuedKeeps(w: World, key: string, writes: nat, saved: bool)
    requires Inv(w) && w.driver.Fetching? && w.driver.second
    requires Enabled(w, Receive(Issued(key), writes, saved)) && IssuedInv(w, key)
    requires writes > |SwitchTrail(w.disk, w.ring, saved)|
    ensures Inv(Do(w, Receive(Issued(key), writes, saved)))
  {
    var n, ring1 := w.driver.generation, w.ring.Switched();
    SecondIssuedIs(w, key, writes, saved);
    SwitchSurvivesBoot(w.disk, w.ring, saved);
    var d1 := Last(w.disk, SwitchTrail(w.disk, w.ring, saved));
    SwitchKeeps(w, d1);
    TakeSurvivesBoot(d1, ring1, key, n);
    var w1, d2 := Moved(w, d1, ring1), TakeTrail(d1, ring1, key, n)[0];
    TakeKeeps(w1, d2, key, n);
    ConfirmCallKeeps(Moved(w1, d2, ring1.Taken(key, n)), n);
  }

  lemma IssuedKeeps(w: World, key: string, writes: nat, saved: bool)
    requires Inv(w) && w.driver.Fetching? && Enabled(w, Receive(Issued(key), writes, saved))
    ensures Inv(Do(w, Receive(Issued(key), writes, saved)))
  {
    assert IssuedInv(w, key);
    if !w.driver.second {
      FirstIssuedKeeps(w, key, writes, saved);
    } else if writes <= |SwitchTrail(w.disk, w.ring, saved)| {
      SecondIssuedCrashKeeps(w, key, writes, saved);
    } else {
      SecondIssuedKeeps(w, key, writes, saved);
    }
  }

  lemma NotIssuedIs(w: World, a: Answer, writes: nat, saved: bool)
    requires w.driver.Fetching? && !a.Issued? && a != Switched && Enabled(w, Receive(a, writes, saved))
    ensures Do(w, Receive(a, writes, saved)) ==
              if a == BadProof && !w.driver.second && Retries(w.ring, w.driver.generation)
              then Call(w, Fetching(w.driver.generation, true), FetchRequest(ID, w.driver.generation, w.ring.state.next))
              else w.(driver := Resting)
  {
  }

  lemma FetchAnswerKeeps(w: World, a: Answer, writes: nat, saved: bool)
    requires Inv(w) && w.driver.Fetching? && Enabled(w, Receive(a, writes, saved))
    ensures Inv(Do(w, Receive(a, writes, saved)))
  {
    if a.Issued? {
      IssuedKeeps(w, a.key, writes, saved);
    } else {
      NotIssuedIs(w, a, writes, saved);
      RestKeeps(w);
      if a == BadProof && !w.driver.second && Retries(w.ring, w.driver.generation) {
        FetchCallKeeps(w, w.driver.generation, true);
      }
    }
  }

  // --- The leader's moves ---

  lemma StartKeeps(w: World)
    requires Inv(w)
    ensures Inv(Do(w, Start))
  {
  }

  lemma PongKeeps(w: World)
    requires Inv(w) && w.r.generation > 0
    ensures Inv(Do(w, Pong))
  {
  }

  lemma LateSecondKeeps(w: World, g: nat)
    requires Inv(w) && g in w.owed
    ensures Inv(Do(w, LateSecond(g)))
  {
  }

  lemma DropKeeps(w: World, landed: nat)
    requires Inv(w)
    ensures Inv(Do(w, Drop(landed)))
  {
    ApplyTwo(w.r, DROP_KEYS);
  }

  function Answered(w: World, c: nat, a: Answer): World {
    w.(answers := w.answers + {(c, a)})
  }

  lemma MadeKeeps(w: World, made: string)
    requires Inv(w)
    ensures Inv(w.(used := w.used + {made}))
  {
  }

  /** An answer that issues nothing and reports no switch made keeps it. */
  lemma RefusalKeeps(w: World, c: nat, a: Answer)
    requires Inv(w) && c <= w.calls && !a.Issued? && a != Switched
    ensures Inv(Answered(w, c, a))
  {
  }

  /** The key of the generation asked for, issued already or now, for a proof by what the managers sign with. */
  lemma IssueKeeps(w: World, c: nat, q: Request, key: string)
    requires Inv(w) && (c, q) in w.sent && !q.confirm && q.generation == w.r.generation > 0
    requires Proved(ID, q, w.r.signing, false) && !w.r.next.SwitchedAt(q.generation) && key != "" && key in w.used
    requires if w.r.next.Issued(q.generation) then w.r.next.key == key
             else key != w.ring.current && key != w.ring.state.next
                  && (w.driver.Fetching? ==> (w.calls, Issued(key)) !in w.answers)
    ensures Inv(Answered(w.(r := w.r.(next := NextRec(q.generation, key, false))), c, Issued(key)))
  {
  }

  lemma ServeFetchIs(w: World, c: nat, q: Request, made: string, landed: nat)
    requires Enabled(w, Serve(c, q, made, landed)) && !q.confirm && (w.r.signing == "" || w.r.signing == w.lastSigning)
    ensures var o, w0 := Handle(w.r, ID, q, made), w.(used := w.used + {made});
            Do(w, Serve(c, q, made, landed)) ==
              if o.writes == [] then Answered(w0, c, o.answer)
              else if landed == 0 then w0
              else Answered(w0.(r := w.r.(next := NextRec(q.generation, made, false))), c, Issued(made))
  {
    var o := Handle(w.r, ID, q, made);
    if o.writes != [] {
      ApplyOne(w.r, o.writes[0]);
      assert o.writes == [o.writes[0]];
      assert Landed(o.writes, landed) == if landed == 0 then [] else o.writes;
    }
  }

  /** A fetch told of a switch is of a generation the agent has switched to or holds the key of: it asks no more. */
  lemma SwitchedToFetchKeeps(w: World, c: nat, q: Request)
    requires Inv(w) && (c, q) in w.sent && !q.confirm && w.r.next.SwitchedAt(q.generation) && q.generation == w.r.generation
    ensures Inv(Answered(w, c, Switched))
  {
  }

  lemma ServeFetchKeeps(w: World, c: nat, q: Request, made: string, landed: nat)
    requires Inv(w) && Enabled(w, Serve(c, q, made, landed)) && !q.confirm
    ensures Inv(Do(w, Serve(c, q, made, landed)))
  {
    var o, w0 := Handle(w.r, ID, q, made), w.(used := w.used + {made});
    ServeFetchIs(w, c, q, made, landed);
    MadeKeeps(w, made);
    if o.writes == [] {
      match o.answer {
        case Issued(key) =>
          assert w0.r.(next := NextRec(q.generation, key, false)) == w0.r;
          IssueKeeps(w0, c, q, key);
        case Switched => SwitchedToFetchKeeps(w0, c, q);
        case _ => RefusalKeeps(w0, c, o.answer);
      }
    } else if landed > 0 {
      IssueKeeps(w0, c, q, made);
    }
  }

  // A confirm's two writes, of which the second may be still to come.
  function Confirmed(w: World, key: string, g: nat, both: bool): World {
    w.(r := w.r.(signing := key, next := if both then NextRec(g, "", true) else w.r.next), lastSigning := key,
       owed := if both then w.owed else w.owed + {g})
  }

  lemma ServeConfirmIs(w: World, c: nat, q: Request, made: string, landed: nat)
    requires Enabled(w, Serve(c, q, made, landed)) && q.confirm && (w.r.signing == "" || w.r.signing == w.lastSigning)
    ensures var o, w0 := Handle(w.r, ID, q, made), w.(used := w.used + {made});
            Do(w, Serve(c, q, made, landed)) ==
              if o.writes == [] then Answered(w0, c, o.answer)
              else if landed == 0 then w0
              else if landed == 1 then Confirmed(w0, w.r.next.key, q.generation, false)
              else Answered(Confirmed(w0, w.r.next.key, q.generation, true), c, Switched)
  {
    var o := Handle(w.r, ID, q, made);
    if |o.writes| == 2 {
      ApplyTwo(w.r, o.writes);
    }
  }

  lemma ConfirmedKeeps(w: World, c: nat, q: Request, both: bool)
    requires Inv(w) && (c, q) in w.sent && q.confirm && q.generation == w.r.generation > 0
    requires w.r.next.Issued(q.generation) && Proved(ID, q, w.r.next.key, true)
    ensures var w1 := Confirmed(w, w.r.next.key, q.generation, both); Inv(if both then Answered(w1, c, Switched) else w1)
  {
  }

  lemma SwitchedToConfirmKeeps(w: World, c: nat, q: Request)
    requires Inv(w) && (c, q) in w.sent && q.confirm && q.generation == w.r.generation
    requires w.r.next.SwitchedAt(q.generation) && Proved(ID, q, w.r.signing, true)
    ensures Inv(Answered(w, c, Switched))
  {
  }

  lemma ServeConfirmKeeps(w: World, c: nat, q: Request, made: string, landed: nat)
    requires Inv(w) && Enabled(w, Serve(c, q, made, landed)) && q.confirm
    ensures Inv(Do(w, Serve(c, q, made, landed)))
  {
    var o, w0 := Handle(w.r, ID, q, made), w.(used := w.used + {made});
    ServeConfirmIs(w, c, q, made, landed);
    MadeKeeps(w, made);
    if o.writes != [] {
      if landed > 0 { ConfirmedKeeps(w0, c, q, landed > 1); }
    } else if o.answer == Switched {
      SwitchedToConfirmKeeps(w0, c, q);
    } else {
      RefusalKeeps(w0, c, o.answer);
    }
  }

  lemma StepKeeps(w: World, s: Step)
    requires Inv(w) && Enabled(w, s)
    ensures Inv(Do(w, s))
  {
    match s
    case Start => StartKeeps(w);
    case Pong => PongKeeps(w);
    case Serve(c, q, made, landed) =>
      if q.confirm { ServeConfirmKeeps(w, c, q, made, landed); } else { ServeFetchKeeps(w, c, q, made, landed); }
    case LateSecond(g) => LateSecondKeeps(w, g);
    case Begin(h, writes, saved) => HintKeeps(w, h, writes, saved);
    case Receive(a, writes, saved) =>
      if w.driver.Fetching? { FetchAnswerKeeps(w, a, writes, saved); } else { ConfirmAnswerKeeps(w, a, writes, saved); }
    case GiveUp => RestKeeps(w);
    case Drop(landed) => DropKeeps(w, landed);
    case LateDrop =>
    case SetKind(m) =>
  }

  lemma {:induction false} RunKeeps(w: World, steps: seq<Step>)
    requires Inv(w) && Runs(w, steps)
    ensures Inv(After(w, steps))
    decreases |steps|
  {
    if steps != [] {
      StepKeeps(w, steps[0]);
      RunKeeps(Do(w, steps[0]), steps[1..]);
    }
  }
}
