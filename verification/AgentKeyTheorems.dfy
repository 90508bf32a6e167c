/** What every run of an agent key rotation keeps, and when an undisturbed rotateKey ends it. */
module AgentKeyTheorems {
  import opened Options
  import opened AgentKeyStore
  import opened AgentKeyLeader
  import opened AgentKeyLink
  import opened AgentKeyProtocol

  lemma InitHolds(w: World)
    requires Init(w)
    ensures Inv(w)
  {
  }

  /**
   In every reachable state the key the managers sign with for the agent, until its removal takes it
   out, is agent.key on the agent's disk or the next key beside it — and one the agent accepts after
   a boot at any time.
   */
  lemma SignedKeyIsHeld(w0: World, steps: seq<Step>, now: int)
    requires Init(w0) && Runs(w0, steps)
    ensures var w := After(w0, steps);
            && Boot(w.disk).Some?
            && (w.r.signing == "" || w.r.signing == w.disk.agentKey
                || (w.disk.rotation.Holds? && w.r.signing == w.disk.rotation.state.next))
            && (w.r.signing == "" || w.r.signing in AcceptList(Boot(w.disk).value, "", 0, now))
  {
    InitHolds(w0);
    RunKeeps(w0, steps);
  }

  /** Only a removal or a promotion leaves the managers without a key to sign with. */
  lemma {:induction false} SigningStays(w: World, steps: seq<Step>)
    requires Inv(w) && w.r.signing != "" && Runs(w, steps)
    requires forall s :: s in steps ==> !s.Drop?
    ensures After(w, steps).r.signing != ""
    decreases |steps|
  {
    if steps != [] {
      StepKeeps(w, steps[0]);
      StepKeepsSigning(w, steps[0]);
      SigningStays(Do(w, steps[0]), steps[1..]);
    }
  }

  lemma StepKeepsSigning(w: World, s: Step)
    requires Inv(w) && Enabled(w, s) && w.r.signing != "" && !s.Drop?
    ensures Do(w, s).r.signing != ""
  {
    if s.Serve? {
      ServeKeepsSigning(w, s);
    }
  }

  lemma ServeKeepsSigning(w: World, s: Step)
    requires Inv(w) && s.Serve? && Enabled(w, s) && w.r.signing != ""
    ensures Do(w, s).r.signing != ""
  {
    var o := Handle(w.r, ID, s.request, s.made);
    if |o.writes| == 2 {
      ApplyTwo(w.r, o.writes);
    } else if o.writes != [] {
      ApplyOne(w.r, o.writes[0]);
      assert o.writes == [o.writes[0]];
    }
  }

  /** An agent that lost no disk is never told that the managers sign with a key it does not hold. */
  lemma NeverKeyNotHeld(w0: World, steps: seq<Step>)
    requires Init(w0) && Runs(w0, steps)
    ensures var w := After(w0, steps);
            && (forall h :: h in w.hints ==> Decide(w.ring, h) != KeyNotHeld)
            && (w.driver.Fetching? ==> (w.calls, Switched) !in w.answers)
  {
    InitHolds(w0);
    RunKeeps(w0, steps);
    var w := After(w0, steps);
    forall h | h in w.hints ensures Decide(w.ring, h) != KeyNotHeld {
      HintIsHeld(w, h);
    }
  }

  // --- When an undisturbed rotateKey ends the rotation ---

  /**
   The leader's record of the agent's move is of the generation the agent's pending key is of, and
   names that key unless it has switched.
   */
  predicate OnTrack(w: World) {
    w.ring.CanSwitch(w.r.generation) ==>
      && w.r.next.generation == w.r.generation
      && (w.r.next.switched || w.r.next.key == w.ring.state.next)
  }

  /** The rotation is over for the agent: it is on the record's generation, and the managers sign with its key. */
  predicate Finished(a: Alone) {
    && (a.result == Done || a.result == Idle)
    && a.ring.current == a.replicated.signing && !a.ring.Pending()
    && a.ring.state.generation == a.replicated.generation
  }

  lemma ConfirmPendingOutcome(w: World, made: string)
    requires Inv(w) && w.r.member == Agent && w.r.generation > 0 && w.r.signing != ""
    requires w.ring.CanSwitch(w.r.generation) && !w.r.next.SwitchedAt(w.r.generation)
    ensures Finished(RotateAlone(w.r, w.ring, ID, HintOf(w.r), made)) <==> OnTrack(w)
  {
    var o := Handle(w.r, ID, ConfirmRequest(ID, w.r.generation, w.ring.state.next), "");
    if |o.writes| == 2 {
      ApplyTwo(w.r, o.writes);
    }
  }

  /** A key taken from a fetch just answered is confirmed, and ends the rotation. */
  lemma TakeFinishes(r: Replicated, ring: KeyRing, key: string)
    requires r.member == Agent && r.generation > 0 && r.next == NextRec(r.generation, key, false)
    requires ring.Takes(key, r.generation)
    ensures Finished(TakeAlone(r, ring, ID, r.generation, Issued(key)))
  {
    var o := Handle(r, ID, ConfirmRequest(ID, r.generation, key), "");
    ApplyTwo(r, o.writes);
  }

  lemma FetchFinishes(w: World, made: string)
    requires Inv(w) && w.r.member == Agent && w.r.generation > w.ring.state.generation && w.r.signing != ""
    requires !w.ring.CanSwitch(w.r.generation) && made != "" && made !in w.used
    ensures !w.r.next.SwitchedAt(w.r.generation)
    ensures Finished(RotateAlone(w.r, w.ring, ID, HintOf(w.r), made))
  {
    var n := w.r.generation;
    var f := FetchKey(w.r, w.ring, ID, n, made);
    ApplyOne(w.r, SetNext(NextRec(n, made, false)));
    var key := if w.r.next.Issued(n) then w.r.next.key else made;
    assert f.answer == Issued(key);
    assert f.replicated.next == NextRec(n, key, false);
    TakeFinishes(f.replicated, f.ring, key);
  }

  /** In every reachable state a key never made before is none the driver could take for one it holds. */
  lemma NewKeysAreFresh(w0: World, steps: seq<Step>, made: string)
    requires Init(w0) && Runs(w0, steps) && made != "" && made !in After(w0, steps).used
    ensures var w := After(w0, steps);
            w.r.generation > w.ring.state.generation ==> KeysAreFresh(w.r, w.ring, w.r.generation, made)
  {
    InitHolds(w0);
    RunKeeps(w0, steps);
  }

  /**
   On track; or, where a removal cut after its first delete has left the managers without the agent's
   key, the record still names the pending one, so that a confirm puts it in.
   */
  predicate Recovers(w: World) {
    if w.r.signing != "" then OnTrack(w)
    else w.ring.CanSwitch(w.r.generation) && w.r.next.Issued(w.r.generation) && w.r.next.key == w.ring.state.next
  }

  /**
   From every reachable state one undisturbed rotateKey, on the caught-up leader's own hint, ends
   with the agent on the signing key and the record's generation and nothing pending, exactly when
   the agent's move is on track, or a cut removal has left it to be confirmed.
   */
  lemma RecoversIffOnTrack(w0: World, steps: seq<Step>, made: string)
    requires Init(w0) && Runs(w0, steps)
    requires var w := After(w0, steps); w.r.member == Agent && w.r.generation > 0 && made != "" && made !in w.used
    ensures var w := After(w0, steps);
            Finished(RotateAlone(w.r, w.ring, ID, HintOf(w.r), made)) <==> Recovers(w)
  {
    InitHolds(w0);
    RunKeeps(w0, steps);
    var w := After(w0, steps);
    if w.r.signing != "" {
      OutcomeIff(w, made);
    } else {
      UnsignedOutcome(w, made);
    }
  }

  /** With no key to sign with, all but the confirm of the key issued is refused. */
  lemma UnsignedOutcome(w: World, made: string)
    requires Inv(w) && w.r.member == Agent && w.r.generation > 0 && w.r.signing == ""
    ensures Finished(RotateAlone(w.r, w.ring, ID, HintOf(w.r), made)) <==> Recovers(w)
  {
    if w.ring.state.generation < w.r.generation && w.ring.CanSwitch(w.r.generation) {
      var o := Handle(w.r, ID, ConfirmRequest(ID, w.r.generation, w.ring.state.next), "");
      if |o.writes| == 2 {
        ApplyTwo(w.r, o.writes);
      }
    }
  }

  lemma OutcomeIff(w: World, made: string)
    requires Inv(w) && w.r.member == Agent && w.r.generation > 0 && w.r.signing != ""
    requires made != "" && made !in w.used
    ensures Finished(RotateAlone(w.r, w.ring, ID, HintOf(w.r), made)) <==> OnTrack(w)
    ensures RotateAlone(w.r, w.ring, ID, HintOf(w.r), made).result != NotHeld
  {
    if w.ring.state.generation < w.r.generation {
      if !w.ring.CanSwitch(w.r.generation) {
        FetchFinishes(w, made);
      } else if !w.r.next.SwitchedAt(w.r.generation) {
        ConfirmPendingOutcome(w, made);
      }
    }
  }

  // --- Runs in which no second write lands late ---

  /** On track now and with the answer in flight, whatever the agent does next. */
  ghost predicate Prompt(w: World) {
    w.r.signing != "" || w.r.next.key != "" ==>
      && OnTrack(w)
      && (w.driver.Fetching? && w.driver.generation == w.r.generation ==>
            forall k :: (w.calls, Issued(k)) in w.answers ==> w.r.next == NextRec(w.r.generation, k, false))
  }

  lemma ServePrompt(w: World, s: Step)
    requires Inv(w) && Prompt(w) && s.Serve? && Enabled(w, s)
    ensures Prompt(Do(w, s))
  {
    var o := Handle(w.r, ID, s.request, s.made);
    if |o.writes| == 2 {
      ApplyTwo(w.r, o.writes);
    } else if o.writes != [] {
      ApplyOne(w.r, o.writes[0]);
      assert o.writes == [o.writes[0]];
      assert Landed(o.writes, s.landed) == if s.landed == 0 then [] else o.writes;
    }
  }

  lemma ReceivePrompt(w: World, s: Step)
    requires Inv(w) && Prompt(w) && s.Receive? && Enabled(w, s)
    ensures Prompt(Do(w, s))
  {
    if w.driver.Confirming? {
      ConfirmedPrompt(w, s);
    } else if s.answer.Issued? {
      IssuedPrompt(w, s);
    }
  }

  lemma ConfirmedPrompt(w: World, s: Step)
    requires Inv(w) && Prompt(w) && s.Receive? && w.driver.Confirming? && Enabled(w, s)
    ensures Prompt(Do(w, s))
  {
    if s.answer == Switched {
      SwitchSurvivesBoot(w.disk, w.ring, s.saved);
      var trail := SwitchTrail(w.disk, w.ring, s.saved);
      assert 0 < s.writes < |trail| ==> Last(w.disk, trail[..s.writes]) == trail[s.writes - 1];
      assert s.writes == 0 ==> Last(w.disk, trail[..s.writes]) == w.disk;
    }
  }

  lemma IssuedPrompt(w: World, s: Step)
    requires Inv(w) && Prompt(w) && s.Receive? && w.driver.Fetching? && s.answer.Issued? && Enabled(w, s)
    ensures Prompt(Do(w, s))
  {
    var key := s.answer.key;
    assert IssuedInv(w, key);
    if !w.driver.second {
      FirstIssuedIs(w, key, s.writes, s.saved);
    } else if s.writes > |SwitchTrail(w.disk, w.ring, s.saved)| {
      SecondIssuedIs(w, key, s.writes, s.saved);
    } else {
      SecondIssuedCrashIs(w, key, s.writes, s.saved);
    }
  }

  lemma BeginPrompt(w: World, s: Step)
    requires Inv(w) && Prompt(w) && s.Begin? && Enabled(w, s)
    ensures Prompt(Do(w, s))
  {
    if Decide(w.ring, s.hint) == SwitchNow {
      SwitchNowPrompt(w, s);
    }
  }

  lemma SwitchNowPrompt(w: World, s: Step)
    requires Inv(w) && Prompt(w) && s.Begin? && Enabled(w, s) && Decide(w.ring, s.hint) == SwitchNow
    ensures Prompt(Do(w, s))
  {
    SwitchSurvivesBoot(w.disk, w.ring, s.saved);
    var trail := SwitchTrail(w.disk, w.ring, s.saved);
    assert s.writes == 0 ==> Last(w.disk, trail[..s.writes]) == w.disk;
    assert 0 < s.writes < |trail| ==> Last(w.disk, trail[..s.writes]) == trail[s.writes - 1];
  }

  lemma StepPrompt(w: World, s: Step)
    requires Inv(w) && Prompt(w) && Enabled(w, s) && !s.LateSecond? && !s.LateDrop?
    ensures Prompt(Do(w, s))
  {
    match s
    case Serve(_, _, _, _) => ServePrompt(w, s);
    case Receive(_, _, _) => ReceivePrompt(w, s);
    case Begin(_, _, _) => BeginPrompt(w, s);
    case Drop(landed) => ApplyTwo(w.r, DROP_KEYS);
    case _ =>
  }

  lemma {:induction false} RunPrompt(w: World, steps: seq<Step>)
    requires Inv(w) && Prompt(w) && Runs(w, steps)
    requires forall s :: s in steps ==> !s.LateSecond? && !s.LateDrop?
    ensures Prompt(After(w, steps)) && Inv(After(w, steps))
    decreases |steps|
  {
    if steps != [] {
      StepKeeps(w, steps[0]);
      StepPrompt(w, steps[0]);
      RunPrompt(Do(w, steps[0]), steps[1..]);
    }
  }

  /** With every second write made at once or not at all, an undisturbed rotateKey always ends the rotation. */
  lemma RecoversWithoutLateWrites(w0: World, steps: seq<Step>, made: string)
    requires Init(w0) && Runs(w0, steps) && forall s :: s in steps ==> !s.LateSecond? && !s.LateDrop?
    requires var w := After(w0, steps);
             w.r.member == Agent && w.r.generation > 0 && w.r.signing != "" && made != "" && made !in w.used
    ensures var w := After(w0, steps);
            Finished(RotateAlone(w.r, w.ring, ID, HintOf(w.r), made))
  {
    InitHolds(w0);
    RunPrompt(w0, steps);
    OutcomeIff(After(w0, steps), made);
  }

  /** A new rotation puts the agent on track again, late writes or not, while the managers have a key of its own. */
  lemma NewRotationRecovers(w0: World, steps: seq<Step>, made: string)
    requires Init(w0) && Runs(w0, steps)
    requires var w := After(w0, steps); w.r.member == Agent && made != "" && made !in w.used
    ensures var w := Do(After(w0, steps), Start);
            Finished(RotateAlone(w.r, w.ring, ID, HintOf(w.r), made)) <==> After(w0, steps).r.signing != ""
  {
    InitHolds(w0);
    RunKeeps(w0, steps);
    var w := Do(After(w0, steps), Start);
    StartKeeps(After(w0, steps));
    if w.r.signing != "" {
      OutcomeIff(w, made);
    } else {
      UnsignedOutcome(w, made);
    }
  }

  lemma OneMore(w: World, steps: seq<Step>, s: Step)
    requires Runs(w, steps) && Enabled(After(w, steps), s)
    ensures Runs(w, steps + [s]) && After(w, steps + [s]) == Do(After(w, steps), s)
    decreases |steps|
  {
    if steps == [] {
      assert steps + [s] == [s];
    } else {
      assert (steps + [s])[1..] == steps[1..] + [s];
      OneMore(Do(w, steps[0]), steps[1..], s);
    }
  }

  ghost predicate Reaches(w0: World, w: World) {
    exists steps :: Runs(w0, steps) && After(w0, steps) == w
  }

  lemma Next(w0: World, w: World, s: Step, w': World)
    requires Reaches(w0, w) && Enabled(w, s) && Do(w, s) == w'
    ensures Reaches(w0, w')
  {
    var steps :| Runs(w0, steps) && After(w0, steps) == w;
    OneMore(w0, steps, s);
  }

  function Start0(): World {
    World(Replicated(Agent, 1, "a", NO_NEXT), "a", Disk("a", Missing), KeyRing("a", FRESH_STATE),
          Resting, 0, {}, {}, {}, {}, {"a"}, false)
  }

  // The agent has taken generation 1's key and asked for its confirm.
  const ROUND1 :=
    World(Replicated(Agent, 1, "a", NextRec(1, "b", false)), "a", Disk("a", Holds(KeyState(0, "b", 1))),
          KeyRing("a", KeyState(0, "b", 1)), Confirming(1), 2,
          {(1, FetchRequest(ID, 1, "a")), (2, ConfirmRequest(ID, 1, "b"))}, {(1, Issued("b"))}, {Hint(1, false)}, {}, {"a", "b"}, false)

  // The agent has asked for generation 1's key.
  const ASKED1 :=
    Start0().(hints := {Hint(1, false)}, driver := Fetching(1, false), calls := 1, sent := {(1, FetchRequest(ID, 1, "a"))})

  lemma AsksForFirstKey()
    ensures Reaches(Start0(), ASKED1)
  {
    var w0 := Start0();
    assert Runs(w0, []) && After(w0, []) == w0;
    var w1 := w0.(hints := {Hint(1, false)});
    Next(w0, w0, Pong, w1);
    Next(w0, w1, Begin(Hint(1, false), 9, true), ASKED1);
  }

  lemma TakesFirstKey()
    ensures Reaches(Start0(), ROUND1)
  {
    AsksForFirstKey();
    var w0, w, fetch := Start0(), ASKED1, FetchRequest(ID, 1, "a");
    var w1 := w.(r := ROUND1.r, answers := {(1, Issued("b"))}, used := {"a", "b"});
    assert Proved(ID, fetch, "a", false);
    ServeFetchIs(w, 1, fetch, "b", 9);
    Next(w0, w, Serve(1, fetch, "b", 9), w1);
    FirstIssuedIs(w1, "b", 9, true);
    Next(w0, w1, Receive(Issued("b"), 9, true), ROUND1);
  }

  // The leader stopped between its two writes; another has started generation 2, and the agent's
  // fetch with the key it had is refused.
  const ROUND2 :=
    World(Replicated(Agent, 2, "b", NextRec(1, "b", false)), "b", ROUND1.disk, ROUND1.ring, Fetching(2, false), 3,
          ROUND1.sent + {(3, FetchRequest(ID, 2, "a"))}, ROUND1.answers + {(3, BadProof)},
          {Hint(1, false), Hint(2, false)}, {1}, {"a", "b", "c", "d"}, false)

  lemma ConfirmIsCut()
    ensures Reaches(Start0(), ROUND2)
  {
    TakesFirstKey();
    var w0, w := Start0(), ROUND1;
    ApplyTwo(w.r, Handle(w.r, ID, ConfirmRequest(ID, 1, "b"), "c").writes);
    var w1 := w.(r := w.r.(signing := "b"), lastSigning := "b", owed := {1}, used := {"a", "b", "c"});
    Next(w0, w, Serve(2, ConfirmRequest(ID, 1, "b"), "c", 1), w1);
    var w2 := w1.(driver := Resting);
    Next(w0, w1, GiveUp, w2);
    var w3 := w2.(r := w2.r.(generation := 2));
    Next(w0, w2, Start, w3);
    var w4 := w3.(hints := {Hint(1, false), Hint(2, false)});
    Next(w0, w3, Pong, w4);
    var w5 := w4.(driver := Fetching(2, false), calls := 3, sent := ROUND2.sent);
    Next(w0, w4, Begin(Hint(2, false), 9, true), w5);
    Next(w0, w5, Serve(3, FetchRequest(ID, 2, "a"), "d", 9), ROUND2);
  }

  // The agent has moved to generation 1's key and taken generation 2's, and the late write has landed.
  const STRANDED :=
    World(Replicated(Agent, 2, "b", NextRec(1, "", true)), "b", Disk("b", Holds(KeyState(1, "e", 2))),
          KeyRing("b", KeyState(1, "e", 2)), Confirming(2), 5,
          ROUND2.sent + {(4, FetchRequest(ID, 2, "b")), (5, ConfirmRequest(ID, 2, "e"))},
          ROUND2.answers + {(4, Issued("e"))}, ROUND2.hints, {1}, ROUND2.used + {"e"}, false)

  const ASKED2 :=
    ROUND2.(driver := Fetching(2, true), calls := 4, sent := ROUND2.sent + {(4, FetchRequest(ID, 2, "b"))})

  lemma AgentAsksAgain()
    ensures Reaches(Start0(), ASKED2)
  {
    ConfirmIsCut();
    Next(Start0(), ROUND2, Receive(BadProof, 9, true), ASKED2);
  }

  // The agent has been issued generation 2's key.
  const ISSUED2 :=
    ASKED2.(r := ASKED2.r.(next := NextRec(2, "e", false)), answers := STRANDED.answers, used := STRANDED.used)

  lemma AgentIsIssued()
    ensures Reaches(Start0(), ISSUED2)
  {
    AgentAsksAgain();
    ServeFetchIs(ASKED2, 4, FetchRequest(ID, 2, "b"), "e", 9);
    Next(Start0(), ASKED2, Serve(4, FetchRequest(ID, 2, "b"), "e", 9), ISSUED2);
  }

  // It has switched to generation 1's and taken that one.
  const MOVED2 := STRANDED.(r := ISSUED2.r)

  lemma SecondAnswerIs()
    ensures Enabled(ISSUED2, Receive(Issued("e"), 9, true)) && Do(ISSUED2, Receive(Issued("e"), 9, true)) == MOVED2
  {
    SecondIssuedIs(ISSUED2, "e", 9, true);
  }

  lemma AgentTakesSecond()
    ensures Reaches(Start0(), MOVED2)
  {
    AgentIsIssued();
    SecondAnswerIs();
    Next(Start0(), ISSUED2, Receive(Issued("e"), 9, true), MOVED2);
  }

  lemma AgentMovesOn()
    ensures Reaches(Start0(), STRANDED)
  {
    AgentTakesSecond();
    Next(Start0(), MOVED2, LateSecond(1), STRANDED);
  }

  /**
   A second write that lands late may strand the agent: after another leader has started a rotation
   and the agent, moved to generation 1's key, has taken generation 2's. The record then names
   neither key, and the agent's confirm is refused every time, until a new rotation starts.
   */
  lemma LateWriteStrands()
    ensures Init(Start0()) && Reaches(Start0(), STRANDED)
    ensures var w := STRANDED;
            && w.r.signing == w.ring.current && !OnTrack(w)
            && (forall made :: RotateAlone(w.r, w.ring, ID, HintOf(w.r), made)
                               == Alone(w.r, w.ring, Refused(NoKeyDue)))
  {
    AgentMovesOn();
  }

  // The fetch of generation 2 handled once more: another key is issued, which the agent never asks for.
  const REFETCHED :=
    STRANDED.(r := STRANDED.r.(next := NextRec(2, "f", false)), answers := STRANDED.answers + {(4, Issued("f"))},
              used := STRANDED.used + {"f"})

  lemma FetchIsHandledAgain()
    ensures Reaches(Start0(), REFETCHED)
  {
    AgentMovesOn();
    ServeFetchIs(STRANDED, 4, FetchRequest(ID, 2, "b"), "f", 9);
    Next(Start0(), STRANDED, Serve(4, FetchRequest(ID, 2, "b"), "f", 9), REFETCHED);
  }

  /**
   Another way to be stranded: the fetch answered before is handled again after the late write, and
   the record, of the pending generation now, names another key. The confirm's proof is refused every
   time, until a new rotation starts.
   */
  lemma RefetchStrands()
    ensures Init(Start0()) && Reaches(Start0(), REFETCHED)
    ensures var w := REFETCHED;
            && w.r.signing == w.ring.current && w.ring.CanSwitch(w.r.generation) && w.r.next.Issued(w.r.generation)
            && !OnTrack(w)
            && (forall made :: RotateAlone(w.r, w.ring, ID, HintOf(w.r), made) == Alone(w.r, w.ring, Refused(BadProof)))
  {
    FetchIsHandledAgain();
  }

  // --- A removal or a promotion ---

  /** No key of the agent's is left in replicated state: neither the one signed with nor one issued. */
  predicate Bare(w: World) {
    w.r.signing == "" && w.r.next.key == ""
  }

  /**
   Once a removal or a promotion has taken the agent's keys out, nothing that follows — fetches and
   confirms handled late, rotation starts, late writes — puts a key back, and the agent's move
   comes back only as a late write's record without a key.
   */
  lemma {:induction false} KeysStayOut(w: World, steps: seq<Step>)
    requires Bare(w) && Runs(w, steps)
    ensures Bare(After(w, steps))
    ensures w.r.next == NO_NEXT && (forall s :: s in steps ==> !s.LateSecond?) ==> After(w, steps).r.next == NO_NEXT
    decreases |steps|
  {
    if steps != [] {
      var s, w1 := steps[0], Do(w, steps[0]);
      if s.Drop? {
        ApplyTwo(w.r, DROP_KEYS);
      }
      KeysStayOut(w1, steps[1..]);
      assert forall t :: t in steps[1..] ==> t in steps;
    }
  }

  /** Both deletes leave the state bare; a manager's keys stay out after the first alone. */
  lemma DropLeavesBare(w: World, landed: nat)
    ensures landed >= 2 ==> Bare(Do(w, Drop(landed))) && Do(w, Drop(landed)).r.next == NO_NEXT
    ensures landed == 1 ==> Do(w, Drop(landed)).r.signing == ""
  {
    ApplyTwo(w.r, DROP_KEYS);
  }

  /** A promotion's first delete is enough: the node is a manager then, and no step is for a manager. */
  lemma {:induction false} ManagerGetsNoKey(w: World, steps: seq<Step>)
    requires w.r.member != Agent && w.r.signing == "" && Runs(w, steps)
    ensures After(w, steps).r.member != Agent && After(w, steps).r.signing == ""
    decreases |steps|
  {
    if steps != [] {
      if steps[0].Drop? {
        ApplyTwo(w.r, DROP_KEYS);
      }
      ManagerGetsNoKey(Do(w, steps[0]), steps[1..]);
    }
  }

  // --- A removal whose second delete lands late ---

  /** The second delete, on time or late, leaves no key exactly when none has been confirmed since the first. */
  lemma LateDropLeavesBareIff(w: World)
    requires Enabled(w, LateDrop)
    ensures Bare(Do(w, LateDrop)) <==> w.r.signing == ""
  {
  }

  // The first delete has landed, and another leader has handled the agent's confirm.
  const CONFIRMED :=
    ROUND1.(r := Replicated(Agent, 1, "b", NextRec(1, "", true)), lastSigning := "b", answers := {(1, Issued("b")), (2, Switched)},
            used := {"a", "b", "c"}, dropOwed := true)

  lemma ConfirmComesBetween()
    ensures Reaches(Start0(), CONFIRMED)
  {
    TakesFirstKey();
    var w0, w := Start0(), ROUND1;
    ApplyTwo(w.r, DROP_KEYS);
    var w1 := w.(r := w.r.(signing := ""), dropOwed := true);
    Next(w0, w, Drop(1), w1);
    ServeConfirmIs(w1, 2, ConfirmRequest(ID, 1, "b"), "c", 2);
    Next(w0, w1, Serve(2, ConfirmRequest(ID, 1, "b"), "c", 2), CONFIRMED);
  }

  // Both deletes have landed, and then the node's record has gone too.
  const REMOVED := CONFIRMED.(r := Replicated(Absent, 1, "b", NO_NEXT))

  /**
   A confirm that another leader handles between a removal's two deletes puts the agent's key back:
   both have landed, the node is out, and the key it is signed for with is in replicated state.
   */
  lemma LateDropLeavesKey()
    ensures Init(Start0()) && Reaches(Start0(), REMOVED) && REMOVED.r.signing == "b" && REMOVED.r.member == Absent
  {
    ConfirmComesBetween();
    var w1 := CONFIRMED.(r := CONFIRMED.r.(next := NO_NEXT));
    Next(Start0(), CONFIRMED, LateDrop, w1);
    Next(Start0(), w1, SetKind(Absent), REMOVED);
  }
}
