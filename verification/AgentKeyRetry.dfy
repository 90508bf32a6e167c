/**
 An agent's retry by a hint it had before: after a lost answer, after another leader's writes, and
 when it has lost its keys.
 */
module AgentKeyRetry {
  import opened Options
  import opened AgentKeyStore
  import opened AgentKeyLeader
  import opened AgentKeyLink
  import opened AgentKeyProtocol
  import opened AgentKeyTheorems

  /**
   What an undisturbed rotateKey by the hint h needs: a hint of a switch is enough while the managers
   have a key to sign with, and one of none asks the leader as its record stands.
   */
  predicate RecoversBy(w: World, h: Hint) {
    if h.current then w.r.signing != "" else Recovers(w)
  }

  /** From every reachable state, by any hint of the rotation there is that a leader has ever given. */
  lemma RecoversByAnyHint(w0: World, steps: seq<Step>, h: Hint, made: string)
    requires Init(w0) && Runs(w0, steps)
    requires var w := After(w0, steps);
             && w.r.member == Agent && w.r.generation > 0 && made != "" && made !in w.used
             && h in w.hints && h.generation == w.r.generation
    ensures var w := After(w0, steps); Finished(RotateAlone(w.r, w.ring, ID, h, made)) <==> RecoversBy(w, h)
  {
    InitHolds(w0);
    RunKeeps(w0, steps);
    HintOutcome(After(w0, steps), h, made);
  }

  lemma HintOutcome(w: World, h: Hint, made: string)
    requires Inv(w) && w.r.member == Agent && w.r.generation > 0 && made != "" && made !in w.used
    requires h in w.hints && h.generation == w.r.generation
    ensures Finished(RotateAlone(w.r, w.ring, ID, h, made)) <==> RecoversBy(w, h)
  {
    if !h.current {
      if w.r.next.SwitchedAt(w.r.generation) {
        LostAnswerOutcome(w, h, made);
      } else if w.r.signing != "" {
        OutcomeIff(w, made);
      } else {
        UnsignedOutcome(w, made);
      }
    }
  }

  /** The record has switched since the hint: the confirm is asked again, and answered as the first was. */
  lemma LostAnswerOutcome(w: World, h: Hint, made: string)
    requires Inv(w) && w.r.member == Agent && w.r.generation > 0 && w.r.next.SwitchedAt(w.r.generation)
    requires h == Hint(w.r.generation, false)
    ensures Finished(RotateAlone(w.r, w.ring, ID, h, made)) <==> Recovers(w)
  {
  }

  // A confirm whose answer was lost.
  const LOST :=
    ROUND1.(r := Replicated(Agent, 1, "b", NextRec(1, "", true)), lastSigning := "b", answers := {(1, Issued("b")), (2, Switched)},
            used := {"a", "b", "c"}, driver := Resting)

  lemma AnswerIsLost()
    ensures Reaches(Start0(), LOST)
  {
    TakesFirstKey();
    var w0, w := Start0(), ROUND1;
    var w1 := w.(r := LOST.r, lastSigning := "b", answers := LOST.answers, used := LOST.used);
    ServeConfirmIs(w, 2, ConfirmRequest(ID, 1, "b"), "c", 2);
    Next(w0, w, Serve(2, ConfirmRequest(ID, 1, "b"), "c", 2), w1);
    Next(w0, w1, GiveUp, LOST);
  }

  /** By the hint it had the agent confirms again, and ends with the managers' key as its own and nothing pending. */
  lemma LostAnswerIsMadeUp(made: string)
    requires made != "" && made !in LOST.used
    ensures Reaches(Start0(), LOST) && Hint(1, false) in LOST.hints && LOST.ring.current == "a" && LOST.r.signing == "b"
    ensures RotateAlone(LOST.r, LOST.ring, ID, Hint(1, false), made) == Alone(LOST.r, KeyRing("b", KeyState(1, "", 0)), Done)
  {
    AnswerIsLost();
  }

  /** An older rotation's hint changes nothing at the leader, whatever it makes the agent do. */
  lemma OlderHintIsHarmless(w: World, h: Hint, made: string)
    requires Inv(w) && h in w.hints && h.generation < w.r.generation && w.r.member == Agent
    ensures var a := RotateAlone(w.r, w.ring, ID, h, made);
            && a.replicated == w.r && (a.ring == w.ring || (h.current && a.ring == w.ring.Switched() && w.ring.CanSwitch(h.generation)))
            && a.result != NotHeld && (a.result.Refused? ==> a.result.answer == NoKeyDue)
  {
    HintIsHeld(w, h);
  }

  /**
   An agent that has lost the key the managers switched to — its disk, as no run here has it — is told
   so, by a hint of the switch and, by one from before, in the answer to its fetch.
   */
  lemma LostKeyIsTold(r: Replicated, ring: KeyRing, h: Hint, made: string)
    requires r.member == Agent && r.generation > 0 && r.next.SwitchedAt(r.generation)
    requires h.generation == r.generation > ring.state.generation && !ring.CanSwitch(r.generation)
    ensures RotateAlone(r, ring, ID, h, made) == Alone(r, ring, NotHeld)
  {
  }

  /**
   A key is issued only for a proof by the key the managers sign with, and a confirm changes anything, or
   is answered switched, only for one by the key issued, or by the signing key once it has switched.
   */
  lemma ProofIsNeeded(r: Replicated, q: Request, made: string)
    ensures var o := Handle(r, ID, q, made);
            && (o.answer.Issued? ==> !q.confirm && r.signing != "" && q.proof == Proof(r.signing, false, ID, r.generation))
            && (!q.confirm && o.writes != [] ==> o.answer == Issued(made))
            && (q.confirm && (o.writes != [] || o.answer == Switched) ==>
                  var key := if o.writes != [] then r.next.key else r.signing;
                  key != "" && q.proof == Proof(key, true, ID, r.generation) && (o.writes == [] ==> r.next.SwitchedAt(r.generation)))
            && (o.writes != [] || o.answer.Issued? || o.answer == Switched ==>
                  r.member == Agent && r.generation > 0 && q.generation == r.generation)
  {
  }
}
