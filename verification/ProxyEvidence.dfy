/**
 The leader's picture of the managers, and what it is evidence of (internal/cluster/proxy_rotation.go,
 proxy_secret.go): each of its decisions is one of ProxyWorld's writes, borne out by what was said.
 */
module ProxyEvidence {
  import opened Options
  import opened ProxyKeys
  import opened ProxyWorld
  import opened ProxyHistory
  import opened ProxyTheorems

  /** id was at a state of generation g when it was last heard, or for the leader itself is. */
  ghost predicate SaidGeneration(w: World, leader: string, id: string, g: int)
    requires id in w.nodes
  {
    exists pos: nat :: pos < |w.hist| && Gen(w.hist[pos].config) == g
                       && (if id == leader then pos == w.nodes[id].pos else Report(id, pos) in w.reports)
  }

  /** Every manager is in the leader's picture, and each generation there is one its manager said. */
  ghost predicate Genuine(w: World, leader: string, managers: seq<ProxyNode>) {
    && (forall id :: id in w.nodes ==> exists i :: 0 <= i < |managers| && managers[i].id == id)
    && (forall i :: 0 <= i < |managers| ==>
          managers[i].id in w.nodes
          && (managers[i].generation.Some? ==> SaidGeneration(w, leader, managers[i].id, managers[i].generation.value)))
  }

  /** Every manager is online, follows a re-rotation and says that it accepts generation g. */
  predicate AllSay(managers: seq<ProxyNode>, g: int) {
    forall i :: 0 <= i < |managers| ==>
      && managers[i].heardFrom && managers[i].online && managers[i].capable
      && managers[i].generation.Some? && managers[i].generation.value >= g
  }

  /** When a re-rotation goes on: to its switch once all say they accept its secret, and to its end five minutes after. */
  lemma DecisionIs(k: ProxyKey, managers: seq<ProxyNode>, now: int)
    ensures Decision(k, managers, now) ==
              if k.previous == "" then None
              else if k.switchedAt == None then if AllSay(managers, k.generation) then Some(Switched) else None
              else if now >= k.switchedAt.value + 300_000 then Some(Done) else None
  {
    assert forall i :: 0 <= i < |managers| ==>
      (Takes(managers[i], k.generation) <==>
        && managers[i].heardFrom && managers[i].online && managers[i].capable
        && managers[i].generation.Some? && managers[i].generation.value >= k.generation);
  }

  /** A picture in which all say so bears out the switch: every manager has heard of the record's secret, and takes it for good. */
  lemma SwitchIsBorneOut(w0: World, steps: seq<Step>, leader: string, managers: seq<ProxyNode>, clock: int)
    requires Init(w0) && Runs(w0, steps)
    requires var w := After(w0, steps);
             && leader in w.nodes && Genuine(w, leader, managers) && w.Reads(clock)
             && w.hist != [] && w.Last().key.Some? && Decision(w.Last().key.value, managers, clock) == Some(Switched)
    ensures var w := After(w0, steps);
            && Enabled(w, Lead(Switch(leader, clock)))
            && forall id :: id in w.nodes && w.nodes[id].pos < |w.hist| ==>
                 w.Last().key.value.secret in Stable(w.legacy, w.hist[w.nodes[id].pos].config)
  {
    InitHolds(w0);
    RunKeeps(w0, steps);
    var w := After(w0, steps);
    var k := w.Last().key.value;
    DecisionIs(k, managers, clock);
    forall id | id in w.nodes ensures TakesGeneration(w, leader, id) {
      SaysEnough(w, leader, managers, id);
    }
    SwitchIsEnabled(w, leader, clock);
    forall id | id in w.nodes && w.nodes[id].pos < |w.hist| ensures k.secret in Stable(w.legacy, w.hist[w.nodes[id].pos].config) {
      EvidenceTakes(w, Switch(leader, clock), id);
    }
  }

  lemma SwitchIsEnabled(w: World, leader: string, clock: int)
    requires w.hist != [] && leader in w.nodes && w.Reads(clock) && w.Last().key.Some? && w.Last().key.value.Phase() == Next
    requires forall id :: id in w.nodes ==> TakesGeneration(w, leader, id)
    ensures Enabled(w, Lead(Switch(leader, clock)))
    ensures Sign(w.legacy, Written(w.Last(), Switch(leader, clock))) == w.Last().key.value.secret
  {
  }

  lemma SaysEnough(w: World, leader: string, managers: seq<ProxyNode>, id: string)
    requires w.hist != [] && w.Last().key.Some? && Genuine(w, leader, managers) && id in w.nodes
    requires AllSay(managers, w.Last().key.value.generation)
    ensures TakesGeneration(w, leader, id)
  {
    var i :| 0 <= i < |managers| && managers[i].id == id;
    var g := managers[i].generation.value;
    assert SaidGeneration(w, leader, id, g);
    var pos: nat :| pos < |w.hist| && Gen(w.hist[pos].config) == g
                    && (if id == leader then pos == w.nodes[id].pos else Report(id, pos) in w.reports);
    assert Heard(w, leader, id, pos);
  }

  /** The end is the world's too. */
  lemma FinishIsBorneOut(w: World, managers: seq<ProxyNode>, clock: int)
    requires w.hist != [] && w.Reads(clock) && w.Last().key.Some? && Decision(w.Last().key.value, managers, clock) == Some(Done)
    ensures Enabled(w, Lead(Finish(clock)))
    ensures forall now :: KeysAt(Written(w.Last(), Finish(clock)).key.value, now)
                          == Secrets(w.Last().key.value.secret, [w.Last().key.value.secret])
  {
    DecisionIs(w.Last().key.value, managers, clock);
  }

  /**
   A start waits five minutes after the first switch and for nothing under way; nobody's signing changes
   by it, and every manager that goes by it takes the new secret beside the one it signs with.
   */
  lemma StartIs(c: Config, legacy: string, made: string, clock: int, now: int)
    requires WellFormed(c) && made != ""
    ensures Allows(c, Start(made, clock)) <==>
              && c.rotatedAt.Some? && clock > c.rotatedAt.value + 300_000
              && (c.key.Some? ==> c.key.value.switchedAt == None || c.key.value.previous == "")
              && Sign(legacy, c) != "" && (c.key == None ==> c.replicated != "")
    ensures Allows(c, Start(made, clock)) ==>
              var d, signs := Written(c, Start(made, clock)), Sign(legacy, c);
              && d.key == Some(ProxyKey((if c.key.Some? then c.key.value.generation else 0) + 1, made, signs, None))
              && Installed(legacy, d, now) == Secrets(signs, [signs, made])
  {
  }

  // --- The first switch ---

  /** A manager said ready had loaded the replicated secret when it was last heard. */
  ghost predicate ReadyIsSaid(w: World, leader: string, ready: map<string, bool>) {
    forall id :: id in w.nodes && id != leader && id in ready && ready[id] ==>
      exists pos: nat :: pos < |w.hist| && Report(id, pos) in w.reports && w.hist[pos].config.replicated != ""
  }

  /** What MaybeRotateProxySecret goes by bears out the first switch, the leader having taken the secret itself. */
  lemma RotateIsBorneOut(w: World, leader: string, members: seq<string>, ready: map<string, bool>, seenAt: int, clock: int)
    requires w.hist != [] && leader in w.nodes && w.Reads(clock) && ReadyIsSaid(w, leader, ready)
    requires (forall id :: id in w.nodes ==> id in members) && SeededBy(w.hist, seenAt)
    requires w.nodes[leader].pos < |w.hist| && w.hist[w.nodes[leader].pos].config.replicated != ""
    requires w.Last().rotatedAt == None && w.Last().replicated != "" && clock - seenAt >= 60_000
    requires forall i :: 0 <= i < |members| && members[i] != leader ==> members[i] in ready && ready[members[i]]
    ensures Enabled(w, Lead(Rotate(leader, seenAt, clock)))
  {
    forall id | id in w.nodes ensures TakesReplicated(w, leader, id) {
      if id == leader {
        assert Heard(w, leader, id, w.nodes[id].pos);
      } else {
        var i :| 0 <= i < |members| && members[i] == id;
        var pos: nat :| pos < |w.hist| && Report(id, pos) in w.reports && w.hist[pos].config.replicated != "";
        assert Heard(w, leader, id, pos);
      }
    }
  }
}
