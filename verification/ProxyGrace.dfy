/**
 How long a secret replaced is still taken: to the moment its grace is over by the manager's own
 clock, and, for the headers of every run, exactly as long as lag and skew leave of it.
 */
module ProxyGrace {
  import opened Options
  import opened ProxyKeys
  import opened ProxyWorld
  import opened ProxyTheorems
  import opened ProxyBound

  /** Under a record that has switched, a manager takes the secret replaced for two minutes by its clock and then no more. */
  lemma GraceOfARecord(legacy: string, c: Config, now: int)
    requires c.key.Some? && c.key.value.previous != "" && c.key.value.switchedAt.Some?
    ensures var k, s := c.key.value, Installed(legacy, c, now);
            && s.sign == k.secret && k.secret in s.accept
            && (now < k.switchedAt.value + 120_000 ==> s.accept == [k.secret, k.previous])
            && (now >= k.switchedAt.value + 120_000 ==> s.accept == [k.secret])
  {
  }

  /** And so at the first switch; with an agent in the cluster, which never had the first secret, not even that long. */
  lemma GraceOfTheFirst(legacy: string, c: Config, now: int)
    requires c.key == None && c.replicated != "" && c.rotatedAt.Some?
    ensures var s := Installed(legacy, c, now);
            && s.sign == c.replicated
            && s.accept == if !c.agents && now < c.rotatedAt.value + 120_000 then [c.replicated, legacy] else [c.replicated]
  {
  }

  /** Before a switch both are taken, and the old one signed with; once done is recorded the new one alone is. */
  lemma OutsideAGrace(legacy: string, c: Config, now: int)
    ensures c.key.Some? && c.key.value.previous != "" && c.key.value.switchedAt == None ==>
              Installed(legacy, c, now) == Secrets(c.key.value.previous, [c.key.value.previous, c.key.value.secret])
    ensures c.key.Some? && c.key.value.previous == "" ==>
              Installed(legacy, c, now) == Secrets(c.key.value.secret, [c.key.value.secret])
    ensures c.key == None && !c.agents && c.rotatedAt == None ==>
              Installed(legacy, c, now) == Secrets(legacy, if c.replicated == "" then [legacy] else [legacy, c.replicated])
    ensures c.key == None && c.agents && c.replicated != "" ==> Installed(legacy, c, now) == Secrets(c.replicated, [c.replicated])
  {
  }

  // --- A run that re-rotates ---

  const START_AT := 360_001
  const STARTED := SWITCHED.(key := Some(ProxyKey(1, "n", "r", None)))
  const RESWITCHED := SWITCHED.(key := Some(ProxyKey(1, "n", "r", Some(START_AT))))
  const HIST2 := [Entry(EMPTY, 0), Entry(SEEDED, 0), Entry(SWITCHED, SWITCH_AT)]
  const HIST3 := HIST2 + [Entry(STARTED, START_AT)]
  const HIST4 := HIST3 + [Entry(RESWITCHED, START_AT)]

  function At(lag: nat, skew: nat, hist: seq<Entry>, now: int, a: Mgr, b: Mgr, reports: set<Report>, headers: set<Header>): World {
    World("l", lag, skew, hist, now, map[A := a, B := b], reports, headers)
  }

  const SAID1: set<Report> := {Report(B, 1)}
  const SAID3: set<Report> := {Report(B, 1), Report(B, 3)}

  lemma Installs(w0: World, w: World, id: string, pos: nat, clock: int, nodes: map<string, Mgr>)
    requires Reaches(w0, w) && w.hist != [] && id in w.nodes && w.nodes[id].pos <= pos < |w.hist| && w.Reads(clock)
    requires nodes == w.nodes[id := Mgr(pos, clock)]
    ensures Reaches(w0, w.(nodes := nodes))
  {
    ProxyBound.Next(w0, w, Install(id, pos, clock), w.(nodes := nodes));
  }

  lemma BothSwitched(lag: nat, skew: nat)
    ensures Reaches(Cluster(lag, skew), At(lag, skew, HIST2, START_AT, Mgr(2, SWITCH_AT), Mgr(2, SWITCH_AT), SAID1, {}))
  {
    Rotates(lag, skew);
    var w0, w := Cluster(lag, skew), At(lag, skew, HIST2, SWITCH_AT, Mgr(1, 0), Mgr(1, 0), SAID1, {});
    assert RotatedWorld(lag, skew) == w;
    var w1 := At(lag, skew, HIST2, SWITCH_AT, Mgr(2, SWITCH_AT), Mgr(1, 0), SAID1, {});
    Installs(w0, w, A, 2, SWITCH_AT, w1.nodes);
    var w2 := At(lag, skew, HIST2, SWITCH_AT, Mgr(2, SWITCH_AT), Mgr(2, SWITCH_AT), SAID1, {});
    Installs(w0, w1, B, 2, SWITCH_AT, w2.nodes);
    ProxyBound.Next(w0, w2, Tick(START_AT), w2.(now := START_AT));
  }

  lemma Starts(lag: nat, skew: nat)
    ensures Reaches(Cluster(lag, skew), At(lag, skew, HIST3, START_AT, Mgr(2, SWITCH_AT), Mgr(2, SWITCH_AT), SAID1, {}))
  {
    BothSwitched(lag, skew);
    var w := At(lag, skew, HIST2, START_AT, Mgr(2, SWITCH_AT), Mgr(2, SWITCH_AT), SAID1, {});
    assert w.Last() == SWITCHED;
    IsFresh(w);
    ProxyBound.Next(Cluster(lag, skew), w, Lead(Start("n", START_AT)), w.(hist := HIST3));
  }

  lemma IsFresh(w: World)
    requires w.hist == HIST2 && w.legacy == "l"
    ensures Fresh(w.hist, w.legacy, "n")
  {
  }

  lemma BothTake(lag: nat, skew: nat)
    ensures Reaches(Cluster(lag, skew), At(lag, skew, HIST3, START_AT, Mgr(3, START_AT), Mgr(3, START_AT), SAID3, {}))
  {
    Starts(lag, skew);
    var w0, w := Cluster(lag, skew), At(lag, skew, HIST3, START_AT, Mgr(2, SWITCH_AT), Mgr(2, SWITCH_AT), SAID1, {});
    var w1 := At(lag, skew, HIST3, START_AT, Mgr(3, START_AT), Mgr(2, SWITCH_AT), SAID1, {});
    Installs(w0, w, A, 3, START_AT, w1.nodes);
    var w2 := At(lag, skew, HIST3, START_AT, Mgr(3, START_AT), Mgr(3, START_AT), SAID1, {});
    Installs(w0, w1, B, 3, START_AT, w2.nodes);
    ProxyBound.Next(w0, w2, Say(B), w2.(reports := SAID3));
  }

  lemma BothAreHeard(w: World)
    requires w == At(w.lag, w.skew, HIST3, START_AT, Mgr(3, START_AT), Mgr(3, START_AT), SAID3, {})
    ensures Enabled(w, Lead(Switch(A, START_AT))) && Written(w.Last(), Switch(A, START_AT)) == RESWITCHED
  {
    assert w.hist[3].config == STARTED && w.Last() == STARTED;
    assert Heard(w, A, A, 3) && Heard(w, A, B, 3);
    assert TakesGeneration(w, A, A) && TakesGeneration(w, A, B);
  }

  // a has switched.
  lemma OneSwitches(lag: nat, skew: nat)
    ensures Reaches(Cluster(lag, skew), At(lag, skew, HIST4, START_AT, Mgr(4, START_AT), Mgr(3, START_AT), SAID3, {}))
  {
    BothTake(lag, skew);
    var w0, w := Cluster(lag, skew), At(lag, skew, HIST3, START_AT, Mgr(3, START_AT), Mgr(3, START_AT), SAID3, {});
    BothAreHeard(w);
    ProxyBound.Next(w0, w, Lead(Switch(A, START_AT)), w.(hist := HIST4));
    var w1 := At(lag, skew, HIST4, START_AT, Mgr(4, START_AT), Mgr(3, START_AT), SAID3, {});
    Installs(w0, w.(hist := HIST4), A, 4, START_AT, w1.nodes);
  }

  function HeldHeader(lag: nat): Header { Header(3, "r", START_AT + lag) }

  // b signs as late as it may before it does.
  lemma OtherSigns(lag: nat, skew: nat)
    ensures Reaches(Cluster(lag, skew),
                    At(lag, skew, HIST4, START_AT + lag, Mgr(4, START_AT), Mgr(3, START_AT), SAID3, {HeldHeader(lag)}))
  {
    OneSwitches(lag, skew);
    var w0, w := Cluster(lag, skew), At(lag, skew, HIST4, START_AT, Mgr(4, START_AT), Mgr(3, START_AT), SAID3, {});
    var w1 := w.(now := START_AT + lag);
    StillInTime(lag, w1.now);
    ProxyBound.Next(w0, w, Tick(w1.now), w1);
    SignsBefore(w1);
  }

  lemma SignsBefore(w: World)
    requires w == At(w.lag, w.skew, HIST4, START_AT + w.lag, Mgr(4, START_AT), Mgr(3, START_AT), SAID3, {})
    requires Reaches(Cluster(w.lag, w.skew), w)
    ensures Reaches(Cluster(w.lag, w.skew), w.(headers := {HeldHeader(w.lag)}))
  {
    assert w.hist[3].config == STARTED;
    ProxyBound.Next(Cluster(w.lag, w.skew), w, SignOne(B), w.(headers := {HeldHeader(w.lag)}));
  }

  lemma StillInTime(lag: nat, now: int)
    requires now <= START_AT + lag
    ensures InTime(HIST4, lag, 3, now) && InTime(HIST4, lag, 4, now)
  {
  }

  function HeldWorld(lag: nat, skew: nat): World {
    var end := START_AT + lag + HEADER_LIFE;
    At(lag, skew, HIST4, end, Mgr(4, end + skew), Mgr(4, START_AT + lag), SAID3, {HeldHeader(lag)})
  }

  lemma OtherSwitches(lag: nat, skew: nat)
    ensures Reaches(Cluster(lag, skew),
                    At(lag, skew, HIST4, START_AT + lag, Mgr(4, START_AT), Mgr(4, START_AT + lag), SAID3, {HeldHeader(lag)}))
  {
    OtherSigns(lag, skew);
    var w := At(lag, skew, HIST4, START_AT + lag, Mgr(4, START_AT), Mgr(3, START_AT), SAID3, {HeldHeader(lag)});
    var w' := At(lag, skew, HIST4, START_AT + lag, Mgr(4, START_AT), Mgr(4, START_AT + lag), SAID3, {HeldHeader(lag)});
    Installs(Cluster(lag, skew), w, B, 4, START_AT + lag, w'.nodes);
  }

  lemma IsAskedLate(lag: nat, skew: nat)
    ensures Reaches(Cluster(lag, skew), HeldWorld(lag, skew))
  {
    OtherSwitches(lag, skew);
    var w0 := Cluster(lag, skew);
    var w := At(lag, skew, HIST4, START_AT + lag, Mgr(4, START_AT), Mgr(4, START_AT + lag), SAID3, {HeldHeader(lag)});
    var end := START_AT + lag + HEADER_LIFE;
    ProxyBound.Next(w0, w, Tick(end), w.(now := end));
    Installs(w0, w.(now := end), A, 4, end + skew, HeldWorld(lag, skew).nodes);
  }

  /** In every run of a cluster with that lag and skew, every header signed after the first switch is accepted for all its life. */
  ghost predicate LaterAlwaysAccepted(lag: nat, skew: nat) {
    forall w0, steps, h, id ::
      Init(w0) && w0.lag == lag && w0.skew == skew && Runs(w0, steps) && Lives(After(w0, steps), h, id)
      && After(w0, steps).hist[h.pos].config.rotatedAt.Some? ==>
        AcceptedBy(After(w0, steps), h, id)
  }

  lemma HeldIsRefused(lag: nat, skew: nat)
    requires lag + skew + HEADER_LIFE >= LEGACY_PROXY_GRACE
    ensures Lives(HeldWorld(lag, skew), HeldHeader(lag), A) && !AcceptedBy(HeldWorld(lag, skew), HeldHeader(lag), A)
    ensures HeldWorld(lag, skew).hist[3].config.rotatedAt.Some?
  {
    var w := HeldWorld(lag, skew);
    assert w.hist[4].config == RESWITCHED && w.hist[3].config == STARTED;
    GraceOfARecord("l", RESWITCHED, w.nodes[A].asOf);
  }

  /**
   A re-rotation's switch is timed to the millisecond: through any number of them every header is
   accepted exactly when lag, skew and its 30 seconds are within the grace, with nothing lost.
   */
  lemma LaterBoundIsExact(lag: nat, skew: nat)
    ensures LaterAlwaysAccepted(lag, skew) <==> lag + skew + 30_000 < 120_000
  {
    if lag + skew + HEADER_LIFE < LEGACY_PROXY_GRACE {
      forall w0, steps, h, id
        | Init(w0) && w0.lag == lag && w0.skew == skew && Runs(w0, steps) && Lives(After(w0, steps), h, id)
          && After(w0, steps).hist[h.pos].config.rotatedAt.Some?
        ensures AcceptedBy(After(w0, steps), h, id)
      {
        LagStays(w0, steps);
        HeadersAreAccepted(w0, steps, h, id);
      }
    } else {
      IsAskedLate(lag, skew);
      HeldIsRefused(lag, skew);
      var w0 := Cluster(lag, skew);
      var steps :| Runs(w0, steps) && After(w0, steps) == HeldWorld(lag, skew);
      assert Init(w0);
    }
  }
}
