/** The results about the managers' secret, over every run of ProxyWorld. */
module ProxyTheorems {
  import opened Options
  import opened ProxyKeys
  import opened ProxyWorld
  import opened ProxyHistory

  // --- Behind the signer: everybody accepts a secret before anybody signs with it ---

  /** x is accepted for good at i, no longer at j, as nothing accepted for good comes back. */
  lemma {:induction false} StableIsAnInterval(hist: seq<Entry>, legacy: string, skew: nat, x: string, i: nat, k: nat, j: nat)
    requires HistInv(hist, legacy, skew) && i <= k <= j < |hist|
    requires x in Stable(legacy, hist[i].config) && x in Stable(legacy, hist[j].config)
    ensures x in Stable(legacy, hist[k].config)
    decreases j
  {
    if k < j {
      if x in Stable(legacy, hist[j - 1].config) {
        StableIsAnInterval(hist, legacy, skew, x, i, k, j - 1);
      } else {
        AllWellFormed(hist, legacy, skew, j - 1);
        var write := WriteOf(hist, legacy, skew, j);
        StableGains(hist[j - 1].config, legacy, write, x);
        assert hist[..j][i] == hist[i];
        assert Unknown(legacy, hist[..j][i].config, x);
        AllWellFormed(hist, legacy, skew, i);
        StableIsAccepted(legacy, hist[i].config);
      }
    }
  }

  lemma StableIsAccepted(legacy: string, c: Config)
    requires WellFormed(c)
    ensures forall x :: x in Stable(legacy, c) ==> x in Accepted(legacy, c)
    ensures Sign(legacy, c) in Stable(legacy, c)
    ensures forall x, now :: x in Stable(legacy, c) ==> x in Installed(legacy, c, now).accept
  {
  }

  // Only a secret just made is gained.
  lemma StableGains(c: Config, legacy: string, write: Write, x: string)
    requires WellFormed(c) && Allows(c, write)
    requires x !in Stable(legacy, c) && x in Stable(legacy, Written(c, write))
    ensures (write.Seed? || write.Start?) && x == write.secret
  {
  }

  lemma TakesAllFrom(hist: seq<Entry>, legacy: string, skew: nat, pos: nat, later: nat)
    requires HistInv(hist, legacy, skew) && pos <= later < |hist| && TakesAll(hist, legacy, pos)
    ensures TakesAll(hist, legacy, later)
  {
    forall a | later <= a < |hist| ensures Sign(legacy, hist[a].config) in Stable(legacy, hist[later].config) {
      AllWellFormed(hist, legacy, skew, a);
      StableIsAccepted(legacy, hist[a].config);
      StableIsAnInterval(hist, legacy, skew, Sign(legacy, hist[a].config), pos, later, a);
    }
  }

  /** Where a write's state signs with another secret, what the write asks for is that c takes that one already. */
  lemma WriteTakes(c: Config, last: Config, legacy: string, write: Write)
    requires WellFormed(c) && WellFormed(last) && Later(c, last) && Allows(last, write)
    requires Sign(legacy, last) in Stable(legacy, c)
    requires write.Rotate? ==> c.replicated != ""
    requires write.Switch? ==> Gen(c) >= Gen(last)
    ensures Sign(legacy, Written(last, write)) in Stable(legacy, c)
  {
  }

  lemma ManagerFits(w: World, id: string)
    requires Inv(w) && id in w.nodes
    ensures var pos := w.nodes[id].pos;
            && pos < |w.hist| && WellFormed(w.hist[pos].config) && WellFormed(w.Last())
            && Later(w.hist[pos].config, w.Last()) && Sign(w.legacy, w.Last()) in Stable(w.legacy, w.hist[pos].config)
  {
    var pos, last := w.nodes[id].pos, |w.hist| - 1;
    assert MgrInv(w, w.nodes[id]);
    AllWellFormed(w.hist, w.legacy, w.skew, last);
    AllWellFormed(w.hist, w.legacy, w.skew, pos);
    HistIsLater(w.hist, w.legacy, w.skew, pos, last);
    assert Sign(w.legacy, w.hist[last].config) in Stable(w.legacy, w.hist[pos].config);
  }

  lemma EvidenceTakes(w: World, write: Write, id: string)
    requires Inv(w) && Enabled(w, Lead(write)) && id in w.nodes
    ensures Sign(w.legacy, Written(w.Last(), write)) in Stable(w.legacy, w.hist[w.nodes[id].pos].config)
  {
    ManagerFits(w, id);
    if write.Rotate? { RotateIsHeard(w, write, id); }
    if write.Switch? { SwitchIsHeard(w, write, id); }
    WriteTakes(w.hist[w.nodes[id].pos].config, w.Last(), w.legacy, write);
  }

  lemma RotateIsHeard(w: World, write: Write, id: string)
    requires Inv(w) && write.Rotate? && Evidence(w, write) && id in w.nodes
    ensures w.nodes[id].pos < |w.hist| && w.hist[w.nodes[id].pos].config.replicated != ""
  {
    assert MgrInv(w, w.nodes[id]) && TakesReplicated(w, write.leader, id);
    var heard: nat :| heard < |w.hist| && Heard(w, write.leader, id, heard) && w.hist[heard].config.replicated != "";
    HistIsLater(w.hist, w.legacy, w.skew, heard, w.nodes[id].pos);
  }

  lemma SwitchIsHeard(w: World, write: Write, id: string)
    requires Inv(w) && write.Switch? && Evidence(w, write) && id in w.nodes
    ensures w.nodes[id].pos < |w.hist| && Gen(w.hist[w.nodes[id].pos].config) >= Gen(w.Last())
  {
    assert MgrInv(w, w.nodes[id]) && TakesGeneration(w, write.leader, id);
    var heard: nat :| heard < |w.hist| && Heard(w, write.leader, id, heard) && Gen(w.hist[heard].config) >= Gen(w.Last());
    HistIsLater(w.hist, w.legacy, w.skew, heard, w.nodes[id].pos);
    AllWellFormed(w.hist, w.legacy, w.skew, w.nodes[id].pos);
  }

  // --- Ahead of the signer: the grace outlasts the lag, the skew and the header ---

  /** The first state after a that signs with another secret than a does. */
  lemma {:induction false} FirstSwitch(hist: seq<Entry>, legacy: string, a: nat, b: nat) returns (k: nat)
    requires a <= b < |hist| && Sign(legacy, hist[a].config) != Sign(legacy, hist[b].config)
    ensures a < k <= b && Sign(legacy, hist[k - 1].config) == Sign(legacy, hist[a].config) != Sign(legacy, hist[k].config)
    decreases b
  {
    if Sign(legacy, hist[b - 1].config) == Sign(legacy, hist[a].config) {
      k := b;
    } else {
      k := FirstSwitch(hist, legacy, a, b - 1);
    }
  }

  /** Still in the grace the k-th state began, by what is written. */
  predicate InGrace(c: Config, from: Config) {
    if from.key.Some? then c.key == from.key && from.key.value.Phase() == Switched
    else c.key == None && !c.agents && c.rotatedAt == from.rotatedAt && c.rotatedAt.Some? && c.replicated == from.replicated
  }

  /** When the switch to c was recorded, as the record has it. */
  function Recorded(c: Config): int {
    if c.key.Some? && c.key.value.switchedAt.Some? then c.key.value.switchedAt.value
    else if c.rotatedAt.Some? then c.rotatedAt.value else 0
  }

  lemma SwitchBegins(c: Config, legacy: string, write: Write, at: int, skew: nat)
    requires WellFormed(c) && Allows(c, write) && ByClock(write, at, skew)
    requires Sign(legacy, Written(c, write)) != Sign(legacy, c)
    ensures var d := Written(c, write);
            && InGrace(d, d)
            && at <= Recorded(d) + (if c.rotatedAt.Some? then 0 else SECOND - 1)
            && (forall now :: now < Recorded(d) + LEGACY_PROXY_GRACE ==> Sign(legacy, c) in Installed(legacy, d, now).accept)
  {
  }

  /** Nothing ends a grace until it has long passed. */
  lemma {:induction false} GraceLasts(hist: seq<Entry>, legacy: string, skew: nat, k: nat, j: nat)
    requires HistInv(hist, legacy, skew) && k <= j < |hist| && InGrace(hist[k].config, hist[k].config)
    ensures InGrace(hist[j].config, hist[k].config)
            || hist[j].at >= Recorded(hist[k].config) + PROXY_ROTATION_SETTLED - skew
    decreases j
  {
    if k < j {
      GraceLasts(hist, legacy, skew, k, j - 1);
      AllWellFormed(hist, legacy, skew, j - 1);
      var write := WriteOf(hist, legacy, skew, j);
    }
  }

  lemma GraceAccepts(legacy: string, c: Config, d: Config, now: int, x: string)
    requires InGrace(c, d) && InGrace(d, d) && x in Installed(legacy, d, now).accept
    ensures x in Installed(legacy, c, now).accept
  {
  }

  /** How much longer a grace must be than lag, skew and a header's life: the first switch's time lost its milliseconds. */
  function Lost(c: Config): nat {
    if c.rotatedAt.Some? then 0 else SECOND - 1
  }

  predicate WithinGrace(lag: nat, skew: nat, signer: Config) {
    lag + skew + HEADER_LIFE + Lost(signer) < LEGACY_PROXY_GRACE
  }

  lemma AheadAccepts(w: World, h: Header, m: Mgr)
    requires Inv(w) && h in w.headers && HeaderInv(w, h) && MgrInv(w, m) && m.pos >= h.pos
    requires w.now <= h.at + HEADER_LIFE && WithinGrace(w.lag, w.skew, w.hist[h.pos].config)
    ensures h.secret in Installed(w.legacy, w.hist[m.pos].config, m.asOf).accept
  {
    var a, b, hist := h.pos, m.pos, w.hist;
    var d := hist[b].config;
    InstalledBounds(w.legacy, d, m.asOf, m.asOf);
    if Sign(w.legacy, hist[a].config) != Sign(w.legacy, d) {
      var k := FirstSwitch(hist, w.legacy, a, b);
      AllWellFormed(hist, w.legacy, w.skew, k - 1);
      var write := WriteOf(hist, w.legacy, w.skew, k);
      SwitchBegins(hist[k - 1].config, w.legacy, write, hist[k].at, w.skew);
      HistIsLater(hist, w.legacy, w.skew, a, k - 1);
      HistIsLater(hist, w.legacy, w.skew, b, |hist| - 1);
      GraceLasts(hist, w.legacy, w.skew, k, b);
      assert h.at <= hist[k].at + w.lag;
      GraceAccepts(w.legacy, d, hist[k].config, m.asOf, h.secret);
    }
  }

  // --- Every run ---

  lemma InitHolds(w: World)
    requires Init(w)
    ensures Inv(w)
  {
  }

  lemma HistGrows(hist: seq<Entry>, legacy: string, skew: nat, write: Write, at: int)
    requires HistInv(hist, legacy, skew) && hist[|hist| - 1].at <= at
    requires Allows(hist[|hist| - 1].config, write) && ByClock(write, at, skew) && FreshIn(hist, legacy, write)
    ensures HistInv(hist + [Entry(Written(hist[|hist| - 1].config, write), at)], legacy, skew)
  {
    var hist' := hist + [Entry(Written(hist[|hist| - 1].config, write), at)];
    forall k | 0 < k < |hist'| ensures Follows(hist', legacy, skew, k) {
      if k < |hist| {
        var one := WriteOf(hist, legacy, skew, k);
        assert hist'[..k] == hist[..k];
        assert Follows(hist, legacy, skew, k);
      } else {
        assert hist'[..k] == hist;
      }
    }
  }

  /** A manager that takes what the next state signs with too takes all there is then. */
  lemma TakesOneMore(hist: seq<Entry>, legacy: string, pos: nat, e: Entry)
    requires pos < |hist| && TakesAll(hist, legacy, pos)
    requires Sign(legacy, e.config) in Stable(legacy, hist[pos].config)
    ensures TakesAll(hist + [e], legacy, pos)
  {
    var hist' := hist + [e];
    forall a | pos <= a < |hist'| ensures Sign(legacy, hist'[a].config) in Stable(legacy, hist'[pos].config) {
      if a < |hist| {
        assert hist'[a] == hist[a];
      }
    }
  }

  lemma LeadKeepsMgr(w: World, write: Write, id: string)
    requires Inv(w) && Enabled(w, Lead(write)) && id in w.nodes
    ensures MgrInv(Do(w, Lead(write)), w.nodes[id])
  {
    assert MgrInv(w, w.nodes[id]);
    EvidenceTakes(w, write, id);
    TakesOneMore(w.hist, w.legacy, w.nodes[id].pos, Entry(Written(w.Last(), write), w.now));
  }

  lemma LeadKeeps(w: World, write: Write)
    requires Inv(w) && Enabled(w, Lead(write))
    ensures Inv(Do(w, Lead(write)))
  {
    var w' := Do(w, Lead(write));
    HistGrows(w.hist, w.legacy, w.skew, write, w.now);
    forall id | id in w'.nodes ensures MgrInv(w', w'.nodes[id]) {
      LeadKeepsMgr(w, write, id);
    }
    forall h | h in w'.headers ensures HeaderInv(w', h) {
      assert HeaderInv(w, h);
    }
  }

  lemma InstallKeeps(w: World, id: string, pos: nat, clock: int)
    requires Inv(w) && Enabled(w, Install(id, pos, clock))
    ensures Inv(Do(w, Install(id, pos, clock)))
  {
    var w' := Do(w, Install(id, pos, clock));
    assert MgrInv(w, w.nodes[id]);
    TakesAllFrom(w.hist, w.legacy, w.skew, w.nodes[id].pos, pos);
    forall x | x in w'.nodes ensures MgrInv(w', w'.nodes[x]) {
      assert MgrInv(w, w.nodes[x]);
    }
    forall h | h in w'.headers ensures HeaderInv(w', h) {
      assert HeaderInv(w, h);
    }
  }

  lemma TickKeeps(w: World, now: int)
    requires Inv(w) && Enabled(w, Tick(now))
    ensures Inv(Do(w, Tick(now)))
  {
    var w' := Do(w, Tick(now));
    forall x | x in w'.nodes ensures MgrInv(w', w'.nodes[x]) {
      assert MgrInv(w, w.nodes[x]);
    }
    forall h | h in w'.headers ensures HeaderInv(w', h) {
      assert HeaderInv(w, h);
    }
  }

  lemma NewStays(w: World, reports: set<Report>, headers: set<Header>)
    ensures var w' := w.(reports := reports, headers := headers);
            && (forall m :: MgrInv(w, m) ==> MgrInv(w', m)) && (forall h :: HeaderInv(w, h) ==> HeaderInv(w', h))
  {
  }

  lemma SayKeeps(w: World, id: string)
    requires Inv(w) && Enabled(w, Say(id))
    ensures Inv(Do(w, Say(id)))
  {
    NewStays(w, Do(w, Say(id)).reports, w.headers);
  }

  lemma SignKeeps(w: World, id: string)
    requires Inv(w) && Enabled(w, SignOne(id))
    ensures Inv(Do(w, SignOne(id)))
  {
    var m := w.nodes[id];
    assert MgrInv(w, m);
    assert HeaderInv(w, Header(m.pos, Sign(w.legacy, w.hist[m.pos].config), w.now));
    NewStays(w, w.reports, Do(w, SignOne(id)).headers);
  }

  lemma StepKeeps(w: World, s: Step)
    requires Inv(w) && Enabled(w, s)
    ensures Inv(Do(w, s))
  {
    match s
    case Lead(write) => LeadKeeps(w, write);
    case Install(id, pos, clock) => InstallKeeps(w, id, pos, clock);
    case Tick(now) => TickKeeps(w, now);
    case Say(id) => SayKeeps(w, id);
    case SignOne(id) => SignKeeps(w, id);
  }

  lemma {:induction false} RunKeeps(w: World, steps: seq<Step>)
    requires Inv(w) && Runs(w, steps)
    ensures Inv(After(w, steps))
    decreases |steps|
  {
    if steps != [] {
      StepKeeps(w, steps[0]);
      RunKeeps(Do(w, steps[0]), steps[1..]);
    }
  }

  /** For as long as it lives, the header is under a secret the manager accepts. */
  ghost predicate AcceptedBy(w: World, h: Header, id: string)
    requires id in w.nodes && w.nodes[id].pos < |w.hist|
  {
    h.secret in Installed(w.legacy, w.hist[w.nodes[id].pos].config, w.nodes[id].asOf).accept
  }

  /**
   Through the first switch and any number of re-rotations, whatever a manager signs is under a
   secret every manager accepts for 30 seconds after — the signer before the switch or the one
   asked — when lag, skew and those 30 seconds are within the grace, a second less than it where the
   signer has yet to make the first switch.
   */
  lemma HeadersAreAccepted(w0: World, steps: seq<Step>, h: Header, id: string)
    requires Init(w0) && Runs(w0, steps)
    requires var w := After(w0, steps);
             && h in w.headers && id in w.nodes && h.pos < |w.hist| && w.now <= h.at + HEADER_LIFE
             && (w.nodes[id].pos > h.pos ==> WithinGrace(w.lag, w.skew, w.hist[h.pos].config))
    ensures var w := After(w0, steps); w.nodes[id].pos < |w.hist| && AcceptedBy(w, h, id)
  {
    InitHolds(w0);
    RunKeeps(w0, steps);
    var w := After(w0, steps);
    var m := w.nodes[id];
    assert HeaderInv(w, h) && MgrInv(w, m);
    AllWellFormed(w.hist, w.legacy, w.skew, m.pos);
    if m.pos <= h.pos {
      StableIsAccepted(w.legacy, w.hist[m.pos].config);
    } else {
      AheadAccepts(w, h, m);
    }
  }

  lemma StepMovesOn(w: World, s: Step, id: string)
    requires Enabled(w, s) && id in w.nodes
    ensures var w' := Do(w, s);
            && w.hist <= w'.hist && id in w'.nodes && w.nodes[id].pos <= w'.nodes[id].pos
            && w'.legacy == w.legacy && w'.skew == w.skew
  {
  }

  /** No manager goes back to a state older than one it has gone by, and each state's record is newer or the same. */
  lemma {:induction false} ManagersMoveOn(w: World, steps: seq<Step>, id: string)
    requires Inv(w) && Runs(w, steps) && id in w.nodes
    ensures var w' := After(w, steps);
            && w.hist <= w'.hist && id in w'.nodes && w.nodes[id].pos <= w'.nodes[id].pos < |w'.hist|
            && w'.legacy == w.legacy && w'.skew == w.skew && Inv(w')
    decreases |steps|
  {
    if steps != [] {
      StepKeeps(w, steps[0]);
      StepMovesOn(w, steps[0], id);
      ManagersMoveOn(Do(w, steps[0]), steps[1..], id);
    } else {
      assert MgrInv(w, w.nodes[id]);
    }
  }

  /** A secret gone from the state a manager goes by is one it never accepts again. */
  lemma RetiredForGood(w0: World, before: seq<Step>, after: seq<Step>, id: string, x: string)
    requires Init(w0) && Runs(w0, before) && Runs(After(w0, before), after) && id in After(w0, before).nodes
    requires var w := After(w0, before); w.nodes[id].pos < |w.hist| && GoneAt(w.hist, w.legacy, x, w.nodes[id].pos)
    ensures var w' := After(After(w0, before), after);
            && id in w'.nodes && w'.nodes[id].pos < |w'.hist|
            && forall clock :: x !in Installed(w'.legacy, w'.hist[w'.nodes[id].pos].config, clock).accept
  {
    InitHolds(w0);
    RunKeeps(w0, before);
    var w := After(w0, before);
    ManagersMoveOn(w, after, id);
    var w' := After(w, after);
    var k := w.nodes[id].pos;
    var i :| 0 <= i < k && x in Accepted(w.legacy, w.hist[i].config);
    assert w'.hist[i] == w.hist[i] && w'.hist[k] == w.hist[k];
    GoneForGood(w'.hist, w'.legacy, w'.skew, x, k, w'.nodes[id].pos);
    forall clock ensures x !in Installed(w'.legacy, w'.hist[w'.nodes[id].pos].config, clock).accept {
      InstalledBounds(w'.legacy, w'.hist[w'.nodes[id].pos].config, clock, clock);
    }
  }
}
