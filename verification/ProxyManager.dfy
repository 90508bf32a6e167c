/**
 A manager's part in the secret (internal/cluster/proxy_secret.go, proxy_rotation.go): what it goes
 by after a restart, from the newer of replicated state and its floor, and what a leader writes.
 */
module ProxyManager {
  import opened Options
  import opened ProxyKeys
  import opened ProxyWorld
  import opened ProxyHistory

  /** proxy-secret.json. */
  datatype Floor = Floor(secret: string, rotatedAt: Option<int>, agentsSeen: bool, key: Option<ProxyKey>)

  const NO_FLOOR := Floor("", None, false, None)

  /** What a manager with floor f goes by when replicated state shows it c. */
  function Effective(f: Floor, c: Config): Config {
    if f.key.Some? && (c.key == None || f.key.value.NewerThan(c.key.value)) then c.(key := f.key)
    else if c.key.Some? then c
    else
      var replicated := if c.replicated == "" then f.secret else c.replicated;
      var rotatedAt := if c.replicated == "" || (c.replicated == f.secret && c.rotatedAt == None) then f.rotatedAt else c.rotatedAt;
      Config(replicated, rotatedAt, c.agents || f.agentsSeen, None)
  }

  /** The floor kept c: of a re-rotation its record, before one all the rest. */
  predicate Keeps(f: Floor, c: Config) {
    && f.key == c.key
    && (c.key == None ==> f.secret == c.replicated && f.rotatedAt == c.rotatedAt && f.agentsSeen == c.agents)
  }

  /**
   Whatever older state of the log a manager is shown, what it goes by installs exactly the secrets
   of the newer of that state and the one its floor kept.
   */
  lemma EffectiveIsNewest(hist: seq<Entry>, legacy: string, skew: nat, f: Floor, p: nat, i: nat, now: int)
    requires HistInv(hist, legacy, skew) && p < |hist| && i < |hist| && Keeps(f, hist[p].config)
    ensures var newest := hist[if i < p then p else i].config;
            && Installed(legacy, Effective(f, hist[i].config), now) == Installed(legacy, newest, now)
            && Effective(f, hist[i].config).key == newest.key
            && (newest.key == None ==> Effective(f, hist[i].config) == newest)
  {
    AllWellFormed(hist, legacy, skew, i);
    AllWellFormed(hist, legacy, skew, p);
    if i < p {
      HistIsLater(hist, legacy, skew, i, p);
    } else {
      HistIsLater(hist, legacy, skew, p, i);
    }
  }

  /** What the floor file holds in turn as a manager keeps e: a stop leaves any first part of it. */
  function FloorTrail(f: Floor, e: Config, now: int): seq<Floor> {
    if e.key.Some? then
      if f.key == e.key then [] else [f.(secret := KeysAt(e.key.value, now).sign, key := e.key)]
    else
      var first := f.(secret := e.replicated, rotatedAt := e.rotatedAt);
      var kept := if e.replicated != "" then first else f;
      (if kept != f then [kept] else []) + (if e.agents && !f.agentsSeen then [kept.(agentsSeen := true)] else [])
  }

  /** The file after the first n of its writes. */
  function FloorAfter(f: Floor, trail: seq<Floor>, n: nat): Floor {
    if n == 0 || trail == [] then f else if n < |trail| then trail[n - 1] else trail[|trail| - 1]
  }

  /** The last state before the first agent was seen, with the secret and time of one after it. */
  lemma {:induction false} BeforeAgents(hist: seq<Entry>, legacy: string, skew: nat, p: nat, m: nat) returns (q: nat)
    requires HistInv(hist, legacy, skew) && p <= m < |hist|
    requires !hist[p].config.agents && hist[m].config.agents && hist[m].config.key == None
    ensures p <= q < m && hist[q].config == hist[m].config.(agents := false)
    decreases m
  {
    AllWellFormed(hist, legacy, skew, m - 1);
    var write := WriteOf(hist, legacy, skew, m);
    if hist[m - 1].config.agents {
      q := BeforeAgents(hist, legacy, skew, p, m - 1);
    } else {
      q := m - 1;
    }
  }

  predicate KeepsBetween(hist: seq<Entry>, f: Floor, p: nat, m: nat)
    requires m < |hist|
  {
    exists q :: p <= q <= m && Keeps(f, hist[q].config)
  }

  /**
   Wherever a stop falls among the floor's writes, the file keeps a state of the log no older than the
   one it kept and no newer than the one gone by — and once all are done the newest itself.
   */
  lemma FloorIsBetween(hist: seq<Entry>, legacy: string, skew: nat, f: Floor, p: nat, i: nat, now: int, n: nat)
    requires HistInv(hist, legacy, skew) && p < |hist| && i < |hist| && Keeps(f, hist[p].config)
    ensures var m, trail := if i < p then p else i, FloorTrail(f, Effective(f, hist[i].config), now);
            KeepsBetween(hist, FloorAfter(f, trail, n), p, m) && (n >= |trail| ==> Keeps(FloorAfter(f, trail, n), hist[m].config))
  {
    var m := if i < p then p else i;
    EffectiveIsNewest(hist, legacy, skew, f, p, i, now);
    AllWellFormed(hist, legacy, skew, m);
    AllWellFormed(hist, legacy, skew, p);
    HistIsLater(hist, legacy, skew, p, m);
    var newest := hist[m].config;
    var trail := FloorTrail(f, Effective(f, hist[i].config), now);
    if trail == [] || n == 0 {
      assert Keeps(f, hist[p].config);
      KeptIs(hist, FloorAfter(f, trail, n), p, m, p);
    } else if newest.key.Some? || newest.agents == f.agentsSeen || n >= 2 {
      KeptIs(hist, FloorAfter(f, trail, n), p, m, m);
    } else {
      var q := BeforeAgents(hist, legacy, skew, p, m);
      KeptIs(hist, FloorAfter(f, trail, n), p, m, if |trail| == 1 then m else q);
    }
  }

  lemma KeptIs(hist: seq<Entry>, f: Floor, p: nat, m: nat, q: nat)
    requires p <= q <= m < |hist| && Keeps(f, hist[q].config)
    ensures KeepsBetween(hist, f, p, m)
  {
  }

  /**
   A manager: a process and its floor file. budget is how many of the file's writes are done before it
   stops or they fail.
   */
  class ProxySecretManager {
    const legacy: string
    var file: Floor
    var floor: Floor
    var floorLoaded: bool
    var sign: string
    var accept: seq<string>
    var appliedReplicated: string
    var appliedProxyGen: int
    var budget: nat

    ghost predicate Valid()
      reads this
    {
      (floorLoaded ==> floor == file) && (!floorLoaded ==> floor == NO_FLOOR)
    }

    /** A start, with what the floor file holds. */
    constructor (legacy: string, file: Floor, budget: nat)
      ensures Valid() && this.legacy == legacy && this.file == file && this.budget == budget
    {
      this.legacy, this.file, floor, floorLoaded, this.budget := legacy, file, NO_FLOOR, false, budget;
      sign, accept, appliedReplicated, appliedProxyGen := "", [], "", 0;
    }

    method LoadProxySecretFloor()
      requires Valid()
      modifies `floor, `floorLoaded
      ensures Valid() && floorLoaded
    {
      if !floorLoaded {
        floorLoaded := true;
        floor := file;
      }
    }

    /** The floor moves in memory only once the file holds it. */
    method SaveFloor(next: Floor)
      requires Valid() && floorLoaded
      modifies `floor, `file, `budget
      ensures Valid() && file == (if old(budget) > 0 then next else old(file))
      ensures budget == if old(budget) > 0 then old(budget) - 1 else 0
    {
      if budget > 0 {
        budget := budget - 1;
        file := next;
        floor := next;
      }
    }

    /** The newer of the record shown and the one kept; a newer one shown is kept. */
    method WithProxyKeyFloor(k: Option<ProxyKey>, now: int) returns (newer: Option<ProxyKey>)
      requires Valid()
      modifies `floor, `floorLoaded, `file, `budget
      ensures Valid() && floorLoaded
      ensures newer == (if old(file).key.Some? && (k == None || old(file).key.value.NewerThan(k.value)) then old(file).key else k)
      ensures newer == old(file).key ==> file == old(file) && budget == old(budget)
      ensures newer != old(file).key ==>
                newer.Some? && file == if old(budget) > 0 then old(file).(secret := KeysAt(newer.value, now).sign, key := newer)
                                       else old(file)
    {
      LoadProxySecretFloor();
      var kept := floor.key;
      if kept.Some? && (k == None || kept.value.NewerThan(k.value)) {
        return kept;
      }
      if k == None {
        return None;
      }
      if kept != k {
        SaveFloor(Floor(KeysAt(k.value, now).sign, floor.rotatedAt, floor.agentsSeen, k));
      }
      return k;
    }

    /** What replicated state does not show yet, from the floor; what it shows is kept. */
    method WithProxySecretFloor(replicated: string, rotatedAt: Option<int>) returns (secret: string, at: Option<int>)
      requires Valid() && floorLoaded && file.key == None
      modifies `floor, `file, `budget
      ensures Valid()
      ensures secret == (if replicated == "" then old(file).secret else replicated)
      ensures at == if replicated == "" || (replicated == old(file).secret && rotatedAt == None) then old(file).rotatedAt else rotatedAt
      ensures var next := old(file).(secret := secret, rotatedAt := at);
              if secret == "" || next == old(file) then file == old(file) && budget == old(budget)
              else file == (if old(budget) > 0 then next else old(file)) && budget == (if old(budget) > 0 then old(budget) - 1 else 0)
    {
      secret, at := replicated, rotatedAt;
      if replicated == "" {
        secret, at := floor.secret, floor.rotatedAt;
      } else if replicated == floor.secret && rotatedAt == None {
        at := floor.rotatedAt;
      }
      if secret != "" && (secret != floor.secret || at != floor.rotatedAt) {
        SaveFloor(Floor(secret, at, floor.agentsSeen, None));
      }
    }

    /** Whether the cluster has, or ever had, an agent, which the floor keeps. */
    method AgentsSeen(shown: bool) returns (seen: bool)
      requires Valid() && floorLoaded
      modifies `floor, `file, `budget
      ensures Valid() && seen == (shown || old(file).agentsSeen)
      ensures file == if old(budget) > 0 then old(file).(agentsSeen := seen) else old(file)
    {
      if shown && !floor.agentsSeen {
        SaveFloor(floor.(agentsSeen := true));
      }
      return shown || floor.agentsSeen;
    }

    /** What the manager goes by before any re-rotation, which the floor keeps. */
    method WithFloor(c: Config, ghost now: int) returns (e: Config)
      requires Valid() && floorLoaded && file.key == None && c.key == None
      modifies `floor, `file, `budget
      ensures Valid() && e == Effective(old(file), c)
      ensures file == FloorAfter(old(file), FloorTrail(old(file), e, now), old(budget))
    {
      var replicated, rotatedAt := WithProxySecretFloor(c.replicated, c.rotatedAt);
      var seen := AgentsSeen(c.agents);
      return Config(replicated, rotatedAt, seen, None);
    }

    /**
     Installs the secrets of what the manager goes by, whether or not the floor can be kept, and keeps
     it as far as the file's writes are done.
     */
    method ApplyProxySecrets(c: Config, now: int)
      requires Valid() && WellFormed(c)
      modifies this
      ensures Valid()
      ensures var e := Effective(old(file), c);
              && Secrets(sign, accept) == Installed(legacy, e, now) && appliedProxyGen == Gen(e)
              && appliedReplicated == (if e.key.Some? then sign else e.replicated)
              && file == FloorAfter(old(file), FloorTrail(old(file), e, now), old(budget))
              && (e.key.Some? && e.key != old(file).key && old(budget) > 0 ==> file.secret == sign)
    {
      var k := WithProxyKeyFloor(c.key, now);
      var s: Secrets;
      if k.Some? {
        s := KeysAt(k.value, now);
        appliedReplicated, appliedProxyGen := s.sign, k.value.generation;
      } else {
        var e := WithFloor(c, now);
        s := SecretsAt(legacy, e.replicated, e.rotatedAt, now, e.agents);
        appliedReplicated, appliedProxyGen := e.replicated, 0;
      }
      if s.sign == sign && s.accept == accept {
        return;
      }
      sign, accept := s.sign, s.accept;
    }

    /**
     A manager that has gone by the p-th state and is shown the i-th, older or newer, installs the
     secrets of the newer. Wherever it stops, its next start goes by a state between the two.
     */
    method ApplyShown(ghost hist: seq<Entry>, ghost skew: nat, ghost p: nat, ghost i: nat, c: Config, now: int)
      requires Valid() && HistInv(hist, legacy, skew) && p < |hist| && i < |hist| && hist[i].config == c
      requires Keeps(file, hist[p].config)
      modifies this
      ensures Valid()
      ensures var m := if i < p then p else i;
              && Secrets(sign, accept) == Installed(legacy, hist[m].config, now) && KeepsBetween(hist, file, p, m)
              && (old(budget) >= 2 ==> Keeps(file, hist[m].config))
              && appliedProxyGen == Gen(hist[m].config) && (hist[m].config.replicated != "" ==> appliedReplicated != "")
    {
      ghost var m := if i < p then p else i;
      AllWellFormed(hist, legacy, skew, i);
      AllWellFormed(hist, legacy, skew, m);
      EffectiveIsNewest(hist, legacy, skew, file, p, i, now);
      FloorIsBetween(hist, legacy, skew, file, p, i, now, budget);
      InstalledBounds(legacy, hist[m].config, now, now);
      SignIsSecret(hist, legacy, skew, m);
      ApplyProxySecrets(c, now);
    }
  }

  /** What the managers sign with under a record is some secret. */
  lemma SignIsSecret(hist: seq<Entry>, legacy: string, skew: nat, k: nat)
    requires HistInv(hist, legacy, skew) && k < |hist|
    ensures Sign(legacy, hist[k].config) != ""
  {
    AllWellFormed(hist, legacy, skew, k);
  }

  /**
   An apply, of whatever state of the log a manager is shown, is ProxyWorld's install step: to a state
   no older than the one it goes by, with that state's secrets by its clock.
   */
  lemma ShownIsInstall(w: World, id: string, f: Floor, i: nat, clock: int)
    requires HistInv(w.hist, w.legacy, w.skew) && id in w.nodes && w.nodes[id].pos < |w.hist| && i < |w.hist| && w.Reads(clock)
    requires Keeps(f, w.hist[w.nodes[id].pos].config)
    ensures var p := w.nodes[id].pos;
            var step := Install(id, if i < p then p else i, clock);
            && Enabled(w, step)
            && var n := Do(w, step).nodes[id];
               && n.pos >= p && n.asOf == clock
               && Installed(w.legacy, Effective(f, w.hist[i].config), clock) == Installed(w.legacy, w.hist[n.pos].config, clock)
  {
    EffectiveIsNewest(w.hist, w.legacy, w.skew, f, w.nodes[id].pos, i, clock);
  }
}
