/**
 The secret over a whole cluster of managers: the states the leader writes, each manager at its own
 place among them, clocks that differ, and the headers signed on the way.
 */
module ProxyWorld {
  import opened Options
  import opened ProxyKeys

  const SECOND := 1_000
  const HEADER_LIFE := 30_000

  /** A state of the replicated keys, and when it was written. */
  datatype Entry = Entry(config: Config, at: int)

  /** A manager: the newest state it goes by, and its clock when it last installed its secrets. */
  datatype Mgr = Mgr(pos: nat, asOf: int)

  datatype Header = Header(pos: nat, secret: string, at: int)

  datatype Report = Report(id: string, pos: nat)

  /**
   lag is how long a manager may take to go by a state written, skew how far a clock may be ahead of
   the slowest.
   */
  datatype World = World(
    legacy: string, lag: nat, skew: nat,
    hist: seq<Entry>, now: int, nodes: map<string, Mgr>, reports: set<Report>, headers: set<Header>)
  {
    function Last(): Config
      requires hist != []
    {
      hist[|hist| - 1].config
    }

    /** A reading of some node's clock now. */
    predicate Reads(clock: int) { now <= clock <= now + skew }
  }

  const EMPTY := Config("", None, false, None)

  datatype Write =
    | Seed(secret: string)
    | Rotate(leader: string, seenAt: int, clock: int)
    | AgentSeen(clock: int)
    | Start(secret: string, clock: int)
    | Switch(leader: string, clock: int)
    | Finish(clock: int)

  function Gen(c: Config): int {
    if c.key.Some? then c.key.value.generation else 0
  }

  /** What the managers sign with now, which a re-rotation moves from. */
  function Previous(c: Config): string {
    if c.key == None then c.replicated
    else if c.key.value.Phase() == Next then c.key.value.previous
    else c.key.value.secret
  }

  /** RFC 3339 text keeps whole seconds. */
  function Truncated(clock: int): int {
    clock - clock % SECOND
  }

  predicate Settled(c: Config, clock: int) {
    c.rotatedAt.Some? && clock - c.rotatedAt.value > PROXY_ROTATION_SETTLED
  }

  /** The gates on replicated state and the leader's clock of each write. */
  predicate Allows(c: Config, w: Write) {
    match w
    case Seed(secret) => c.rotatedAt == None && c.replicated == "" && secret != ""
    case Rotate(_, seenAt, clock) => c.rotatedAt == None && c.replicated != "" && clock - seenAt >= PROXY_SECRET_SETTLE
    case AgentSeen(clock) => Settled(c, clock)
    case Start(secret, clock) =>
      secret != "" && Settled(c, clock) && (c.key.Some? ==> c.key.value.Phase() != Switched) && Previous(c) != ""
    case Switch(_, clock) => c.key.Some? && c.key.value.Phase() == Next
    case Finish(clock) =>
      c.key.Some? && c.key.value.Phase() == Switched && clock >= c.key.value.switchedAt.value + PROXY_ROTATION_SETTLED
  }

  function Written(c: Config, w: Write): Config
    requires Allows(c, w)
  {
    match w
    case Seed(secret) => c.(replicated := secret)
    case Rotate(_, _, clock) => c.(rotatedAt := Some(Truncated(clock)))
    case AgentSeen(_) => c.(agents := true)
    case Start(secret, _) => c.(key := Some(ProxyKey(Gen(c) + 1, secret, Previous(c), None)))
    case Switch(_, clock) => c.(key := Some(c.key.value.(switchedAt := Some(clock))))
    case Finish(_) => c.(key := Some(c.key.value.(previous := "")))
  }

  predicate Fresh(hist: seq<Entry>, legacy: string, secret: string) {
    secret != legacy && forall i :: 0 <= i < |hist| ==> Unknown(legacy, hist[i].config, secret)
  }

  predicate Unknown(legacy: string, c: Config, secret: string) {
    secret !in Accepted(legacy, c) && secret != c.replicated
  }

  datatype Step =
    | Lead(write: Write)
    | Tick(now: int)
    | Install(id: string, pos: nat, clock: int)
    | Say(id: string)
    | SignOne(id: string)

  /** What the leader has heard of id, or for itself what it goes by. */
  ghost predicate Heard(w: World, leader: string, id: string, pos: nat)
    requires id in w.nodes
  {
    if id == leader then pos == w.nodes[id].pos else Report(id, pos) in w.reports
  }

  ghost predicate TakesReplicated(w: World, leader: string, id: string)
    requires id in w.nodes
  {
    exists pos: nat :: pos < |w.hist| && Heard(w, leader, id, pos) && w.hist[pos].config.replicated != ""
  }

  ghost predicate TakesGeneration(w: World, leader: string, id: string)
    requires id in w.nodes && w.hist != []
  {
    exists pos: nat :: pos < |w.hist| && Heard(w, leader, id, pos) && Gen(w.hist[pos].config) >= Gen(w.Last())
  }

  /** The secret was there when a clock read seenAt. */
  ghost predicate SeededBy(hist: seq<Entry>, seenAt: int) {
    exists k :: 0 <= k < |hist| && hist[k].config.replicated != "" && hist[k].at <= seenAt
  }

  ghost predicate Evidence(w: World, write: Write)
    requires w.hist != []
  {
    match write
    case Seed(secret) => Fresh(w.hist, w.legacy, secret)
    case Rotate(leader, seenAt, clock) =>
      && leader in w.nodes && w.Reads(clock) && SeededBy(w.hist, seenAt)
      && forall id :: id in w.nodes ==> TakesReplicated(w, leader, id)
    case AgentSeen(clock) => w.Reads(clock)
    case Start(secret, clock) => Fresh(w.hist, w.legacy, secret) && w.Reads(clock)
    case Switch(leader, clock) =>
      leader in w.nodes && w.Reads(clock) && forall id :: id in w.nodes ==> TakesGeneration(w, leader, id)
    case Finish(clock) => w.Reads(clock)
  }

  /** A manager at pos is not behind any state written more than lag before now. */
  predicate InTime(hist: seq<Entry>, lag: nat, pos: nat, now: int) {
    forall k :: 0 <= k < |hist| && hist[k].at + lag < now ==> k <= pos
  }

  ghost predicate Enabled(w: World, s: Step) {
    && w.hist != []
    && match s
       case Lead(write) => Allows(w.Last(), write) && Evidence(w, write)
       case Tick(now) => now >= w.now && forall id :: id in w.nodes ==> InTime(w.hist, w.lag, w.nodes[id].pos, now)
       case Install(id, pos, clock) => id in w.nodes && w.nodes[id].pos <= pos < |w.hist| && w.Reads(clock)
       case Say(id) => id in w.nodes
       case SignOne(id) => id in w.nodes && w.nodes[id].pos < |w.hist|
  }

  ghost function Do(w: World, s: Step): World
    requires Enabled(w, s)
  {
    match s
    case Lead(write) => w.(hist := w.hist + [Entry(Written(w.Last(), write), w.now)])
    case Tick(now) => w.(now := now)
    case Install(id, pos, clock) => w.(nodes := w.nodes[id := Mgr(pos, clock)])
    case Say(id) => w.(reports := w.reports + {Report(id, w.nodes[id].pos)})
    case SignOne(id) =>
      var pos := w.nodes[id].pos;
      w.(headers := w.headers + {Header(pos, Sign(w.legacy, w.hist[pos].config), w.now)})
  }

  /** A cluster that has only the CA-derived secret. */
  predicate Init(w: World) {
    && w.legacy != "" && w.hist == [Entry(EMPTY, w.now)] && w.reports == {} && w.headers == {}
    && forall id :: id in w.nodes ==> w.nodes[id].pos == 0 && w.nodes[id].asOf <= w.now + w.skew
  }

  ghost predicate Runs(w: World, steps: seq<Step>)
    decreases |steps|
  {
    steps == [] || (Enabled(w, steps[0]) && Runs(Do(w, steps[0]), steps[1..]))
  }

  ghost function After(w: World, steps: seq<Step>): World
    requires Runs(w, steps)
    decreases |steps|
  {
    if steps == [] then w else After(Do(w, steps[0]), steps[1..])
  }

  // --- What the states keep ---

  /** One state to the next: a write the one before allows, by a clock that reads its time. */
  ghost predicate Follows(hist: seq<Entry>, legacy: string, skew: nat, k: nat)
    requires 0 < k < |hist|
  {
    && hist[k - 1].at <= hist[k].at
    && exists write :: Allows(hist[k - 1].config, write) && hist[k].config == Written(hist[k - 1].config, write)
                       && ByClock(write, hist[k].at, skew) && FreshIn(hist[..k], legacy, write)
  }

  predicate ByClock(write: Write, at: int, skew: nat) {
    write.Seed? || at <= write.clock <= at + skew
  }

  predicate FreshIn(hist: seq<Entry>, legacy: string, write: Write) {
    (write.Seed? || write.Start?) ==> Fresh(hist, legacy, write.secret)
  }

  ghost predicate HistInv(hist: seq<Entry>, legacy: string, skew: nat) {
    && hist != [] && hist[0].config == EMPTY && legacy != ""
    && forall k :: 0 < k < |hist| ==> Follows(hist, legacy, skew, k)
  }

  /** What a manager at c accepts whatever its clock says: all but what a grace lets in. */
  function Stable(legacy: string, c: Config): set<string> {
    if c.key.Some? then
      {c.key.value.secret} + (if c.key.value.Phase() == Next then {c.key.value.previous} else {})
    else if c.replicated == "" then {legacy}
    else {c.replicated} + (if c.rotatedAt == None && !c.agents then {legacy} else {})
  }

  /** From pos on, whatever the managers sign with is accepted at pos for good. */
  predicate TakesAll(hist: seq<Entry>, legacy: string, pos: nat)
    requires pos < |hist|
  {
    forall a :: pos <= a < |hist| ==> Sign(legacy, hist[a].config) in Stable(legacy, hist[pos].config)
  }

  predicate MgrInv(w: World, m: Mgr) {
    && m.pos < |w.hist| && m.asOf <= w.now + w.skew
    && InTime(w.hist, w.lag, m.pos, w.now) && TakesAll(w.hist, w.legacy, m.pos)
  }

  predicate HeaderInv(w: World, h: Header) {
    && h.pos < |w.hist| && h.secret == Sign(w.legacy, w.hist[h.pos].config) && h.at <= w.now
    && InTime(w.hist, w.lag, h.pos, h.at)
  }

  ghost predicate Inv(w: World) {
    && HistInv(w.hist, w.legacy, w.skew) && w.hist[|w.hist| - 1].at <= w.now
    && (forall id :: id in w.nodes ==> MgrInv(w, w.nodes[id]))
    && (forall r :: r in w.reports ==> r.id in w.nodes && r.pos <= w.nodes[r.id].pos)
    && (forall h :: h in w.headers ==> HeaderInv(w, h))
  }
}
