/**
 How long a key an agent leaves must be accepted (internal/cluster/agent_keys.go): a manager whose
 replicated state lags signs with it after the agent's switch. Times are in milliseconds.
 */
module AgentKeyGrace {
  import opened Options
  import opened AgentKeyStore

  // How far a header's time may be from the agent's clock, either way (proxyClockSkew).
  const HEADER_LIFE := 30_000

  /** The key the managers sign with from a confirm on. */
  datatype Entry = Entry(key: string, at: int)

  /** A header signed at a time of the agent's clock, with the signer's own. */
  datatype Header = Header(pos: nat, at: int, stamp: int)

  /**
   now is the agent's clock, a manager's no more than skew away from it. lag is how long a manager may
   take to go by a confirm, rest the shortest time from a confirm to the
   agent's switch away from that confirm's key, and restarts whether the agent may restart. own is the
   place in hist of the agent's own key.
   */
  datatype World = World(
    lag: nat, skew: nat, rest: nat, restarts: bool,
    hist: seq<Entry>, now: int, ring: KeyRing, own: nat, previous: string, previousUntil: int, headers: set<Header>)

  datatype Step =
    | Tick(now: int)
    | Take(key: string, generation: nat)
    | Confirm
    | Switch
    | Restart
    | Sign(pos: nat, stamp: int)

  /** A manager at pos is not behind any confirm more than lag ago. */
  predicate InTime(w: World, pos: nat, at: int) {
    forall k :: 0 <= k < |w.hist| && w.hist[k].at + w.lag < at ==> k <= pos
  }

  predicate Enabled(w: World, s: Step) {
    && w.own < |w.hist|
    && match s
       case Tick(now) => now >= w.now
       case Take(key, generation) => w.own == |w.hist| - 1 && w.ring.Takes(key, generation)
       case Confirm => w.own == |w.hist| - 1 && w.ring.Pending()
       case Switch => w.own == |w.hist| - 2 && w.ring.Pending() && (w.own > 0 ==> w.now >= w.hist[w.own].at + w.rest)
       case Restart => w.restarts
       case Sign(pos, stamp) => pos < |w.hist| && InTime(w, pos, w.now) && w.now - w.skew <= stamp <= w.now + w.skew
  }

  function Do(w: World, s: Step): World
    requires Enabled(w, s)
  {
    match s
    case Tick(now) => w.(now := now)
    case Take(key, generation) => w.(ring := w.ring.Taken(key, generation))
    case Confirm => w.(hist := w.hist + [Entry(w.ring.state.next, w.now)])
    case Switch =>
      w.(ring := w.ring.Switched(), own := w.own + 1, previous := w.ring.current, previousUntil := w.now + LEGACY_PROXY_GRACE)
    case Restart => w.(previous := "")
    case Sign(pos, stamp) => w.(headers := w.headers + {Header(pos, w.now, stamp)})
  }

  predicate Init(w: World) {
    && w.ring.current != "" && w.ring.state == FRESH_STATE && w.hist == [Entry(w.ring.current, w.now)] && w.own == 0
    && w.previous == "" && w.headers == {}
  }

  predicate With(w: World, lag: nat, skew: nat, rest: nat, restarts: bool) {
    w.lag == lag && w.skew == skew && w.rest == rest && w.restarts == restarts
  }

  predicate Runs(w: World, steps: seq<Step>)
    decreases |steps|
  {
    steps == [] || (Enabled(w, steps[0]) && Runs(Do(w, steps[0]), steps[1..]))
  }

  function After(w: World, steps: seq<Step>): World
    requires Runs(w, steps)
    decreases |steps|
  {
    if steps == [] then w else After(Do(w, steps[0]), steps[1..])
  }

  /** The agent takes the header's key now. */
  predicate Accepts(w: World, h: Header)
    requires h.pos < |w.hist|
  {
    w.hist[h.pos].key in AcceptList(w.ring, w.previous, w.previousUntil, w.now)
  }

  /** The agent looks at the header now. */
  predicate Lives(w: World, h: Header) {
    h in w.headers && h.pos < |w.hist| && h.stamp - HEADER_LIFE <= w.now <= h.stamp + HEADER_LIFE
  }

  // --- What every run keeps ---

  predicate HeaderInv(w: World, h: Header) {
    h.pos < |w.hist| && h.at <= w.now && InTime(w, h.pos, h.at) && h.stamp <= h.at + w.skew
  }

  /** Every key the agent has left again was confirmed a rest ago. */
  predicate Rested(w: World)
    requires w.own <= |w.hist|
  {
    forall k :: 0 < k < w.own ==> w.hist[k].at + w.rest <= w.now
  }

  predicate Inv(w: World) {
    && w.hist != [] && (w.own == |w.hist| - 1 || w.own == |w.hist| - 2)
    && w.hist[w.own].key == w.ring.current
    && (w.own == |w.hist| - 2 ==> w.ring.Pending() && w.hist[|w.hist| - 1].key == w.ring.state.next)
    && (forall k :: 0 <= k < |w.hist| ==> w.hist[k].key != "" && w.hist[k].at <= w.now)
    && (!w.restarts && w.own > 0 ==>
          w.previous == w.hist[w.own - 1].key && w.previousUntil >= w.hist[w.own].at + LEGACY_PROXY_GRACE)
    && Rested(w)
    && (forall h :: h in w.headers ==> HeaderInv(w, h))
  }

  lemma StepKeeps(w: World, s: Step)
    requires Inv(w) && Enabled(w, s)
    ensures Inv(Do(w, s))
  {
    var w' := Do(w, s);
    forall h | h in w'.headers ensures HeaderInv(w', h) {
      assert h in w.headers ==> HeaderInv(w, h);
    }
  }

  lemma {:induction false} RunKeeps(w: World, steps: seq<Step>)
    requires Inv(w) && Runs(w, steps)
    ensures Inv(After(w, steps))
    ensures With(After(w, steps), w.lag, w.skew, w.rest, w.restarts)
    decreases |steps|
  {
    if steps != [] {
      StepKeeps(w, steps[0]);
      RunKeeps(Do(w, steps[0]), steps[1..]);
    }
  }

  /** Lag, skew and a header's life are within the grace and the rest, and nothing forgets the key left. */
  predicate Within(lag: nat, skew: nat, rest: nat, restarts: bool) {
    !restarts && lag + skew + 30_000 < 120_000 && lag + skew + 30_000 < rest
  }

  lemma LiveIsAccepted(w: World, h: Header)
    requires Inv(w) && Lives(w, h) && Within(w.lag, w.skew, w.rest, w.restarts)
    ensures Accepts(w, h)
  {
    assert HeaderInv(w, h);
    var list := AcceptList(w.ring, w.previous, w.previousUntil, w.now);
    assert w.ring.current in list;
    if w.own > 1 {
      assert w.hist[w.own - 1].at + w.lag < h.at;
    }
    if h.pos + 1 == w.own {
      assert w.previous in list;
    }
  }

  /** In every run of managers that lag and differ so and an agent that rests so, every header is taken for all its life. */
  ghost predicate AlwaysAccepted(lag: nat, skew: nat, rest: nat, restarts: bool) {
    forall w0, steps, h ::
      Init(w0) && With(w0, lag, skew, rest, restarts) && Runs(w0, steps) && Lives(After(w0, steps), h)
      ==> Accepts(After(w0, steps), h)
  }

  // --- Runs that lose a key too early ---

  lemma {:induction false} OneMore(w: World, steps: seq<Step>, s: Step)
    requires Runs(w, steps) && Enabled(After(w, steps), s)
    ensures Runs(w, steps + [s]) && After(w, steps + [s]) == Do(After(w, steps), s)
    decreases |steps|
  {
    if steps == [] {
      assert [] + [s] == [s];
      assert Runs(Do(w, s), []);
    } else {
      OneMore(Do(w, steps[0]), steps[1..], s);
      assert (steps + [s])[1..] == steps[1..] + [s];
    }
  }

  ghost predicate Reaches(w0: World, w: World) {
    exists steps :: Runs(w0, steps) && After(w0, steps) == w
  }

  lemma Next(w0: World, w: World, s: Step, w': World)
    requires Reaches(w0, w) && Enabled(w, s) && Do(w, s) == w'
    ensures Reaches(w0, w')
  {
    var steps :| Runs(w0, steps) && After(w0, steps) == w;
    OneMore(w0, steps, s);
  }

  function Fresh(lag: nat, skew: nat, rest: nat, restarts: bool): World {
    World(lag, skew, rest, restarts, [Entry("a", 0)], 0, KeyRing("a", FRESH_STATE), 0, "", 0, {})
  }

  // The agent has moved from key a to b as soon as the managers did.
  function Moved(lag: nat, skew: nat, rest: nat, restarts: bool): World {
    World(lag, skew, rest, restarts, [Entry("a", 0), Entry("b", 0)], 0, KeyRing("b", KeyState(1, "", 0)), 1, "a", LEGACY_PROXY_GRACE, {})
  }

  lemma MovesOn(lag: nat, skew: nat, rest: nat, restarts: bool)
    ensures Reaches(Fresh(lag, skew, rest, restarts), Moved(lag, skew, rest, restarts))
  {
    var w := Fresh(lag, skew, rest, restarts);
    assert Runs(w, []) && After(w, []) == w;
    var w1 := w.(ring := w.ring.Taken("b", 1));
    Next(w, w, Take("b", 1), w1);
    var w2 := w1.(hist := [Entry("a", 0), Entry("b", 0)]);
    Next(w, w1, Confirm, w2);
    Next(w, w2, Switch, Moved(lag, skew, rest, restarts));
  }

  lemma SignsAt(w0: World, w: World, at: int, stamp: int)
    requires Reaches(w0, w) && |w.hist| == 2 && w.own == 1 && w.hist[1].at == 0 && w.now == 0 <= at <= w.lag && w.headers == {}
    requires w.hist[0].at == 0 && at - w.skew <= stamp <= at + w.skew
    ensures Reaches(w0, w.(now := at, headers := {Header(0, at, stamp)}))
  {
    var w1 := w.(now := at);
    Next(w0, w, Tick(at), w1);
    assert InTime(w1, 0, at);
    Next(w0, w1, Sign(0, stamp), w1.(headers := {Header(0, at, stamp)}));
  }

  lemma Refutes(lag: nat, skew: nat, rest: nat, restarts: bool, w: World, h: Header)
    requires Reaches(Fresh(lag, skew, rest, restarts), w) && Lives(w, h) && !Accepts(w, h)
    ensures !AlwaysAccepted(lag, skew, rest, restarts)
  {
    var steps :| Runs(Fresh(lag, skew, rest, restarts), steps) && After(Fresh(lag, skew, rest, restarts), steps) == w;
  }

  lemma RestartLoses(lag: nat, skew: nat, rest: nat)
    ensures !AlwaysAccepted(lag, skew, rest, true)
  {
    var w0, w := Fresh(lag, skew, rest, true), Moved(lag, skew, rest, true);
    MovesOn(lag, skew, rest, true);
    SignsAt(w0, w, 0, 0);
    var w1 := w.(headers := {Header(0, 0, 0)});
    assert w.(now := 0, headers := {Header(0, 0, 0)}) == w1;
    var w2 := w1.(previous := "");
    Next(w0, w1, Restart, w2);
    Refutes(lag, skew, rest, true, w2, Header(0, 0, 0));
  }

  lemma GraceEnds(lag: nat, skew: nat, rest: nat, restarts: bool)
    requires lag + skew + HEADER_LIFE >= LEGACY_PROXY_GRACE
    ensures !AlwaysAccepted(lag, skew, rest, restarts)
  {
    var w0, w := Fresh(lag, skew, rest, restarts), Moved(lag, skew, rest, restarts);
    MovesOn(lag, skew, rest, restarts);
    SignsAt(w0, w, lag, lag + skew);
    var w1 := w.(now := lag, headers := {Header(0, lag, lag + skew)});
    var w2 := w1.(now := lag + skew + HEADER_LIFE);
    Next(w0, w1, Tick(lag + skew + HEADER_LIFE), w2);
    Refutes(lag, skew, rest, restarts, w2, Header(0, lag, lag + skew));
  }

  lemma SecondSwitchLoses(lag: nat, skew: nat, rest: nat, restarts: bool)
    requires lag + skew + HEADER_LIFE >= rest
    ensures !AlwaysAccepted(lag, skew, rest, restarts)
  {
    var w0, w := Fresh(lag, skew, rest, restarts), Moved(lag, skew, rest, restarts);
    var at: nat := if rest <= skew + HEADER_LIFE then 0 else rest - skew - HEADER_LIFE;
    var stamp := if at + skew < rest then at + skew else rest;
    MovesOn(lag, skew, rest, restarts);
    SignsAt(w0, w, at, stamp);
    var w1 := w.(now := at, headers := {Header(0, at, stamp)});
    var w2 := w1.(ring := w1.ring.Taken("c", 2));
    Next(w0, w1, Take("c", 2), w2);
    SwitchesAt(w0, w2, at);
    var w3 := w2.(now := rest, hist := w2.hist + [Entry("c", rest)], ring := w2.ring.Switched(), own := 2, previous := "b",
                  previousUntil := rest + LEGACY_PROXY_GRACE);
    Refutes(lag, skew, rest, restarts, w3, Header(0, at, stamp));
  }

  lemma SwitchesAt(w0: World, w: World, at: int)
    requires Reaches(w0, w) && w.now == at <= w.rest && w.own == 1 && |w.hist| == 2 && w.hist[1].at == 0
    requires w.ring == KeyRing("b", KeyState(1, "c", 2))
    ensures Reaches(w0, w.(now := w.rest, hist := w.hist + [Entry("c", w.rest)], ring := w.ring.Switched(), own := 2,
                           previous := "b", previousUntil := w.rest + LEGACY_PROXY_GRACE))
  {
    var w1 := w.(now := w.rest);
    Next(w0, w, Tick(w.rest), w1);
    var w2 := w1.(hist := w1.hist + [Entry("c", w.rest)]);
    Next(w0, w1, Confirm, w2);
    Next(w0, w2, Switch, w2.(ring := w.ring.Switched(), own := 2, previous := "b", previousUntil := w.rest + LEGACY_PROXY_GRACE));
  }

  /**
   Exactly when the managers' lag and skew and a header's 30 seconds are within the two-minute grace, and within
   the time from each confirm to the switch away from its key, and the agent does not restart, does it
   take every header a manager signs, for all its life: there is one key left to remember.
   */
  lemma KeyLeftIff(lag: nat, skew: nat, rest: nat, restarts: bool)
    ensures AlwaysAccepted(lag, skew, rest, restarts) <==> Within(lag, skew, rest, restarts)
  {
    if Within(lag, skew, rest, restarts) {
      forall w0, steps, h
        | Init(w0) && With(w0, lag, skew, rest, restarts) && Runs(w0, steps) && Lives(After(w0, steps), h)
        ensures Accepts(After(w0, steps), h)
      {
        RunKeeps(w0, steps);
        LiveIsAccepted(After(w0, steps), h);
      }
    } else if restarts {
      RestartLoses(lag, skew, rest);
    } else if lag + skew + HEADER_LIFE >= LEGACY_PROXY_GRACE {
      GraceEnds(lag, skew, rest, restarts);
    } else {
      SecondSwitchLoses(lag, skew, rest, restarts);
    }
  }
}
