/**
 How long the grace must be, exactly: the first switch's time is written in whole seconds, so up to
 one of the grace is lost.
 */
module ProxyBound {
  import opened Options
  import opened ProxyKeys
  import opened ProxyWorld
  import opened ProxyTheorems

  ghost predicate Reaches(w0: World, w: World) {
    exists steps :: Runs(w0, steps) && After(w0, steps) == w
  }

  lemma {:induction false} OneMore(w: World, steps: seq<Step>, s: Step)
    requires Runs(w, steps) && Enabled(After(w, steps), s)
    ensures Runs(w, steps + [s]) && After(w, steps + [s]) == Do(After(w, steps), s)
    decreases |steps|
  {
    if steps == [] {
      assert [] + [s] == [s];
      assert Runs(Do(w, s), []);
    } else {
      OneMore(Do(w, steps[0]), steps[1..], s);
      assert (steps + [s])[1..] == steps[1..] + [s];
    }
  }

  lemma Next(w0: World, w: World, s: Step, w': World)
    requires Reaches(w0, w) && Enabled(w, s) && Do(w, s) == w'
    ensures Reaches(w0, w')
  {
    var steps :| Runs(w0, steps) && After(w0, steps) == w;
    OneMore(w0, steps, s);
  }

  const A := "a"
  const B := "b"
  const SEEDED := Config("r", None, false, None)
  const SWITCHED := Config("r", Some(60_000), false, None)
  const SWITCH_AT := 60_999

  function Cluster(lag: nat, skew: nat): World {
    World("l", lag, skew, [Entry(EMPTY, 0)], 0, map[A := Mgr(0, 0), B := Mgr(0, 0)], {}, {})
  }

  function SeededWorld(lag: nat, skew: nat): World {
    Cluster(lag, skew).(hist := [Entry(EMPTY, 0), Entry(SEEDED, 0)], now := SWITCH_AT,
                        nodes := map[A := Mgr(1, 0), B := Mgr(1, 0)], reports := {Report(B, 1)})
  }

  lemma Seeds(lag: nat, skew: nat)
    ensures Reaches(Cluster(lag, skew), Cluster(lag, skew).(hist := SeededWorld(lag, skew).hist))
  {
    var w := Cluster(lag, skew);
    assert Runs(w, []) && After(w, []) == w;
    Next(w, w, Lead(Seed("r")), w.(hist := SeededWorld(lag, skew).hist));
  }

  lemma BothAreSeeded(lag: nat, skew: nat)
    ensures Reaches(Cluster(lag, skew), SeededWorld(lag, skew))
  {
    Seeds(lag, skew);
    var w0 := Cluster(lag, skew);
    var w1 := w0.(hist := SeededWorld(lag, skew).hist);
    var w2 := w1.(nodes := w1.nodes[A := Mgr(1, 0)]);
    Next(w0, w1, Install(A, 1, 0), w2);
    var w3 := w2.(nodes := w2.nodes[B := Mgr(1, 0)]);
    Next(w0, w2, Install(B, 1, 0), w3);
    SeededIsSaid(w3);
  }

  lemma SeededIsSaid(w: World)
    requires w == SeededWorld(w.lag, w.skew).(now := 0, reports := {}) && Reaches(Cluster(w.lag, w.skew), w)
    ensures Reaches(Cluster(w.lag, w.skew), SeededWorld(w.lag, w.skew))
  {
    var w0, w1 := Cluster(w.lag, w.skew), w.(reports := {Report(B, 1)});
    Next(w0, w, Say(B), w1);
    Next(w0, w1, Tick(SWITCH_AT), SeededWorld(w.lag, w.skew));
  }

  // a has switched, and b has signed as late as it may before it does.
  function SignedWorld(lag: nat, skew: nat): World {
    var w := SeededWorld(lag, skew);
    w.(hist := w.hist + [Entry(SWITCHED, SWITCH_AT)], now := SWITCH_AT + lag,
       nodes := map[A := Mgr(2, SWITCH_AT), B := Mgr(2, SWITCH_AT + lag)], headers := {LateHeader(lag)})
  }

  function LateHeader(lag: nat): Header { Header(1, "l", SWITCH_AT + lag) }

  lemma LastIsSwitched(lag: nat, skew: nat)
    ensures var w := SeededWorld(lag, skew);
            Enabled(w, Lead(Rotate(A, 0, SWITCH_AT))) && Written(w.Last(), Rotate(A, 0, SWITCH_AT)) == SWITCHED
  {
    var w := SeededWorld(lag, skew);
    assert Heard(w, A, A, 1) && Heard(w, A, B, 1) && w.hist[1].config == SEEDED;
    assert TakesReplicated(w, A, A) && TakesReplicated(w, A, B);
    assert w.hist[1].at <= 0;
  }

  function RotatedWorld(lag: nat, skew: nat): World {
    var w := SeededWorld(lag, skew);
    w.(hist := w.hist + [Entry(SWITCHED, SWITCH_AT)])
  }

  lemma Rotates(lag: nat, skew: nat)
    ensures Reaches(Cluster(lag, skew), RotatedWorld(lag, skew))
  {
    BothAreSeeded(lag, skew);
    LastIsSwitched(lag, skew);
    Next(Cluster(lag, skew), SeededWorld(lag, skew), Lead(Rotate(A, 0, SWITCH_AT)), RotatedWorld(lag, skew));
  }

  lemma BehindIsInTime(lag: nat, skew: nat)
    ensures InTime(RotatedWorld(lag, skew).hist, lag, 1, SWITCH_AT + lag)
    ensures InTime(RotatedWorld(lag, skew).hist, lag, 2, SWITCH_AT + lag)
  {
  }

  lemma SignsLate(lag: nat, skew: nat)
    ensures Reaches(Cluster(lag, skew), SignedWorld(lag, skew))
  {
    Rotates(lag, skew);
    BehindIsInTime(lag, skew);
    var w0, w1 := Cluster(lag, skew), RotatedWorld(lag, skew);
    var w2 := w1.(nodes := w1.nodes[A := Mgr(2, SWITCH_AT)]);
    Next(w0, w1, Install(A, 2, SWITCH_AT), w2);
    var w3 := w2.(now := SWITCH_AT + lag);
    Next(w0, w2, Tick(SWITCH_AT + lag), w3);
    SignsThen(w3);
  }

  lemma SignsThen(w: World)
    requires Reaches(Cluster(w.lag, w.skew), w)
    requires w == RotatedWorld(w.lag, w.skew).(now := SWITCH_AT + w.lag, nodes := map[A := Mgr(2, SWITCH_AT), B := Mgr(1, 0)])
    ensures Reaches(Cluster(w.lag, w.skew), SignedWorld(w.lag, w.skew))
  {
    var w0 := Cluster(w.lag, w.skew);
    assert w.hist[1].config == SEEDED;
    var w1 := w.(headers := {LateHeader(w.lag)});
    Next(w0, w, SignOne(B), w1);
    var w2 := w1.(nodes := w1.nodes[B := Mgr(2, SWITCH_AT + w.lag)]);
    Next(w0, w1, Install(B, 2, SWITCH_AT + w.lag), w2);
    assert w2 == SignedWorld(w.lag, w.skew);
  }

  function LateWorld(lag: nat, skew: nat): World {
    var w, end := SignedWorld(lag, skew), SWITCH_AT + lag + HEADER_LIFE;
    w.(now := end, nodes := map[A := Mgr(2, end + skew), B := Mgr(2, SWITCH_AT + lag)])
  }

  lemma AsksLate(lag: nat, skew: nat)
    ensures Reaches(Cluster(lag, skew), LateWorld(lag, skew))
  {
    SignsLate(lag, skew);
    var w := SignedWorld(lag, skew);
    var w1 := w.(now := w.now + HEADER_LIFE);
    BothInTime(w, w1.now);
    Next(Cluster(lag, skew), w, Tick(w1.now), w1);
    AsksThen(w1);
  }

  lemma BothInTime(w: World, now: int)
    requires w == SignedWorld(w.lag, w.skew)
    ensures forall id :: id in w.nodes ==> InTime(w.hist, w.lag, w.nodes[id].pos, now)
  {
  }

  lemma AsksThen(w: World)
    requires w == SignedWorld(w.lag, w.skew).(now := SWITCH_AT + w.lag + HEADER_LIFE) && Reaches(Cluster(w.lag, w.skew), w)
    ensures Reaches(Cluster(w.lag, w.skew), LateWorld(w.lag, w.skew))
  {
    var w1 := w.(nodes := w.nodes[A := Mgr(2, w.now + w.skew)]);
    Next(Cluster(w.lag, w.skew), w, Install(A, 2, w.now + w.skew), w1);
    assert w1 == LateWorld(w.lag, w.skew);
  }

  /** In every run of a cluster with that lag and skew, every header is accepted for all its life. */
  ghost predicate AlwaysAccepted(lag: nat, skew: nat) {
    forall w0, steps, h, id ::
      Init(w0) && w0.lag == lag && w0.skew == skew && Runs(w0, steps) && Lives(After(w0, steps), h, id) ==>
        AcceptedBy(After(w0, steps), h, id)
  }

  ghost predicate Lives(w: World, h: Header, id: string) {
    h in w.headers && id in w.nodes && w.now <= h.at + HEADER_LIFE && h.pos < |w.hist| && w.nodes[id].pos < |w.hist|
  }

  lemma {:induction false} LagStays(w: World, steps: seq<Step>)
    requires Runs(w, steps)
    ensures After(w, steps).lag == w.lag && After(w, steps).skew == w.skew
    decreases |steps|
  {
    if steps != [] {
      LagStays(Do(w, steps[0]), steps[1..]);
    }
  }

  /**
   Exactly when lag, skew, the header's 30 seconds and a lost 999 milliseconds are within the grace
   is every header accepted in every run. Without the loss the first switch would take 120 seconds
   as the later ones do.
   */
  lemma BoundIsExact(lag: nat, skew: nat)
    ensures AlwaysAccepted(lag, skew) <==> lag + skew + 30_000 + 999 < 120_000
  {
    if lag + skew + HEADER_LIFE + SECOND - 1 < LEGACY_PROXY_GRACE {
      forall w0, steps, h, id
        | Init(w0) && w0.lag == lag && w0.skew == skew && Runs(w0, steps) && Lives(After(w0, steps), h, id)
        ensures AcceptedBy(After(w0, steps), h, id)
      {
        LagStays(w0, steps);
        HeadersAreAccepted(w0, steps, h, id);
      }
    } else {
      AsksLate(lag, skew);
      var w0 := Cluster(lag, skew);
      var steps :| Runs(w0, steps) && After(w0, steps) == LateWorld(lag, skew);
      LateIsRefused(lag, skew);
      assert Lives(After(w0, steps), LateHeader(lag), A);
    }
  }

  lemma LateIsRefused(lag: nat, skew: nat)
    requires lag + skew + HEADER_LIFE + SECOND - 1 >= LEGACY_PROXY_GRACE
    ensures Lives(LateWorld(lag, skew), LateHeader(lag), A) && !AcceptedBy(LateWorld(lag, skew), LateHeader(lag), A)
  {
    var w := LateWorld(lag, skew);
    assert w.hist[2].config == SWITCHED;
    assert Installed("l", SWITCHED, w.nodes[A].asOf).accept == ["r"];
  }
}
