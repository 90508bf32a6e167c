/** Which manager a leader hands its role to, and what a probe of the agents says (internal/cluster/reach.go). */
module Reach {
  import opened Options

  const PREFER_AFTER_ELECTION := 30_000
  const PREFER_COOLDOWN := 600_000
  const REACH_FRESH := 180_000

  // --- The order of names ---

  /** Whether a comes before b, character by character. */
  predicate Before(a: string, b: string) {
    if b == "" then false
    else if a == "" then true
    else a[0] < b[0] || (a[0] == b[0] && Before(a[1..], b[1..]))
  }

  lemma {:induction false} BeforeIsTotal(a: string, b: string)
    ensures a == b || Before(a, b) || Before(b, a)
    ensures !(Before(a, b) && Before(b, a)) && !Before(a, a)
  {
    if a != "" && b != "" {
      BeforeIsTotal(a[1..], b[1..]);
      BeforeIsTotal(a[1..], a[1..]);
      if a[0] == b[0] && a[1..] == b[1..] {
        assert a == [a[0]] + a[1..] && b == [b[0]] + b[1..];
      }
    } else if a != "" {
      BeforeIsTotal(a[1..], a[1..]);
    }
  }

  /** It is the order of a dictionary: the first character in which they differ decides, and a beginning comes first. */
  lemma {:induction false} BeforeIsDictionary(a: string, b: string)
    ensures Before(a, b) <==>
              exists k: nat :: k <= |a| && k < |b| && a[..k] == b[..k] && (k == |a| || a[k] < b[k])
  {
    if Before(a, b) {
      var k := DiffersAt(a, b);
    } else if k: nat :| k <= |a| && k < |b| && a[..k] == b[..k] && (k == |a| || a[k] < b[k]) {
      DiffersIsBefore(a, b, k);
    }
  }

  lemma {:induction false} DiffersAt(a: string, b: string) returns (k: nat)
    requires Before(a, b)
    ensures k <= |a| && k < |b| && a[..k] == b[..k] && (k == |a| || a[k] < b[k])
    decreases |a|
  {
    if a == "" || a[0] < b[0] {
      k := 0;
    } else {
      k := DiffersAt(a[1..], b[1..]);
      assert a[..k + 1] == [a[0]] + a[1..][..k] && b[..k + 1] == [b[0]] + b[1..][..k];
      k := k + 1;
    }
  }

  lemma {:induction false} DiffersIsBefore(a: string, b: string, k: nat)
    requires k <= |a| && k < |b| && a[..k] == b[..k] && (k == |a| || a[k] < b[k])
    ensures Before(a, b)
    decreases k
  {
    if k > 0 {
      assert a[..k][0] == b[..k][0] && a[1..][..k - 1] == a[..k][1..] && b[1..][..k - 1] == b[..k][1..];
      DiffersIsBefore(a[1..], b[1..], k - 1);
    }
  }

  lemma {:induction false} BeforeIsTransitive(a: string, b: string, c: string)
    requires Before(a, b) && Before(b, c)
    ensures Before(a, c)
  {
    if a != "" && b[0] == a[0] && c[0] == b[0] {
      BeforeIsTransitive(a[1..], b[1..], c[1..]);
    }
  }

  // --- The choice ---

  /** What a leader decides on. A manager whose reach is unknown is not in reach. */
  datatype PreferInput = PreferInput(
    self: string, now: int, leaderSince: int, lastTransfer: Option<int>, hold: string,
    agents: seq<string>, reach: map<string, seq<string>>, candidates: seq<string>, names: map<string, string>)

  datatype Reason = Held | JustElected | TransferredRecently | OwnReachUnknown | ReachesEveryAgent | NoneReachesMore | Reaches(n: nat)

  /** How many of the cluster's agents a manager reaches, each once, whatever its report holds. */
  function Count(agents: seq<string>, reached: seq<string>): (n: nat)
    ensures n <= |agents|
  {
    if agents == [] then 0 else (if agents[0] in reached then 1 else 0) + Count(agents[1..], reached)
  }

  /** The agents listed, each once, that are among those reached. */
  lemma {:induction false} CountIs(agents: seq<string>, reached: seq<string>)
    requires forall i, j :: 0 <= i < j < |agents| ==> agents[i] != agents[j]
    ensures Count(agents, reached) == |set a | a in agents && a in reached|
  {
    var all := set a | a in agents && a in reached;
    if agents == [] {
      assert all == {};
    } else {
      var rest := set a | a in agents[1..] && a in reached;
      CountIs(agents[1..], reached);
      assert agents[0] !in rest;
      assert all == if agents[0] in reached then rest + {agents[0]} else rest;
    }
  }

  function Score(p: PreferInput, id: string): nat
    requires id in p.reach
  {
    Count(p.agents, p.reach[id])
  }

  function NameOf(p: PreferInput, id: string): string {
    if id in p.names && p.names[id] != "" then p.names[id] else id
  }

  /** The gates before any candidate is looked at; None passes them all. */
  function Stays(p: PreferInput): Option<Reason> {
    if p.hold != "" then Some(Held)
    else if p.now - p.leaderSince < PREFER_AFTER_ELECTION then Some(JustElected)
    else if p.lastTransfer.Some? && p.now - p.lastTransfer.value < PREFER_COOLDOWN then Some(TransferredRecently)
    else if p.self !in p.reach then Some(OwnReachUnknown)
    else if p.agents == [] || Score(p, p.self) == |p.agents| then Some(ReachesEveryAgent)
    else None
  }

  predicate Eligible(p: PreferInput, id: string)
    requires p.self in p.reach
  {
    id in p.candidates && id != p.self && id in p.reach && Score(p, id) > Score(p, p.self)
  }

  /** a is to be preferred to b: it reaches more agents, or as many and comes first by name, then by ID. */
  predicate Better(p: PreferInput, a: string, b: string)
    requires a in p.reach && b in p.reach
  {
    Score(p, a) > Score(p, b)
    || (Score(p, a) == Score(p, b)
        && (Before(NameOf(p, a), NameOf(p, b)) || (NameOf(p, a) == NameOf(p, b) && Before(a, b))))
  }

  /** t is preferred to every other manager the leader may hand over to. */
  predicate IsBest(p: PreferInput, t: string)
    requires p.self in p.reach
  {
    Eligible(p, t) && forall id :: id in p.candidates && Eligible(p, id) && id != t ==> Better(p, t, id)
  }

  lemma BetterIsOrder(p: PreferInput, a: string, b: string, c: string)
    requires a in p.reach && b in p.reach && c in p.reach
    ensures a != b ==> Better(p, a, b) != Better(p, b, a)
    ensures !Better(p, a, a)
    ensures Better(p, a, b) && Better(p, b, c) ==> Better(p, a, c)
  {
    BeforeIsTotal(a, b);
    BeforeIsTotal(a, a);
    BeforeIsTotal(NameOf(p, a), NameOf(p, b));
    BeforeIsTotal(NameOf(p, a), NameOf(p, a));
    if Better(p, a, b) && Better(p, b, c) {
      if Before(NameOf(p, a), NameOf(p, b)) && Before(NameOf(p, b), NameOf(p, c)) {
        BeforeIsTransitive(NameOf(p, a), NameOf(p, b), NameOf(p, c));
      }
      if Before(a, b) && Before(b, c) {
        BeforeIsTransitive(a, b, c);
      }
    }
  }

  /** A manager may be handed the role: nothing holds it, the leader and the last hand-over are old enough, and its own reach is short. */
  predicate MayMove(p: PreferInput) {
    && p.hold == "" && p.now >= p.leaderSince + 30_000 && (p.lastTransfer.Some? ==> p.now >= p.lastTransfer.value + 600_000)
    && p.self in p.reach && Count(p.agents, p.reach[p.self]) < |p.agents|
  }

  lemma StaysIff(p: PreferInput)
    ensures Stays(p) == None <==> MayMove(p)
    ensures p.hold != "" ==> Stays(p) == Some(Held)
    ensures p.hold == "" && p.now < p.leaderSince + 30_000 ==> Stays(p) == Some(JustElected)
    ensures Stays(p) == Some(OwnReachUnknown) ==> p.self !in p.reach
    ensures Stays(p) == Some(ReachesEveryAgent) ==> p.self in p.reach && Count(p.agents, p.reach[p.self]) == |p.agents|
    ensures Stays(p) == Some(TransferredRecently) ==> p.lastTransfer.Some? && p.now < p.lastTransfer.value + 600_000
  {
  }

  /** The one chosen reaches no fewer agents than any other candidate, and of those that reach as many comes first by name, then ID. */
  lemma BestReachesMost(p: PreferInput, t: string, id: string)
    requires p.self in p.reach && IsBest(p, t) && id in p.candidates && id != p.self && id != t && id in p.reach
    ensures t in p.reach && Count(p.agents, p.reach[t]) >= Count(p.agents, p.reach[id])
    ensures Count(p.agents, p.reach[t]) == Count(p.agents, p.reach[id]) ==>
              var a, b := if t in p.names && p.names[t] != "" then p.names[t] else t, if id in p.names && p.names[id] != "" then p.names[id] else id;
              Before(a, b) || (a == b && Before(t, id))
  {
  }

  /** The choice goes by the candidates there are, not by the order they are listed in. */
  lemma BestIsOne(p: PreferInput, candidates: seq<string>, t: string, t': string)
    requires p.self in p.reach && (forall id :: id in p.candidates <==> id in candidates)
    requires IsBest(p, t) && IsBest(p.(candidates := candidates), t')
    ensures t == t'
  {
    var q := p.(candidates := candidates);
    assert Eligible(p, t') && Eligible(q, t);
    if t != t' {
      assert Better(p, t, t') && Better(q, t', t);
      BetterIsOrder(p, t, t', t);
    }
  }

  /** The manager to hand the role to, "" with none, and why. */
  method ChoosePreferredLeader(p: PreferInput) returns (target: string, reason: Reason)
    requires "" !in p.candidates
    ensures Stays(p).Some? ==> target == "" && reason == Stays(p).value
    ensures target != "" ==>
              && p.hold == "" && p.now - p.leaderSince >= 30_000 && (p.lastTransfer.Some? ==> p.now - p.lastTransfer.value >= 600_000)
              && target in p.candidates && target != p.self && p.self in p.reach && target in p.reach
              && Count(p.agents, p.reach[target]) > Count(p.agents, p.reach[p.self])
    ensures Stays(p) == None ==>
              if target == "" then reason == NoneReachesMore && forall id :: id in p.candidates ==> !Eligible(p, id)
              else IsBest(p, target) && reason == Reaches(Score(p, target))
  {
    if p.hold != "" {
      return "", Held;
    }
    if p.now - p.leaderSince < PREFER_AFTER_ELECTION {
      return "", JustElected;
    }
    if p.lastTransfer.Some? && p.now - p.lastTransfer.value < PREFER_COOLDOWN {
      return "", TransferredRecently;
    }
    if p.self !in p.reach {
      return "", OwnReachUnknown;
    }
    var own := CountReached(p.agents, p.reach[p.self]);
    if |p.agents| == 0 || own == |p.agents| {
      return "", ReachesEveryAgent;
    }
    var best, bestN := "", 0;
    for i := 0 to |p.candidates|
      invariant best == "" ==> forall j :: 0 <= j < i ==> !Eligible(p, p.candidates[j])
      invariant best != "" ==> Eligible(p, best) && bestN == Score(p, best)
      invariant best != "" ==>
                  forall j :: 0 <= j < i && Eligible(p, p.candidates[j]) && p.candidates[j] != best ==> Better(p, best, p.candidates[j])
    {
      var id := p.candidates[i];
      if id == p.self || id !in p.reach {
        continue;
      }
      var n := CountReached(p.agents, p.reach[id]);
      if n <= own {
        continue;
      }
      ghost var was := best;
      if best == "" || n > bestN
         || (n == bestN && (Before(NameOf(p, id), NameOf(p, best)) || (NameOf(p, id) == NameOf(p, best) && Before(id, best)))) {
        best, bestN := id, n;
      }
      if was != "" {
        BetterIsOrder(p, was, id, was);
        forall j | 0 <= j < i && Eligible(p, p.candidates[j]) && p.candidates[j] != best
          ensures Better(p, best, p.candidates[j])
        {
          BetterIsOrder(p, best, was, p.candidates[j]);
        }
      }
    }
    if best == "" {
      return "", NoneReachesMore;
    }
    return best, Reaches(bestN);
  }

  method CountReached(agents: seq<string>, reached: seq<string>) returns (n: nat)
    ensures n == Count(agents, reached)
  {
    n := 0;
    for i := 0 to |agents|
      invariant n + Count(agents[i..], reached) == Count(agents, reached)
    {
      if agents[i] in reached {
        n := n + 1;
      }
    }
  }

  /** The manager chosen, leading on the same facts, hands the role to nobody: it does not come back. */
  lemma NoHandBack(p: PreferInput, t: string, q: PreferInput)
    requires p.self in p.reach && IsBest(p, t)
    requires q.self == t && q.agents == p.agents && q.reach == p.reach
    requires forall id :: id in q.candidates ==> id in p.candidates || id == p.self
    ensures forall id :: id in q.candidates ==> !Eligible(q, id)
  {
    forall id | id in q.candidates ensures !Eligible(q, id) {
      if id != t && id in p.candidates && Eligible(p, id) {
        assert Better(p, t, id);
      }
    }
  }

  // --- A probe ---

  /** A probe of the agents, when it ended, and which it reached of those it tried. */
  datatype ReachResult = ReachResult(agents: map<string, bool>, at: int)

  predicate FreshAt(r: Option<ReachResult>, now: int) {
    r.Some? && now - r.value.at <= REACH_FRESH
  }

  predicate UnreachedBy(r: Option<ReachResult>, id: string, now: int) {
    FreshAt(r, now) && id in r.value.agents && !r.value.agents[id]
  }

  predicate Sorted(s: seq<string>) {
    forall i, j :: 0 <= i < j < |s| ==> Before(s[i], s[j])
  }

  // sort.Strings, one more at a time.
  method Insert(s: seq<string>, id: string) returns (t: seq<string>)
    requires Sorted(s) && id !in s
    ensures Sorted(t) && forall x :: x in t <==> x == id || x in s
  {
    var k := 0;
    while k < |s| && Before(s[k], id)
      invariant k <= |s| && forall i :: 0 <= i < k ==> Before(s[i], id)
    {
      k := k + 1;
    }
    if k < |s| {
      BeforeIsTotal(s[k], id);
      forall i | k <= i < |s| ensures Before(id, s[i]) {
        if i > k { BeforeIsTransitive(id, s[k], s[i]); }
      }
    }
    t := s[..k] + [id] + s[k..];
    assert s == s[..k] + s[k..];
  }

  /** The agents a fresh probe reached, sorted; None, and not the empty list, with no fresh one. */
  method ReachedBy(r: Option<ReachResult>, now: int) returns (out: Option<seq<string>>)
    ensures out.Some? <==> r.Some? && now - r.value.at <= 180_000
    ensures out.Some? ==> Sorted(out.value) && forall id :: id in out.value <==> id in r.value.agents && r.value.agents[id]
    ensures forall id :: UnreachedBy(r, id, now) <==> out.Some? && id in r.value.agents && id !in out.value
  {
    if r == None || now - r.value.at > REACH_FRESH {
      return None;
    }
    var reached: seq<string> := [];
    var left := r.value.agents.Keys;
    while left != {}
      invariant left <= r.value.agents.Keys && Sorted(reached)
      invariant forall id :: id in reached <==> id in r.value.agents && id !in left && r.value.agents[id]
      decreases left
    {
      var id :| id in left;
      left := left - {id};
      if r.value.agents[id] {
        reached := Insert(reached, id);
      }
    }
    return Some(reached);
  }
}
