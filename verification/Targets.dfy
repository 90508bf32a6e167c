/** Where an agent dials its managers, in which order (internal/cluster/agent_link.go). */
module Targets {
  import opened Options

  /** A manager as the agent lists it; port is its gRPC address's, when that splits into host and port. */
  datatype ManagerRef = ManagerRef(id: string, grpcAddress: string, port: Option<string>, addresses: seq<string>)

  /** tailscale holds the addresses, with a port or without, in Tailscale's range. */
  datatype AgentState = AgentState(managers: seq<ManagerRef>, leader: string, reached: map<string, string>, tailscale: set<string>)

  function JoinHostPort(host: string, port: string): string {
    if ':' in host then "[" + host + "]:" + port else host + ":" + port
  }

  predicate SameNetwork(tailscale: set<string>, own: string, a: string) {
    (a in tailscale) == (own in tailscale)
  }

  predicate NoDuplicates(s: seq<string>) {
    forall i, j :: 0 <= i < j < |s| ==> s[i] != s[j]
  }

  // --- One manager ---

  /** Those of ips on own's network, or those not on it, in their order. */
  function OnNetwork(tailscale: set<string>, own: string, ips: seq<string>, same: bool): seq<string> {
    if ips == [] then [] else
    (if SameNetwork(tailscale, own, ips[0]) == same then [ips[0]] else []) + OnNetwork(tailscale, own, ips[1..], same)
  }

  function Ranked(tailscale: set<string>, own: string, ips: seq<string>): seq<string> {
    OnNetwork(tailscale, own, ips, true) + OnNetwork(tailscale, own, ips, false)
  }

  /** Ranking loses none and adds none, and each group keeps the order given. */
  lemma {:induction false} RankedPermutes(tailscale: set<string>, own: string, ips: seq<string>)
    ensures multiset(Ranked(tailscale, own, ips)) == multiset(ips)
  {
    if ips != [] {
      RankedPermutes(tailscale, own, ips[1..]);
      assert ips == [ips[0]] + ips[1..];
    }
  }

  lemma {:induction false} OnNetworkGrows(tailscale: set<string>, own: string, ips: seq<string>, a: string, same: bool)
    ensures OnNetwork(tailscale, own, ips + [a], same)
            == OnNetwork(tailscale, own, ips, same) + (if SameNetwork(tailscale, own, a) == same then [a] else [])
  {
    if ips != [] {
      OnNetworkGrows(tailscale, own, ips[1..], a, same);
      assert (ips + [a])[1..] == ips[1..] + [a];
    }
  }

  lemma OnNetworkNext(tailscale: set<string>, own: string, ips: seq<string>, i: nat, same: bool)
    requires i < |ips|
    ensures OnNetwork(tailscale, own, ips[..i + 1], same)
            == OnNetwork(tailscale, own, ips[..i], same) + (if SameNetwork(tailscale, own, ips[i]) == same then [ips[i]] else [])
  {
    OnNetworkGrows(tailscale, own, ips[..i], ips[i], same);
    assert ips[..i] + [ips[i]] == ips[..i + 1];
  }

  method RankAddresses(tailscale: set<string>, own: string, ips: seq<string>) returns (out: seq<string>)
    ensures out == Ranked(tailscale, own, ips)
  {
    out := [];
    for i := 0 to |ips|
      invariant out == OnNetwork(tailscale, own, ips[..i], true)
    {
      OnNetworkNext(tailscale, own, ips, i, true);
      if SameNetwork(tailscale, own, ips[i]) {
        out := out + [ips[i]];
      }
    }
    assert ips[..|ips|] == ips;
    ghost var near := out;
    for i := 0 to |ips|
      invariant out == near + OnNetwork(tailscale, own, ips[..i], false)
    {
      OnNetworkNext(tailscale, own, ips, i, false);
      if !SameNetwork(tailscale, own, ips[i]) {
        out := out + [ips[i]];
      }
    }
  }

  /** The addresses at the port, each once, then grpc unless it is one of them. */
  function Dialable(ranked: seq<string>, port: string): (out: seq<string>)
    ensures NoDuplicates(out)
    ensures forall t :: t in out <==> exists a :: a in ranked && JoinHostPort(a, port) == t
  {
    if ranked == [] then [] else
    var out := Dialable(ranked[..|ranked| - 1], port);
    var t := JoinHostPort(ranked[|ranked| - 1], port);
    assert ranked == ranked[..|ranked| - 1] + [ranked[|ranked| - 1]];
    if t in out then out else out + [t]
  }

  /** slices.Index, where x is there: its first place. */
  function IndexOf(s: seq<string>, x: string): (k: nat)
    requires x in s
    ensures k < |s| && s[k] == x && x !in s[..k]
  {
    if s[0] == x then 0 else
    var k := IndexOf(s[1..], x);
    assert s[..k + 1] == [s[0]] + s[1..][..k];
    k + 1
  }

  /** The k-th brought to the front, the others in their order. */
  function ToFront(s: seq<string>, k: nat): seq<string>
    requires k < |s|
  {
    [s[k]] + s[..k] + s[k + 1..]
  }

  lemma ToFrontKeeps(s: seq<string>, k: nat)
    requires k < |s| && NoDuplicates(s)
    ensures NoDuplicates(ToFront(s, k)) && forall t :: t in ToFront(s, k) <==> t in s
  {
    var r := ToFront(s, k);
    forall i, j | 0 <= i < j < |r| ensures r[i] != r[j] {
      var x := if i == 0 then k else if i <= k then i - 1 else i;
      var y := if j <= k then j - 1 else j;
      assert r[i] == s[x] && r[j] == s[y] && x != y;
    }
    forall t | t in s ensures t in r {
      var i :| 0 <= i < |s| && s[i] == t;
      assert r[if i == k then 0 else if i < k then i + 1 else i] == t;
    }
  }

  predicate HasTargets(ref: ManagerRef) {
    ref.grpcAddress != "" && ref.port.Some? && ref.addresses != []
  }

  /** Every target of a manager, whatever their order. */
  ghost predicate IsTarget(ref: ManagerRef, t: string) {
    && ref.grpcAddress != ""
    && (t == ref.grpcAddress || (HasTargets(ref) && exists a :: a in ref.addresses && JoinHostPort(a, ref.port.value) == t))
  }

  function Listed(s: AgentState, ref: ManagerRef, own: string): seq<string>
    requires HasTargets(ref)
  {
    var out := Dialable(Ranked(s.tailscale, own, ref.addresses), ref.port.value);
    if ref.grpcAddress in out then out else out + [ref.grpcAddress]
  }

  predicate WasReached(s: AgentState, id: string, t: string) {
    t != "" && id in s.reached && s.reached[id] == t
  }

  /** targetsFor: a manager's targets, the one last reached first, then as ranked. */
  function TargetsOf(s: AgentState, ref: ManagerRef, own: string): seq<string> {
    if ref.grpcAddress == "" then []
    else if !HasTargets(ref) then [ref.grpcAddress]
    else
      var out := Listed(s, ref, own);
      if ref.id in s.reached && s.reached[ref.id] != "" && s.reached[ref.id] in out
      then ToFront(out, IndexOf(out, s.reached[ref.id])) else out
  }

  lemma RankedHasAll(tailscale: set<string>, own: string, ips: seq<string>, a: string)
    ensures a in Ranked(tailscale, own, ips) <==> a in ips
  {
    RankedPermutes(tailscale, own, ips);
    assert a in Ranked(tailscale, own, ips) <==> a in multiset(Ranked(tailscale, own, ips));
  }

  lemma ListedAreAll(s: AgentState, ref: ManagerRef, own: string)
    requires HasTargets(ref)
    ensures NoDuplicates(Listed(s, ref, own))
    ensures forall t :: t in Listed(s, ref, own) <==> IsTarget(ref, t)
  {
    var ranked, port := Ranked(s.tailscale, own, ref.addresses), ref.port.value;
    forall t ensures t in Dialable(ranked, port) <==> exists a :: a in ref.addresses && JoinHostPort(a, port) == t {
      if t in Dialable(ranked, port) {
        var a :| a in ranked && JoinHostPort(a, port) == t;
        RankedHasAll(s.tailscale, own, ref.addresses, a);
      }
      if a :| a in ref.addresses && JoinHostPort(a, port) == t {
        RankedHasAll(s.tailscale, own, ref.addresses, a);
      }
    }
  }

  /** Each target of the manager is listed, once, whatever network the agent is on; one reached before leads. */
  lemma TargetsAreAll(s: AgentState, ref: ManagerRef, own: string)
    ensures NoDuplicates(TargetsOf(s, ref, own))
    ensures forall t :: t in TargetsOf(s, ref, own) <==> IsTarget(ref, t)
    ensures forall t :: IsTarget(ref, t) && WasReached(s, ref.id, t) ==> TargetsOf(s, ref, own)[0] == t
  {
    if HasTargets(ref) {
      ListedAreAll(s, ref, own);
      var out := Listed(s, ref, own);
      if ref.id in s.reached && s.reached[ref.id] != "" && s.reached[ref.id] in out {
        ToFrontKeeps(out, IndexOf(out, s.reached[ref.id]));
      }
    }
  }

  method AtPort(ranked: seq<string>, port: string) returns (out: seq<string>)
    ensures out == Dialable(ranked, port)
  {
    out := [];
    for i := 0 to |ranked|
      invariant out == Dialable(ranked[..i], port)
    {
      var t := JoinHostPort(ranked[i], port);
      assert ranked[..i + 1][..i] == ranked[..i];
      if t !in out {
        out := out + [t];
      }
    }
    assert ranked[..|ranked|] == ranked;
  }

  method TargetsFor(s: AgentState, ref: ManagerRef, own: string) returns (out: seq<string>)
    ensures out == TargetsOf(s, ref, own)
  {
    if ref.grpcAddress == "" {
      return [];
    }
    if ref.port == None || |ref.addresses| == 0 {
      return [ref.grpcAddress];
    }
    var ranked := RankAddresses(s.tailscale, own, ref.addresses);
    out := AtPort(ranked, ref.port.value);
    if ref.grpcAddress !in out {
      out := out + [ref.grpcAddress];
    }
    if ref.id in s.reached && s.reached[ref.id] != "" && s.reached[ref.id] in out {
      var k := IndexOf(out, s.reached[ref.id]);
      out := [s.reached[ref.id]] + out[..k] + out[k + 1..];
    }
  }

  // --- Every manager ---

  /** A target offered, and whether it is near: on the agent's network, or where the manager offering it was last reached. */
  datatype Offer = Offer(target: string, near: bool)

  function OffersOf(s: AgentState, own: string, id: string, targets: seq<string>): (out: seq<Offer>)
    ensures |out| == |targets|
    ensures forall i :: 0 <= i < |out| ==>
              out[i] == Offer(targets[i], SameNetwork(s.tailscale, own, targets[i]) || WasReached(s, id, targets[i]))
  {
    seq(|targets|, i requires 0 <= i < |targets| =>
      Offer(targets[i], SameNetwork(s.tailscale, own, targets[i]) || WasReached(s, id, targets[i])))
  }

  function ManagersOffers(s: AgentState, own: string, managers: seq<ManagerRef>): seq<Offer> {
    if managers == [] then [] else
    var rest := managers[..|managers| - 1];
    var m := managers[|managers| - 1];
    ManagersOffers(s, own, rest) + OffersOf(s, own, m.id, TargetsOf(s, m, own))
  }

  /** The place of the manager whose gRPC address is the leader's; None when the agent lists none. */
  function LeaderIndex(managers: seq<ManagerRef>, leader: string): (k: Option<nat>)
    ensures k.Some? ==> k.value < |managers| && managers[k.value].grpcAddress == leader
    ensures k == None ==> forall m :: m in managers ==> m.grpcAddress != leader
  {
    if managers == [] then None
    else if managers[0].grpcAddress == leader then Some(0)
    else match LeaderIndex(managers[1..], leader)
         case None => None
         case Some(k) => Some(k + 1)
  }

  /** The leader's targets first, or the address a redirect chose for it, whatever its network. */
  function LeaderOffers(s: AgentState, own: string): seq<Offer> {
    match LeaderIndex(s.managers, s.leader)
    case Some(k) => OffersOf(s, own, s.managers[k].id, TargetsOf(s, s.managers[k], own))
    case None => if s.leader != "" then [Offer(s.leader, true)] else []
  }

  function Offers(s: AgentState, own: string): seq<Offer> {
    LeaderOffers(s, own) + ManagersOffers(s, own, s.managers)
  }

  // The near targets, and the others, of the offers so far.
  datatype Lists = Lists(near: seq<string>, far: seq<string>)

  function Add(l: Lists, o: Offer): Lists {
    if o.target == "" || o.target in l.near || o.target in l.far then l
    else if o.near then l.(near := l.near + [o.target])
    else l.(far := l.far + [o.target])
  }

  function AddAll(l: Lists, offers: seq<Offer>): Lists {
    if offers == [] then l else Add(AddAll(l, offers[..|offers| - 1]), offers[|offers| - 1])
  }

  const NONE := Lists([], [])

  lemma {:induction false} AddAllMore(l: Lists, a: seq<Offer>, b: seq<Offer>)
    ensures AddAll(l, a + b) == AddAll(AddAll(l, a), b)
    decreases |b|
  {
    if b == [] {
      assert a + b == a;
    } else {
      assert (a + b)[..|a + b| - 1] == a + b[..|b| - 1];
      AddAllMore(l, a, b[..|b| - 1]);
    }
  }

  method AddTargets(s: AgentState, own: string, id: string, targets: seq<string>, l: Lists) returns (r: Lists)
    ensures r == AddAll(l, OffersOf(s, own, id, targets))
  {
    r := l;
    var ts := own in s.tailscale;
    ghost var offers := OffersOf(s, own, id, targets);
    for i := 0 to |targets|
      invariant r == AddAll(l, offers[..i])
    {
      var a := targets[i];
      assert offers[..i + 1][..i] == offers[..i];
      if a == "" || a in r.near || a in r.far {
        continue;
      }
      if (a in s.tailscale) == ts || (id in s.reached && s.reached[id] == a) {
        r := r.(near := r.near + [a]);
      } else {
        r := r.(far := r.far + [a]);
      }
    }
    assert offers[..|targets|] == offers;
  }

  method AddLeader(s: AgentState, own: string) returns (l: Lists)
    ensures l == AddAll(NONE, LeaderOffers(s, own))
  {
    l := NONE;
    var k := LeaderIndex(s.managers, s.leader);
    if k.Some? {
      var targets := TargetsFor(s, s.managers[k.value], own);
      l := AddTargets(s, own, s.managers[k.value].id, targets, l);
    } else if s.leader != "" {
      l := l.(near := l.near + [s.leader]);
      assert LeaderOffers(s, own)[..0] == [];
    }
  }

  lemma ManagersNext(s: AgentState, own: string, l: Lists, i: nat)
    requires i < |s.managers|
    ensures AddAll(l, ManagersOffers(s, own, s.managers[..i + 1]))
            == AddAll(AddAll(l, ManagersOffers(s, own, s.managers[..i])),
                      OffersOf(s, own, s.managers[i].id, TargetsOf(s, s.managers[i], own)))
  {
    var m := s.managers[i];
    assert s.managers[..i + 1][..i] == s.managers[..i];
    AddAllMore(l, ManagersOffers(s, own, s.managers[..i]), OffersOf(s, own, m.id, TargetsOf(s, m, own)));
  }

  method AddManagers(s: AgentState, own: string, l0: Lists) returns (l: Lists)
    ensures l == AddAll(l0, ManagersOffers(s, own, s.managers))
  {
    l := l0;
    for i := 0 to |s.managers|
      invariant l == AddAll(l0, ManagersOffers(s, own, s.managers[..i]))
    {
      var targets := TargetsFor(s, s.managers[i], own);
      ManagersNext(s, own, l0, i);
      l := AddTargets(s, own, s.managers[i].id, targets, l);
    }
    assert s.managers[..|s.managers|] == s.managers;
  }

  /** Where to send heartbeats, in order. */
  method NextTargets(s: AgentState, own: string) returns (out: seq<string>)
    ensures out == Order(Offers(s, own))
  {
    var l := AddLeader(s, own);
    l := AddManagers(s, own, l);
    AddAllMore(NONE, LeaderOffers(s, own), ManagersOffers(s, own, s.managers));
    return l.near + l.far;
  }

  // --- What the order is ---

  function Order(offers: seq<Offer>): seq<string> {
    AddAll(NONE, offers).near + AddAll(NONE, offers).far
  }

  /** The place of a target's first offer, which decides whether it is near; |offers| with none. */
  function FirstAt(offers: seq<Offer>, t: string): (k: nat)
    ensures k <= |offers| && (k < |offers| ==> offers[k].target == t)
    ensures forall i :: 0 <= i < k ==> offers[i].target != t
  {
    if offers == [] || offers[0].target == t then 0 else 1 + FirstAt(offers[1..], t)
  }

  /** The targets of s were offered in its order, and each as near or not as said. */
  predicate InOrder(offers: seq<Offer>, s: seq<string>, near: bool) {
    && (forall i :: 0 <= i < |s| ==> s[i] != "" && FirstAt(offers, s[i]) < |offers| && offers[FirstAt(offers, s[i])].near == near)
    && (forall i, j :: 0 <= i < j < |s| ==> FirstAt(offers, s[i]) < FirstAt(offers, s[j]))
  }

  lemma FirstAtStays(offers: seq<Offer>, o: Offer, t: string)
    requires FirstAt(offers, t) < |offers|
    ensures FirstAt(offers + [o], t) == FirstAt(offers, t)
  {
    var k, all := FirstAt(offers, t), offers + [o];
    assert forall i :: 0 <= i <= k ==> all[i] == offers[i];
  }

  lemma InOrderStays(offers: seq<Offer>, o: Offer, s: seq<string>, near: bool)
    requires InOrder(offers, s, near)
    ensures InOrder(offers + [o], s, near)
  {
    forall i | 0 <= i < |s| ensures FirstAt(offers + [o], s[i]) == FirstAt(offers, s[i]) {
      FirstAtStays(offers, o, s[i]);
    }
  }

  lemma InOrderGrows(offers: seq<Offer>, o: Offer, s: seq<string>)
    requires InOrder(offers, s, o.near) && o.target != "" && forall i :: 0 <= i < |offers| ==> offers[i].target != o.target
    ensures InOrder(offers + [o], s + [o.target], o.near)
  {
    InOrderStays(offers, o, s, o.near);
    var all := offers + [o];
    assert all[|offers|] == o;
    assert FirstAt(all, o.target) == |offers|;
    forall i | 0 <= i < |s| ensures FirstAt(all, s[i]) < |offers| {
      FirstAtStays(offers, o, s[i]);
    }
  }

  predicate Holds(offers: seq<Offer>, l: Lists) {
    && InOrder(offers, l.near, true) && InOrder(offers, l.far, false)
    && forall k :: 0 <= k < |offers| && offers[k].target != "" ==> offers[k].target in l.near || offers[k].target in l.far
  }

  lemma {:induction false} ListsHold(offers: seq<Offer>)
    ensures Holds(offers, AddAll(NONE, offers))
  {
    if offers != [] {
      var rest, o := offers[..|offers| - 1], offers[|offers| - 1];
      assert offers == rest + [o];
      ListsHold(rest);
      var l := AddAll(NONE, rest);
      InOrderStays(rest, o, l.near, true);
      InOrderStays(rest, o, l.far, false);
      if o.target != "" && o.target !in l.near && o.target !in l.far {
        InOrderGrows(rest, o, if o.near then l.near else l.far);
      }
    }
  }

  /** x comes before y: near before not, and else by the first offers. */
  predicate Precedes(offers: seq<Offer>, x: string, y: string) {
    var a, b := FirstAt(offers, x), FirstAt(offers, y);
    a < |offers| && b < |offers| && if offers[a].near == offers[b].near then a < b else offers[a].near
  }

  /**
   Every target offered comes exactly once, near ones before the others, each group in the order of
   their first offers.
   */
  lemma OrderIs(offers: seq<Offer>)
    ensures forall t :: t in Order(offers) <==> t != "" && Offered(offers, t)
    ensures NoDuplicates(Order(offers))
    ensures forall i, j :: 0 <= i < j < |Order(offers)| ==> Precedes(offers, Order(offers)[i], Order(offers)[j])
  {
    ListsHold(offers);
  }

  ghost predicate AnyTarget(managers: seq<ManagerRef>, t: string) {
    exists m :: m in managers && IsTarget(m, t)
  }

  lemma AnyTargetMore(managers: seq<ManagerRef>, m: ManagerRef, t: string)
    ensures AnyTarget(managers + [m], t) <==> AnyTarget(managers, t) || IsTarget(m, t)
  {
    if IsTarget(m, t) {
      assert m in managers + [m];
    }
    if AnyTarget(managers, t) {
      var x :| x in managers && IsTarget(x, t);
      assert x in managers + [m];
    }
  }

  lemma OffersOneMore(s: AgentState, own: string, rest: seq<ManagerRef>, m: ManagerRef)
    ensures ManagersOffers(s, own, rest + [m]) == ManagersOffers(s, own, rest) + OffersOf(s, own, m.id, TargetsOf(s, m, own))
  {
    assert (rest + [m])[..|rest|] == rest;
  }

  lemma OffersAreMore(s: AgentState, own: string, rest: seq<ManagerRef>, m: ManagerRef, t: string)
    requires Offered(ManagersOffers(s, own, rest), t) <==> AnyTarget(rest, t)
    ensures Offered(ManagersOffers(s, own, rest + [m]), t) <==> AnyTarget(rest + [m], t)
  {
    OffersOneMore(s, own, rest, m);
    OneOffers(s, own, m, t);
    OfferedInEither(ManagersOffers(s, own, rest), OffersOf(s, own, m.id, TargetsOf(s, m, own)), t);
    AnyTargetMore(rest, m, t);
  }

  /** A target is offered by some manager exactly when it is one of that manager's. */
  lemma {:induction false} OffersAre(s: AgentState, own: string, managers: seq<ManagerRef>, t: string)
    ensures Offered(ManagersOffers(s, own, managers), t) <==> AnyTarget(managers, t)
  {
    if managers != [] {
      var n := |managers| - 1;
      OffersAre(s, own, managers[..n], t);
      OffersAreMore(s, own, managers[..n], managers[n], t);
      assert managers[..n] + [managers[n]] == managers;
    }
  }

  predicate Offered(offers: seq<Offer>, t: string) {
    FirstAt(offers, t) < |offers|
  }

  lemma OneOffers(s: AgentState, own: string, m: ManagerRef, t: string)
    ensures Offered(OffersOf(s, own, m.id, TargetsOf(s, m, own)), t) <==> IsTarget(m, t)
  {
    TargetsAreAll(s, m, own);
    var targets := TargetsOf(s, m, own);
    var offers := OffersOf(s, own, m.id, targets);
    if t in targets {
      var i :| 0 <= i < |offers| && targets[i] == t;
      assert offers[i].target == t;
    }
  }

  lemma OfferedInEither(a: seq<Offer>, b: seq<Offer>, t: string)
    ensures Offered(a + b, t) <==> Offered(a, t) || Offered(b, t)
  {
    if FirstAt(a, t) < |a| {
      assert (a + b)[FirstAt(a, t)].target == t;
    }
    if FirstAt(b, t) < |b| {
      assert (a + b)[|a| + FirstAt(b, t)].target == t;
    }
  }

  /**
   Heartbeats go to every dialable address of every manager, each once, and to the leader a redirect
   named when the agent lists it at no manager; near ones first, as OrderIs has it.
   */
  lemma NextTargetsAreAll(s: AgentState, own: string, t: string)
    ensures t in Order(Offers(s, own)) <==>
              t != "" && (AnyTarget(s.managers, t) || (t == s.leader && LeaderIndex(s.managers, s.leader) == None))
  {
    OrderIs(Offers(s, own));
    OffersAre(s, own, s.managers, t);
    OfferedInEither(LeaderOffers(s, own), ManagersOffers(s, own, s.managers), t);
    var k := LeaderIndex(s.managers, s.leader);
    if k.Some? {
      OneOffers(s, own, s.managers[k.value], t);
      assert s.managers[k.value] in s.managers;
    } else if s.leader != "" {
      assert LeaderOffers(s, own)[0] == Offer(s.leader, true);
    }
  }

  // --- Whose targets come first ---

  /** An address is near for a manager's target: on the agent's network, or where that manager was last reached. */
  predicate NearFor(s: AgentState, own: string, id: string, t: string) {
    ((t in s.tailscale) == (own in s.tailscale)) || (id in s.reached && s.reached[id] == t)
  }

  lemma LeaderIsOfferedFirst(s: AgentState, own: string, k: nat, t: string, u: string)
    requires LeaderIndex(s.managers, s.leader) == Some(k) && IsTarget(s.managers[k], t) && !IsTarget(s.managers[k], u)
    ensures var all, a := Offers(s, own), FirstAt(Offers(s, own), t);
            && a < |LeaderOffers(s, own)| <= FirstAt(all, u) && a < |all| && all[a].near == NearFor(s, own, s.managers[k].id, t)
  {
    var first, rest := LeaderOffers(s, own), ManagersOffers(s, own, s.managers);
    OneOffers(s, own, s.managers[k], t);
    OneOffers(s, own, s.managers[k], u);
    var i := FirstAt(first, t);
    assert (first + rest)[i] == first[i];
    assert forall x :: 0 <= x < |first| ==> (first + rest)[x] == first[x] && first[x].target != u;
  }

  /** No manager offers u as near. */
  ghost predicate FarForAll(s: AgentState, own: string, u: string) {
    forall m :: m in s.managers && IsTarget(m, u) ==> !NearFor(s, own, m.id, u)
  }

  lemma FarIsOfferedFar(s: AgentState, own: string, u: string, k: nat)
    requires FarForAll(s, own, u) && k < |ManagersOffers(s, own, s.managers)| && ManagersOffers(s, own, s.managers)[k].target == u
    ensures !ManagersOffers(s, own, s.managers)[k].near
  {
    var m := OfferedBy(s, own, s.managers, k);
    assert m in s.managers && IsTarget(m, u);
  }

  lemma InSecond<T>(a: seq<T>, b: seq<T>, k: nat)
    requires |a| <= k < |a + b|
    ensures (a + b)[k] == b[k - |a|]
  {
  }

  /**
   A leader that the agent lists comes first: its near targets before every other manager's, and the
   rest of its targets before every other that is not near.
   */
  lemma LeaderComesFirst(s: AgentState, own: string, k: nat, i: nat, j: nat)
    requires LeaderIndex(s.managers, s.leader) == Some(k)
    requires var out := Order(Offers(s, own));
             && i < |out| && j < |out| && IsTarget(s.managers[k], out[i]) && !IsTarget(s.managers[k], out[j])
             && (NearFor(s, own, s.managers[k].id, out[i]) || FarForAll(s, own, out[j]))
    ensures i < j
  {
    var all, out := Offers(s, own), Order(Offers(s, own));
    LeaderIsOfferedFirst(s, own, k, out[i], out[j]);
    OrderIs(all);
    assert out[j] in out && Offered(all, out[j]);
    if FarForAll(s, own, out[j]) {
      FarInOffers(s, own, out[j]);
    }
    ComesBefore(all, i, j);
  }

  /** Not one of the offers of u is near. */
  predicate NoneNear(offers: seq<Offer>, u: string) {
    forall x :: 0 <= x < |offers| && offers[x].target == u ==> !offers[x].near
  }

  lemma FarIsOffered(first: seq<Offer>, rest: seq<Offer>, u: string)
    requires |first| <= FirstAt(first + rest, u) < |first + rest|
    requires NoneNear(rest, u)
    ensures !(first + rest)[FirstAt(first + rest, u)].near
  {
    InSecond(first, rest, FirstAt(first + rest, u));
  }

  lemma FarIsAllFar(s: AgentState, own: string, u: string)
    requires FarForAll(s, own, u)
    ensures NoneNear(ManagersOffers(s, own, s.managers), u)
  {
    forall x | 0 <= x < |ManagersOffers(s, own, s.managers)| && ManagersOffers(s, own, s.managers)[x].target == u
      ensures !ManagersOffers(s, own, s.managers)[x].near
    {
      FarIsOfferedFar(s, own, u, x);
    }
  }

  lemma FarInOffers(s: AgentState, own: string, u: string)
    requires FarForAll(s, own, u) && |LeaderOffers(s, own)| <= FirstAt(Offers(s, own), u) < |Offers(s, own)|
    ensures !Offers(s, own)[FirstAt(Offers(s, own), u)].near
  {
    FarIsAllFar(s, own, u);
    FarIsOffered(LeaderOffers(s, own), ManagersOffers(s, own, s.managers), u);
  }

  lemma ComesBefore(offers: seq<Offer>, i: nat, j: nat)
    requires i < |Order(offers)| && j < |Order(offers)|
    requires var a, b := FirstAt(offers, Order(offers)[i]), FirstAt(offers, Order(offers)[j]);
             a < b < |offers| && (offers[a].near || !offers[b].near)
    ensures i < j
  {
    OrderIs(offers);
    assert !Precedes(offers, Order(offers)[j], Order(offers)[i]);
  }

  /** Whose the k-th offer is. */
  lemma {:induction false} OfferedBy(s: AgentState, own: string, managers: seq<ManagerRef>, k: nat) returns (m: ManagerRef)
    requires k < |ManagersOffers(s, own, managers)|
    ensures m in managers
    ensures var o := ManagersOffers(s, own, managers)[k]; IsTarget(m, o.target) && o.near == NearFor(s, own, m.id, o.target)
    decreases |managers|
  {
    var n := |managers| - 1;
    var rest := ManagersOffers(s, own, managers[..n]);
    if k < |rest| {
      m := OfferedBy(s, own, managers[..n], k);
    } else {
      m := managers[n];
      TargetsAreAll(s, m, own);
      assert ManagersOffers(s, own, managers)[k] == OffersOf(s, own, m.id, TargetsOf(s, m, own))[k - |rest|];
    }
  }

  /** A leader a redirect named, and the agent does not list, is asked before any other. */
  lemma RedirectComesFirst(s: AgentState, own: string)
    requires LeaderIndex(s.managers, s.leader) == None && s.leader != ""
    ensures Order(Offers(s, own)) != [] && Order(Offers(s, own))[0] == s.leader
  {
    var all, out := Offers(s, own), Order(Offers(s, own));
    OrderIs(all);
    assert all[0] == Offer(s.leader, true) && FirstAt(all, s.leader) == 0;
    assert Offered(all, s.leader) && s.leader in out;
    var i :| 0 <= i < |out| && out[i] == s.leader;
    assert 0 < i ==> Precedes(all, out[0], out[i]);
  }

  // --- One manager's, near first ---

  /** Addresses on the agent's network come before the others. */
  lemma RankedIsNearFirst(tailscale: set<string>, own: string, ips: seq<string>, i: nat, j: nat)
    requires i < j < |Ranked(tailscale, own, ips)|
    ensures var r := Ranked(tailscale, own, ips);
            ((r[j] in tailscale) == (own in tailscale)) ==> ((r[i] in tailscale) == (own in tailscale))
  {
    AllOnNetwork(tailscale, own, ips, true);
    AllOnNetwork(tailscale, own, ips, false);
  }

  lemma {:induction false} AllOnNetwork(tailscale: set<string>, own: string, ips: seq<string>, same: bool)
    ensures forall i :: 0 <= i < |OnNetwork(tailscale, own, ips, same)| ==>
              ((OnNetwork(tailscale, own, ips, same)[i] in tailscale) == (own in tailscale)) == same
  {
    if ips != [] {
      AllOnNetwork(tailscale, own, ips[1..], same);
    }
  }

  /** Where each of a group is in the list given: places that only rise. */
  lemma {:induction false} OnNetworkKeepsOrder(tailscale: set<string>, own: string, ips: seq<string>, same: bool) returns (at: seq<nat>)
    ensures |at| == |OnNetwork(tailscale, own, ips, same)|
    ensures forall i :: 0 <= i < |at| ==> at[i] < |ips| && OnNetwork(tailscale, own, ips, same)[i] == ips[at[i]]
    ensures forall i, j :: 0 <= i < j < |at| ==> at[i] < at[j]
    decreases |ips|
  {
    at := [];
    if ips != [] {
      var rest := OnNetworkKeepsOrder(tailscale, own, ips[1..], same);
      var moved := seq(|rest|, i requires 0 <= i < |rest| => rest[i] + 1);
      at := (if SameNetwork(tailscale, own, ips[0]) == same then [0] else []) + moved;
    }
  }

  /** Where each target at the port comes from among the addresses ranked: places that only rise. */
  lemma {:induction false} DialableKeepsOrder(ranked: seq<string>, port: string) returns (at: seq<nat>)
    ensures |at| == |Dialable(ranked, port)|
    ensures forall i :: 0 <= i < |at| ==> at[i] < |ranked| && Dialable(ranked, port)[i] == JoinHostPort(ranked[at[i]], port)
    ensures forall i, j :: 0 <= i < j < |at| ==> at[i] < at[j]
    decreases |ranked|
  {
    at := [];
    if ranked != [] {
      var n := |ranked| - 1;
      at := DialableKeepsOrder(ranked[..n], port);
      if JoinHostPort(ranked[n], port) !in Dialable(ranked[..n], port) {
        at := at + [n];
      }
    }
  }

  /**
   A manager none of whose targets was reached last: its addresses near first, each group in its order,
   and its own gRPC address after them unless it is one.
   */
  lemma UnreachedIsRanked(s: AgentState, ref: ManagerRef, own: string) returns (at: seq<nat>)
    requires HasTargets(ref) && ref.id !in s.reached
    ensures var out, ranked := TargetsOf(s, ref, own), Ranked(s.tailscale, own, ref.addresses);
            && |at| <= |out| <= |at| + 1 && (|out| == |at| + 1 ==> out[|at|] == ref.grpcAddress)
            && (forall i :: 0 <= i < |at| ==> at[i] < |ranked| && out[i] == JoinHostPort(ranked[at[i]], ref.port.value))
            && (forall i, j :: 0 <= i < j < |at| ==> at[i] < at[j])
  {
    at := DialableKeepsOrder(Ranked(s.tailscale, own, ref.addresses), ref.port.value);
  }
}
