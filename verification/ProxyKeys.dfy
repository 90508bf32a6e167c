/**
 The managers' internal proxy secret (internal/cluster/proxy_secret.go, proxy_rotation.go): what a
 manager signs with and accepts, and the leader's decisions. Times are in milliseconds.
 */
module ProxyKeys {
  import opened Options

  const LEGACY_PROXY_GRACE := 120_000
  const PROXY_SECRET_SETTLE := 60_000
  const PROXY_ROTATION_SETTLED := 300_000

  datatype ProxyPhase = Next | Switched | Done

  /** A re-rotation's record. */
  datatype ProxyKey = ProxyKey(generation: int, secret: string, previous: string, switchedAt: Option<int>) {
    function Phase(): ProxyPhase {
      if previous == "" then Done else if switchedAt == None then Next else Switched
    }

    predicate NewerThan(o: ProxyKey) {
      if generation != o.generation then generation > o.generation else Order(Phase()) > Order(o.Phase())
    }
  }

  function Order(p: ProxyPhase): int {
    match p
    case Next => 1
    case Switched => 2
    case Done => 3
  }

  /** What a manager signs with, and what it accepts. */
  datatype Secrets = Secrets(sign: string, accept: seq<string>)

  /** proxyKeysAt: under a re-rotation's record. */
  function KeysAt(k: ProxyKey, now: int): Secrets {
    match k.Phase()
    case Next => Secrets(k.previous, [k.previous, k.secret])
    case Switched =>
      if now < k.switchedAt.value + LEGACY_PROXY_GRACE then Secrets(k.secret, [k.secret, k.previous])
      else Secrets(k.secret, [k.secret])
    case Done => Secrets(k.secret, [k.secret])
  }

  /** proxySecretsAt: before any re-rotation, between the CA-derived secret and the replicated one. */
  function SecretsAt(legacy: string, replicated: string, rotatedAt: Option<int>, now: int, hasAgents: bool): Secrets {
    if hasAgents && replicated != "" then Secrets(replicated, [replicated])
    else if rotatedAt == None || replicated == "" then
      Secrets(legacy, if replicated != "" then [legacy, replicated] else [legacy])
    else if now < rotatedAt.value + LEGACY_PROXY_GRACE then Secrets(replicated, [replicated, legacy])
    else Secrets(replicated, [replicated])
  }

  /** What replicated state says of the secret. */
  datatype Config = Config(replicated: string, rotatedAt: Option<int>, agents: bool, key: Option<ProxyKey>)

  function Installed(legacy: string, c: Config, now: int): Secrets {
    if c.key.Some? then KeysAt(c.key.value, now) else SecretsAt(legacy, c.replicated, c.rotatedAt, now, c.agents)
  }

  /** What a manager signs with does not go by its clock. */
  function Sign(legacy: string, c: Config): string {
    Installed(legacy, c, 0).sign
  }

  /** Every secret c may have a manager accept, whatever its clock says. */
  function Accepted(legacy: string, c: Config): set<string> {
    if c.key.Some? then
      {c.key.value.secret} + (if c.key.value.previous != "" then {c.key.value.previous} else {})
    else if c.agents && c.replicated != "" then {c.replicated}
    else {legacy} + (if c.replicated != "" then {c.replicated} else {})
  }

  /**
   A manager accepts what it signs with, never anything outside Accepted, and a list made earlier by
   its clock holds all that one made now would.
   */
  lemma InstalledBounds(legacy: string, c: Config, now: int, later: int)
    requires now <= later
    ensures var s := Installed(legacy, c, now);
            && s.sign == Sign(legacy, c) && s.sign in s.accept && |s.accept| <= 2
            && (forall x :: x in s.accept ==> x in Accepted(legacy, c))
            && (forall x :: x in Installed(legacy, c, later).accept ==> x in s.accept)
  {
  }

  // --- The leader's decisions ---

  /** What the leader knows of a manager; generation is None when not reported. */
  datatype ProxyNode = ProxyNode(id: string, heardFrom: bool, online: bool, capable: bool, generation: Option<int>)

  predicate Takes(n: ProxyNode, generation: int) {
    n.heardFrom && n.online && n.capable && n.generation.Some? && n.generation.value >= generation
  }

  /** nextProxyStep's decision. */
  function Decision(k: ProxyKey, managers: seq<ProxyNode>, now: int): Option<ProxyPhase> {
    match k.Phase()
    case Next => if forall i :: 0 <= i < |managers| ==> Takes(managers[i], k.generation) then Some(Switched) else None
    case Switched => if now >= k.switchedAt.value + PROXY_ROTATION_SETTLED then Some(Done) else None
    case Done => None
  }

  /** The step, and whom it waits for: exactly the managers that do not take the next secret yet. */
  method NextProxyStep(k: ProxyKey, managers: seq<ProxyNode>, now: int) returns (next: Option<ProxyPhase>, waiting: seq<string>)
    ensures next == Decision(k, managers, now)
    ensures k.Phase() == Next ==>
              forall id :: id in waiting <==>
                           exists i :: 0 <= i < |managers| && managers[i].id == id && !Takes(managers[i], k.generation)
    ensures k.Phase() != Next ==> waiting == []
  {
    waiting := [];
    match k.Phase() {
      case Next =>
        for i := 0 to |managers|
          invariant forall id :: id in waiting <==>
                                 exists j :: 0 <= j < i && managers[j].id == id && !Takes(managers[j], k.generation)
        {
          var n := managers[i];
          if !n.heardFrom {
            waiting := waiting + [n.id];
          } else if !n.online {
            waiting := waiting + [n.id];
          } else if !n.capable {
            waiting := waiting + [n.id];
          } else if n.generation == None || n.generation.value < k.generation {
            waiting := waiting + [n.id];
          }
        }
        if waiting == [] {
          assert forall i :: 0 <= i < |managers| && !Takes(managers[i], k.generation) ==> managers[i].id in waiting;
          return Some(Switched), [];
        }
        assert waiting[0] in waiting;
        return None, waiting;
      case Switched =>
        if now >= k.switchedAt.value + PROXY_ROTATION_SETTLED {
          return Some(Done), [];
        }
      case Done =>
    }
    return None, [];
  }

  /** shouldRotate: the secret has been there long enough, and every other member takes it. */
  method ShouldRotate(seenAt: Option<int>, now: int, self: string, members: seq<string>, ready: map<string, bool>)
    returns (rotate: bool)
    ensures rotate <==>
              && seenAt.Some? && now - seenAt.value >= 60_000
              && forall i :: 0 <= i < |members| && members[i] != self ==> members[i] in ready && ready[members[i]]
  {
    if seenAt == None || now - seenAt.value < PROXY_SECRET_SETTLE {
      return false;
    }
    for i := 0 to |members|
      invariant forall j :: 0 <= j < i && members[j] != self ==> members[j] in ready && ready[members[j]]
    {
      var id := members[i];
      if id == self {
        continue;
      }
      if id !in ready || !ready[id] {
        return false;
      }
    }
    return true;
  }
}
