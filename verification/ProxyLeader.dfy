/**
 What a leader writes of the secret (internal/cluster/proxy_rotation.go, proxy_secret.go): each
 operation against ProxyWorld's writes, and cluster_proxy_secret as the mirror older releases read.
 */
module ProxyLeader {
  import opened Options
  import opened ProxyKeys
  import opened ProxyWorld
  import opened ProxyHistory
  import opened ProxyManager

  datatype StartAnswer = Started(generation: int) | NotCaughtUp | Pending | StillAccepted | WaitingForNodes | NoSecret | NotReplicated

  /** budget is how many writes land before the leader stops. */
  class LeaderProxy {
    var secret: string
    var rotatedAt: Option<int>
    var agents: bool
    var key: Option<ProxyKey>
    var seenSecret: string
    var seenAt: int
    var budget: nat
    // cluster_proxy_secret from before it became a mirror.
    ghost var seeded: string

    ghost function State(): Config
      reads this
    {
      Config(if key.Some? then seeded else secret, rotatedAt, agents, key)
    }

    ghost predicate Valid()
      reads this
    {
      WellFormed(State())
    }

    constructor (c: Config, secret: string, budget: nat)
      requires WellFormed(c) && (c.key == None ==> secret == c.replicated)
      ensures Valid() && State() == c && this.secret == secret && this.budget == budget && seenSecret == ""
    {
      this.secret, rotatedAt, agents, key, seeded := secret, c.rotatedAt, c.agents, c.key, c.replicated;
      seenSecret, seenAt, this.budget := "", 0, budget;
    }

    method SetSecret(value: string) returns (ok: bool)
      modifies `secret, `budget
      ensures ok == (old(budget) > 0) && budget == (if ok then old(budget) - 1 else 0)
      ensures secret == if ok then value else old(secret)
    {
      if budget == 0 {
        return false;
      }
      secret, budget := value, budget - 1;
      return true;
    }

    method WriteProxyKey(k: ProxyKey) returns (ok: bool)
      modifies `key, `budget, `seeded
      ensures ok == (old(budget) > 0) && budget == (if ok then old(budget) - 1 else 0)
      ensures key == if ok then Some(k) else old(key)
      ensures seeded == if ok && old(key) == None then secret else old(seeded)
    {
      if budget == 0 {
        return false;
      }
      if key == None {
        seeded := secret;
      }
      key, budget := Some(k), budget - 1;
      return true;
    }

    /** When this node first saw the replicated secret there is. */
    method ReplicatedSecretSeenAt(now: int) returns (at: int)
      modifies `seenSecret, `seenAt
      ensures at == seenAt == (if old(seenSecret) == secret then old(seenAt) else now) && seenSecret == secret
    {
      if seenSecret != secret {
        seenSecret, seenAt := secret, now;
      }
      return seenAt;
    }

    /**
     Seeds the secret where there is none, and switches to it once it has been seen a minute and every
     other member takes it: either of ProxyWorld's two writes, or nothing.
     */
    method MaybeRotateProxySecret(caughtUp: bool, made: string, self: string, members: seq<string>, ready: map<string, bool>,
                                  now: int)
      returns (wrote: Option<Write>)
      requires Valid() && made != ""
      modifies this
      ensures Valid() && (wrote == None ==> State() == old(State()))
      ensures wrote.Some? ==> Allows(old(State()), wrote.value) && State() == Written(old(State()), wrote.value)
      ensures wrote == Some(Seed(made)) <==> caughtUp && old(budget) > 0 && old(rotatedAt) == None && old(secret) == ""
      ensures wrote.Some? && wrote != Some(Seed(made)) <==>
                && caughtUp && old(budget) > 0 && old(rotatedAt) == None && old(secret) != ""
                && old(seenSecret) == old(secret) && now - old(seenAt) >= PROXY_SECRET_SETTLE
                && (forall i :: 0 <= i < |members| && members[i] != self ==> members[i] in ready && ready[members[i]])
      ensures wrote.Some? && wrote != Some(Seed(made)) ==> wrote == Some(Rotate(self, old(seenAt), now))
    {
      if !caughtUp || rotatedAt.Some? {
        return None;
      }
      if secret == "" {
        var ok := SetSecret(made);
        return if ok then Some(Seed(made)) else None;
      }
      var at := ReplicatedSecretSeenAt(now);
      var rotate := ShouldRotate(Some(at), now, self, members, ready);
      if !rotate || budget == 0 {
        return None;
      }
      rotatedAt, budget := Some(Truncated(now)), budget - 1;
      return Some(Rotate(self, at, now));
    }

    /** A new generation, in its next phase, once nothing older is on its way out. */
    method StartProxyRotation(caughtUp: bool, ready: bool, made: string, now: int) returns (answer: StartAnswer)
      requires Valid() && made != ""
      modifies this
      ensures Valid() && secret == old(secret)
      ensures answer.Started? <==> caughtUp && ready && old(budget) > 0 && Allows(old(State()), Start(made, now))
      ensures answer.Started? ==> State() == Written(old(State()), Start(made, now)) && answer.generation == Gen(State())
      ensures !answer.Started? ==> State() == old(State())
    {
      if !caughtUp {
        return NotCaughtUp;
      }
      if rotatedAt == None || now - rotatedAt.value <= PROXY_ROTATION_SETTLED {
        return Pending;
      }
      if key.Some? && key.value.Phase() == Switched {
        return StillAccepted;
      }
      if !ready {
        return WaitingForNodes;
      }
      var previous := secret;
      var generation := 0;
      if key.Some? {
        generation := key.value.generation;
        previous := if key.value.Phase() == Next then key.value.previous else key.value.secret;
      }
      if previous == "" {
        return NoSecret;
      }
      var ok := WriteProxyKey(ProxyKey(generation + 1, made, previous, None));
      return if ok then Started(generation + 1) else NotReplicated;
    }

    /**
     One step of the re-rotation, when it is due, after the mirror is put right: whatever part of its
     writes lands, the mirror holds what it held or what the record signed or signs with, and with
     none lost it holds what the record signs with.
     */
    method AdvanceProxyRotation(caughtUp: bool, managers: seq<ProxyNode>, self: string, now: int) returns (wrote: Option<Write>)
      requires Valid()
      modifies this
      ensures Valid() && (wrote == None ==> State() == old(State()))
      ensures wrote.Some? ==> Allows(old(State()), wrote.value) && State() == Written(old(State()), wrote.value)
      ensures wrote.Some? ==>
                && caughtUp && old(key).Some?
                && (match Decision(old(key).value, managers, now)
                    case Some(Switched) => wrote == Some(Switch(self, now))
                    case Some(Done) => wrote == Some(Finish(now))
                    case _ => false)
      ensures caughtUp && old(key).Some? && old(budget) >= 2 && Decision(old(key).value, managers, now).Some? ==> wrote.Some?
      ensures old(key) == None || !caughtUp ==> secret == old(secret)
      ensures old(key).Some? ==> secret in {old(secret), KeysAt(old(key).value, now).sign, KeysAt(key.value, now).sign}
      ensures old(key).Some? && caughtUp && old(budget) >= 3 ==> secret == KeysAt(key.value, now).sign
    {
      if !caughtUp || key == None {
        return None;
      }
      var k := key.value;
      if secret != KeysAt(k, now).sign {
        var ok := SetSecret(KeysAt(k, now).sign);
        if !ok {
          return None;
        }
      }
      var next, _ := NextProxyStep(k, managers, now);
      if next == Some(Switched) {
        var ok := WriteProxyKey(k.(switchedAt := Some(now)));
        if !ok {
          return None;
        }
        var _ := SetSecret(k.secret);
        return Some(Switch(self, now));
      }
      if next == Some(Done) {
        var ok := WriteProxyKey(k.(previous := ""));
        if !ok {
          return None;
        }
        return Some(Finish(now));
      }
      return None;
    }
  }

  /**
   One tick of the leader (internal/cluster/manager.go): it goes by the replicated state first, and may
   rotate after, maybe on a state newer than that. shown is the state it goes by, no older than the
   one the last tick saw the secret in.
   */
  method WatchLeaderTick(m: ProxySecretManager, l: LeaderProxy, shown: Config, made: string, self: string,
                         members: seq<string>, ready: map<string, bool>, now: int)
    returns (wrote: Option<Write>)
    requires m.Valid() && l.Valid() && WellFormed(shown) && made != ""
    requires l.seenSecret != "" ==> shown.replicated == l.seenSecret
    modifies m, l
    ensures m.Valid() && l.Valid()
    ensures Secrets(m.sign, m.accept) == Installed(m.legacy, Effective(old(m.file), shown), now)
    ensures wrote.Some? ==> Allows(old(l.State()), wrote.value) && l.State() == Written(old(l.State()), wrote.value)
    ensures wrote.Some? && wrote.value.Rotate? ==>
              && shown.replicated == old(l.State()).replicated != "" && Effective(old(m.file), shown).replicated != ""
              && (old(m.file).key == None && shown.key == None ==> old(l.State()).replicated in m.accept)
  {
    m.ApplyProxySecrets(shown, now);
    wrote := l.MaybeRotateProxySecret(true, made, self, members, ready, now);
  }
}
