/**
 An agent's key store (internal/cluster/agent_keys.go): two files replaced one
 after the other, the keys they make at a boot, and what a crash between two
 writes leaves. A key is a string and "" is no key, as in the source.
 */
module AgentKeyStore {
  import opened Options

  // How long the key left at a switch is accepted, in milliseconds (legacyProxyGrace).
  const LEGACY_PROXY_GRACE := 120_000

  /** What the rotation file holds: agent.key's generation, and the key issued, "" with none. */
  datatype KeyState = KeyState(generation: nat, next: string, nextGeneration: nat)

  /** The rotation file: missing, unreadable or not parsing, or holding a state. */
  datatype RotationFile = Missing | Corrupt | Holds(state: KeyState)

  /** The two files of the certificate directory. */
  datatype Disk = Disk(agentKey: string, rotation: RotationFile)

  /** The keys in memory, but for the one left at the last switch. */
  datatype KeyRing = KeyRing(current: string, state: KeyState) {
    predicate Pending() { state.next != "" }

    predicate Takes(key: string, generation: nat) {
      key != "" && generation > state.generation
    }

    predicate CanSwitch(generation: nat) {
      Pending() && state.nextGeneration == generation
    }

    function Taken(key: string, generation: nat): KeyRing {
      KeyRing(current, KeyState(state.generation, key, generation))
    }

    function Switched(): KeyRing {
      KeyRing(state.next, KeyState(state.nextGeneration, "", 0))
    }
  }

  const FRESH_STATE := KeyState(0, "", 0)

  /** Whether the file's next key is agent.key already: a switch a crash cut between its writes. */
  predicate CutSwitch(d: Disk) {
    d.rotation.Holds? && d.rotation.state.next != "" && d.rotation.state.next == d.agentKey
  }

  /** The keys a boot from d comes up with; None when agent.key is missing or empty. */
  function Boot(d: Disk): Option<KeyRing> {
    if d.agentKey == "" then None
    else if !d.rotation.Holds? then Some(KeyRing(d.agentKey, FRESH_STATE))
    else if CutSwitch(d) then Some(KeyRing(d.agentKey, KeyState(d.rotation.state.nextGeneration, "", 0)))
    else Some(KeyRing(d.agentKey, d.rotation.state))
  }

  /** The contents the disk goes through in a take: one file written. */
  function TakeTrail(d: Disk, ring: KeyRing, key: string, generation: nat): seq<Disk> {
    [d.(rotation := Holds(ring.Taken(key, generation).state))]
  }

  /** The contents it goes through in a switch: agent.key, then the rotation file unless that write fails. */
  function SwitchTrail(d: Disk, ring: KeyRing, saved: bool): seq<Disk> {
    var first := d.(agentKey := ring.state.next);
    if saved then [first, first.(rotation := Holds(ring.Switched().state))] else [first]
  }

  /**
   After a take a boot has the key taken beside agent.key, exactly when it is another key. A key
   equal to agent.key reads as a switch cut half way.
   */
  lemma TakeSurvivesBoot(d: Disk, ring: KeyRing, key: string, generation: nat)
    requires Boot(d) == Some(ring) && ring.Takes(key, generation)
    ensures Boot(TakeTrail(d, ring, key, generation)[0]) == Some(ring.Taken(key, generation))
            <==> key != ring.current
    ensures key == ring.current ==>
              Boot(TakeTrail(d, ring, key, generation)[0]) == Some(KeyRing(key, KeyState(generation, "", 0)))
  {
  }

  /**
   However far a switch came — after agent.key alone, or after both files — a boot has the keys the
   whole switch makes.
   */
  lemma SwitchSurvivesBoot(d: Disk, ring: KeyRing, saved: bool)
    requires Boot(d) == Some(ring) && ring.Pending()
    ensures forall i :: 0 <= i < |SwitchTrail(d, ring, saved)| ==>
                          Boot(SwitchTrail(d, ring, saved)[i]) == Some(ring.Switched())
  {
    assert d.rotation == Holds(ring.state);
    assert SwitchTrail(d, ring, saved)[0] == Disk(ring.state.next, Holds(ring.state));
  }

  /** The two files, replaced whole, and every content they have had. */
  class CertDir {
    var disk: Disk
    ghost var trail: seq<Disk>

    ghost predicate Valid()
      reads this
    {
      trail != [] && trail[|trail| - 1] == disk
    }

    constructor (disk: Disk)
      ensures Valid() && this.disk == disk && trail == [disk]
    {
      this.disk := disk;
      this.trail := [disk];
    }

    method SaveAgentKey(key: string)
      requires Valid()
      modifies this
      ensures Valid() && disk == old(disk).(agentKey := key) && trail == old(trail) + [disk]
    {
      disk := disk.(agentKey := key);
      trail := trail + [disk];
    }

    method SaveState(s: KeyState)
      requires Valid()
      modifies this
      ensures Valid() && disk == old(disk).(rotation := Holds(s)) && trail == old(trail) + [disk]
    {
      disk := disk.(rotation := Holds(s));
      trail := trail + [disk];
    }
  }

  /** The process's internal-proxy secrets, what install hands them to. */
  class ProxySecrets {
    var sign: string
    var accept: seq<string>

    constructor ()
      ensures sign == "" && accept == []
    {
      sign, accept := "", [];
    }
  }

  /** What the agent accepts at now: agent.key, the key issued, and the key left while its grace lasts. */
  function AcceptList(ring: KeyRing, previous: string, previousUntil: int, now: int): (keys: seq<string>)
    ensures ring.current in keys && (ring.Pending() ==> ring.state.next in keys)
    ensures forall k :: k in keys ==>
                          k == ring.current || (ring.Pending() && k == ring.state.next)
                          || (previous != "" && k == previous && now < previousUntil)
    ensures keys[0] == ring.current
  {
    [ring.current]
    + (if ring.Pending() then [ring.state.next] else [])
    + (if previous != "" && now < previousUntil then [previous] else [])
  }

  class AgentKeys {
    const dir: CertDir
    const secrets: ProxySecrets
    var current: string
    var state: KeyState
    var previous: string
    var previousUntil: int
    var installed: Option<seq<string>>

    function Ring(): KeyRing
      reads this
    {
      KeyRing(current, state)
    }

    ghost predicate Valid()
      reads this, dir, secrets
    {
      && dir.Valid() && current != ""
      && (installed.Some? ==> installed.value != [] && secrets.accept == installed.value
                              && secrets.sign == installed.value[0])
    }

    /** A restart now loses the key left at the last switch and nothing else. */
    ghost predicate RestartsAsItIs()
      reads this, dir
    {
      Boot(dir.disk) == Some(Ring())
    }

    // For LoadAgentKeys alone, which reads the ring from the directory.
    constructor (dir: CertDir, secrets: ProxySecrets, ring: KeyRing)
      requires dir.Valid() && ring.current != ""
      ensures Valid() && this.dir == dir && this.secrets == secrets && Ring() == ring
      ensures previous == "" && installed == None
    {
      this.dir, this.secrets := dir, secrets;
      current, state := ring.current, ring.state;
      previous, previousUntil, installed := "", 0, None;
    }

    /**
     The keys a boot has. A switch a crash cut is finished on disk when the write succeeds, and in
     memory either way; loading again makes the same keys, and writes nothing once finished.
     */
    static method LoadAgentKeys(dir: CertDir, secrets: ProxySecrets, saved: bool) returns (k: Option<AgentKeys>)
      requires dir.Valid()
      modifies dir
      ensures dir.Valid() && k.Some? == Boot(old(dir.disk)).Some?
      ensures k.Some? ==> fresh(k.value) && k.value.Valid() && k.value.dir == dir && k.value.secrets == secrets
      ensures k.Some? ==> k.value.previous == "" && k.value.RestartsAsItIs()
      ensures k.Some? ==> Some(k.value.Ring()) == Boot(old(dir.disk))
      ensures Boot(dir.disk) == Boot(old(dir.disk))
      ensures !CutSwitch(old(dir.disk)) || !saved || old(dir.disk).agentKey == "" ==> dir.disk == old(dir.disk)
      ensures CutSwitch(old(dir.disk)) && saved && old(dir.disk).agentKey != "" ==> !CutSwitch(dir.disk)
      ensures forall i :: |old(dir.trail)| <= i < |dir.trail| ==> Boot(dir.trail[i]) == Boot(old(dir.disk))
    {
      var key := dir.disk.agentKey;
      if key == "" {
        return None;
      }
      var s := FRESH_STATE;
      if dir.disk.rotation.Holds? {
        s := dir.disk.rotation.state;
        if s.next != "" && s.next == key {
          s := KeyState(s.nextGeneration, "", 0);
          if saved {
            dir.SaveState(s);
          }
        }
      }
      var keys := new AgentKeys(dir, secrets, KeyRing(key, s));
      return Some(keys);
    }

    /**
     Hands the process what AcceptList says, when that is news, and forgets a key left past its
     grace.
     */
    method Install(now: int)
      requires Valid()
      modifies this, secrets
      ensures Valid() && Ring() == old(Ring())
      ensures secrets.sign == current
      ensures secrets.accept == AcceptList(Ring(), old(previous), old(previousUntil), now)
      ensures installed == Some(secrets.accept)
      ensures previous == (if now < old(previousUntil) then old(previous) else "")
      ensures previous != "" ==> previousUntil == old(previousUntil)
    {
      var accept := [current];
      if state.next != "" {
        accept := accept + [state.next];
      }
      if previous != "" {
        if now < previousUntil {
          accept := accept + [previous];
        } else {
          previous, previousUntil := "", 0;
        }
      }
      if installed.Some? && accept == installed.value {
        return;
      }
      installed := Some(accept);
      secrets.sign, secrets.accept := current, accept;
    }

    /**
     Keeps key beside agent.key: on disk before it is accepted, and nothing changed when it is
     refused or the write fails. Whatever a crash leaves boots as before the call or as after it,
     unless key is agent.key itself.
     */
    method Take(key: string, generation: nat, saved: bool, now: int) returns (ok: bool)
      requires Valid()
      modifies this, dir, secrets
      ensures Valid()
      ensures ok == (old(Ring()).Takes(key, generation) && saved)
      ensures ok <==> key != "" && generation > old(state).generation && saved
      ensures !ok ==> Ring() == old(Ring()) && dir.disk == old(dir.disk) && dir.trail == old(dir.trail)
                      && secrets.accept == old(secrets.accept) && previous == old(previous)
      ensures ok ==> Ring() == old(Ring()).Taken(key, generation)
      ensures ok ==> dir.trail == old(dir.trail) + TakeTrail(old(dir.disk), old(Ring()), key, generation)
      ensures ok ==> key in secrets.accept && dir.disk.rotation == Holds(state) && secrets.sign == current
      ensures old(RestartsAsItIs()) ==> (RestartsAsItIs() <==> !ok || key != old(current))
    {
      if key == "" || generation <= state.generation {
        return false;
      }
      if !saved {
        return false;
      }
      var next := state.(next := key, nextGeneration := generation);
      if Boot(dir.disk) == Some(Ring()) {
        TakeSurvivesBoot(dir.disk, Ring(), key, generation);
      }
      dir.SaveState(next);
      state := next;
      Install(now);
      return true;
    }

    /**
     Makes the pending key agent.key. keySaved and saved say whether its two writes succeed: without
     the first nothing changes, and without the second a boot finishes it. From the first
     write on every content of the disk boots as the whole switch. The key left is accepted for its
     grace.
     */
    method Switch(generation: nat, now: int, keySaved: bool, saved: bool) returns (ok: bool)
      requires Valid()
      modifies this, dir, secrets
      ensures Valid()
      ensures ok == (old(Ring()).CanSwitch(generation) && keySaved)
      ensures !ok ==> Ring() == old(Ring()) && dir.disk == old(dir.disk) && dir.trail == old(dir.trail)
                      && secrets.accept == old(secrets.accept) && previous == old(previous)
      ensures ok ==> Ring() == old(Ring()).Switched()
      ensures ok ==> dir.trail == old(dir.trail) + SwitchTrail(old(dir.disk), old(Ring()), saved)
      ensures ok ==> previous == old(current) && previousUntil == now + LEGACY_PROXY_GRACE
      ensures ok ==> secrets.sign == current && old(current) in secrets.accept
      ensures old(RestartsAsItIs()) ==> RestartsAsItIs()
      ensures old(RestartsAsItIs()) && ok ==>
                forall i :: |old(dir.trail)| <= i < |dir.trail| ==> Boot(dir.trail[i]) == Some(Ring())
    {
      if state.next == "" || state.nextGeneration != generation {
        return false;
      }
      if !keySaved {
        return false;
      }
      if Boot(dir.disk) == Some(Ring()) {
        SwitchSurvivesBoot(dir.disk, Ring(), saved);
      }
      ghost var before, ring := dir.disk, Ring();
      dir.SaveAgentKey(state.next);
      previous, previousUntil := current, now + LEGACY_PROXY_GRACE;
      current := state.next;
      state := KeyState(generation, "", 0);
      if saved {
        dir.SaveState(state);
      }
      assert dir.trail == old(dir.trail) + SwitchTrail(before, ring, saved);
      Install(now);
      return true;
    }
  }
}
