/**
 The replicated state every manager reads (internal/cluster/raft_fsm.go): the fold of the log, from
 its start or from a snapshot. Accounts, and a node's last-seen time, are not part of this model.
 */
module Fsm {
  import opened Options

  /** "" and None are a field left out. */
  datatype Node = Node(id: string, kind: string, role: string, status: string, apiAddress: string, grpcAddress: string,
                       labels: Option<map<string, string>>, addresses: Option<seq<string>>)

  datatype Command =
    | AddNode(node: Node) | RemoveNode(id: string) | UpdateNode(update: Node)
    | SetConfig(key: string, value: string) | DeleteConfig(key: string)
    | Disband(from: string)
    | Unreadable

  datatype State = State(nodes: map<string, Node>, config: map<string, string>)

  const EMPTY := State(map[], map[])

  function Or(update: string, was: string): string {
    if update != "" then update else was
  }

  /** What an update leaves of a node: what it says, over what was there. */
  function Updated(n: Node, u: Node): Node {
    Node(n.id, Or(u.kind, n.kind), Or(u.role, n.role), Or(u.status, n.status), Or(u.apiAddress, n.apiAddress),
         Or(u.grpcAddress, n.grpcAddress), if u.labels.Some? then u.labels else n.labels,
         if u.addresses.Some? then u.addresses else n.addresses)
  }

  function Applied(s: State, c: Command): State {
    match c
    case AddNode(node) => s.(nodes := s.nodes[node.id := node])
    case RemoveNode(id) => s.(nodes := s.nodes - {id})
    case UpdateNode(u) => if u.id in s.nodes then s.(nodes := s.nodes[u.id := Updated(s.nodes[u.id], u)]) else s
    case SetConfig(key, value) => s.(config := s.config[key := value])
    case DeleteConfig(key) => s.(config := s.config - {key})
    case Disband(_) => s
    case Unreadable => s
  }

  /** The state the first part of a log makes of s. */
  function Fold(s: State, log: seq<Command>): State {
    if log == [] then s else Applied(Fold(s, log[..|log| - 1]), log[|log| - 1])
  }

  lemma {:induction false} FoldConcat(s: State, a: seq<Command>, b: seq<Command>)
    ensures Fold(s, a + b) == Fold(Fold(s, a), b)
    decreases |b|
  {
    if b == [] {
      assert a + b == a;
    } else {
      assert (a + b)[..|a + b| - 1] == a + b[..|b| - 1];
      FoldConcat(s, a, b[..|b| - 1]);
    }
  }

  /** Whether the last command of log to name key sets it, and to what; None when none names it. */
  function LastWrite(log: seq<Command>, key: string): Option<Option<string>> {
    if log == [] then None
    else match log[|log| - 1]
         case SetConfig(k, v) => if k == key then Some(Some(v)) else LastWrite(log[..|log| - 1], key)
         case DeleteConfig(k) => if k == key then Some(None) else LastWrite(log[..|log| - 1], key)
         case _ => LastWrite(log[..|log| - 1], key)
  }

  /** A config key holds what the last write of it in the log left, whatever was written to other keys since. */
  lemma {:induction false} LastWriteWins(s: State, log: seq<Command>, key: string)
    ensures match LastWrite(log, key)
            case None => (key in Fold(s, log).config <==> key in s.config)
                         && (key in s.config ==> Fold(s, log).config[key] == s.config[key])
            case Some(None) => key !in Fold(s, log).config
            case Some(Some(v)) => key in Fold(s, log).config && Fold(s, log).config[key] == v
  {
    if log != [] {
      LastWriteWins(s, log[..|log| - 1], key);
    }
  }

  /** A node's record is under its own ID, always. */
  predicate Keyed(s: State) {
    forall id :: id in s.nodes ==> s.nodes[id].id == id
  }

  lemma {:induction false} FoldIsKeyed(s: State, log: seq<Command>)
    requires Keyed(s)
    ensures Keyed(Fold(s, log))
  {
    if log != [] {
      FoldIsKeyed(s, log[..|log| - 1]);
    }
  }

  // --- What the log leaves of a node ---

  /** Whether the last command to add or remove the node adds it. */
  predicate Joined(log: seq<Command>, id: string) {
    log != [] &&
    match log[|log| - 1]
    case AddNode(node) => node.id == id || Joined(log[..|log| - 1], id)
    case RemoveNode(gone) => gone != id && Joined(log[..|log| - 1], id)
    case _ => Joined(log[..|log| - 1], id)
  }

  datatype Field = Kind | Role | Status | ApiAddress | GrpcAddress

  function Get(n: Node, f: Field): string {
    match f
    case Kind => n.kind
    case Role => n.role
    case Status => n.status
    case ApiAddress => n.apiAddress
    case GrpcAddress => n.grpcAddress
  }

  /** What the log says of a field of the node: its last addition's, or what an update has said since. */
  function LastSaid(log: seq<Command>, id: string, f: Field): string {
    if log == [] then "" else
    var before := LastSaid(log[..|log| - 1], id, f);
    match log[|log| - 1]
    case AddNode(node) => if node.id == id then Get(node, f) else before
    case UpdateNode(u) => if u.id == id && Get(u, f) != "" then Get(u, f) else before
    case _ => before
  }

  /** The labels, and the addresses, likewise. */
  function LastListed(log: seq<Command>, id: string): (Option<map<string, string>>, Option<seq<string>>) {
    if log == [] then (None, None) else
    var before := LastListed(log[..|log| - 1], id);
    match log[|log| - 1]
    case AddNode(node) => if node.id == id then (node.labels, node.addresses) else before
    case UpdateNode(u) =>
      if u.id == id then (if u.labels.Some? then u.labels else before.0, if u.addresses.Some? then u.addresses else before.1)
      else before
    case _ => before
  }

  lemma {:induction false} NodeIsThere(log: seq<Command>, id: string)
    ensures id in Fold(EMPTY, log).nodes <==> Joined(log, id)
  {
    if log != [] {
      NodeIsThere(log[..|log| - 1], id);
    }
  }

  lemma {:induction false} FieldIsAsSaid(log: seq<Command>, id: string, f: Field)
    requires id in Fold(EMPTY, log).nodes
    ensures Get(Fold(EMPTY, log).nodes[id], f) == LastSaid(log, id, f)
  {
    var before, last := log[..|log| - 1], log[|log| - 1];
    if id in Fold(EMPTY, before).nodes {
      FieldIsAsSaid(before, id, f);
    }
  }

  lemma {:induction false} ListsAreAsSaid(log: seq<Command>, id: string)
    requires id in Fold(EMPTY, log).nodes
    ensures var n := Fold(EMPTY, log).nodes[id]; (n.labels, n.addresses) == LastListed(log, id)
  {
    var before := log[..|log| - 1];
    if id in Fold(EMPTY, before).nodes {
      ListsAreAsSaid(before, id);
    }
  }

  /**
   A node is there exactly when it was added and not removed since, under its own ID, and each field
   holds what was last said of it: an update that leaves one out keeps it.
   */
  lemma NodeIsAsSaid(log: seq<Command>, id: string)
    ensures id in Fold(EMPTY, log).nodes <==> Joined(log, id)
    ensures id in Fold(EMPTY, log).nodes ==>
              var n := Fold(EMPTY, log).nodes[id];
              && n.id == id && (forall f :: Get(n, f) == LastSaid(log, id, f))
              && (n.labels, n.addresses) == LastListed(log, id)
  {
    NodeIsThere(log, id);
    FoldIsKeyed(EMPTY, log);
    if id in Fold(EMPTY, log).nodes {
      forall f ensures Get(Fold(EMPTY, log).nodes[id], f) == LastSaid(log, id, f) {
        FieldIsAsSaid(log, id, f);
      }
      ListsAreAsSaid(log, id);
    }
  }

  /** A snapshot, from this release or from one that left a map out. */
  datatype Snap = Snap(nodes: Option<map<string, Node>>, config: Option<map<string, string>>)

  function Taken(s: State): Snap {
    Snap(Some(s.nodes), Some(s.config))
  }

  function Restored(snap: Snap): State {
    State(if snap.nodes.Some? then snap.nodes.value else map[], if snap.config.Some? then snap.config.value else map[])
  }

  /** The keys config has in one state and not, or otherwise, in another. */
  ghost predicate Differs(a: State, b: State, key: string) {
    (key in a.config) != (key in b.config) || (key in a.config && a.config[key] != b.config[key])
  }

  datatype Event = ConfigChanged(key: string) | Disbanded(from: string)

  /** The state, the log it came from, and what the manager has been told. */
  class FSM {
    var state: State
    var replayUpTo: nat
    var events: seq<Event>
    // The log the state is the fold of.
    ghost var log: seq<Command>

    ghost predicate Valid()
      reads this
    {
      state == Fold(EMPTY, log)
    }

    constructor (replayUpTo: nat)
      ensures Valid() && log == [] && this.replayUpTo == replayUpTo && events == []
    {
      state, this.replayUpTo, events, log := EMPTY, replayUpTo, [], [];
    }

    /**
     The log's next entry. Every config key it changes is told of; a disband is, unless the entry was
     there before the process started.
     */
    method Apply(c: Command, index: nat) returns (ok: bool)
      requires Valid()
      modifies `state, `events, `log
      ensures Valid() && log == old(log) + [c] && state == Applied(old(state), c)
      ensures ok == (c != Unreadable)
      ensures |old(events)| <= |events| && old(events) == events[..|old(events)|]
      ensures forall key :: Differs(old(state), state, key) ==> ConfigChanged(key) in events[|old(events)|..]
      ensures c.Disband? ==> (Disbanded(c.from) in events[|old(events)|..] <==> replayUpTo == 0 || index > replayUpTo)
    {
      log := log + [c];
      assert log[..|log| - 1] == old(log);
      match c {
        case AddNode(node) => state := state.(nodes := state.nodes[node.id := node]);
        case RemoveNode(id) => state := state.(nodes := state.nodes - {id});
        case UpdateNode(u) =>
          if u.id in state.nodes {
            state := state.(nodes := state.nodes[u.id := Updated(state.nodes[u.id], u)]);
          }
        case SetConfig(key, value) =>
          state := state.(config := state.config[key := value]);
          events := events + [ConfigChanged(key)];
          assert events[|old(events)|..] == [ConfigChanged(key)];
        case DeleteConfig(key) =>
          state := state.(config := state.config - {key});
          events := events + [ConfigChanged(key)];
          assert events[|old(events)|..] == [ConfigChanged(key)];
        case Disband(from) =>
          if replayUpTo > 0 && index <= replayUpTo {
            return true;
          }
          events := events + [Disbanded(from)];
          assert events[|old(events)|..] == [Disbanded(from)];
        case Unreadable => return false;
      }
      return true;
    }

    method Snapshot() returns (snap: Snap)
      requires Valid()
      ensures snap == Taken(state)
    {
      return Snap(Some(state.nodes), Some(state.config));
    }

    /**
     A snapshot in place of the state; it may have changed any key, which "" tells. When it holds
     what a log makes, a map it leaves out being empty, the state is that log's.
     */
    method Restore(snap: Snap, ghost from: seq<Command>)
      requires Restored(snap) == Fold(EMPTY, from)
      modifies `state, `events, `log
      ensures Valid() && log == from && state == Restored(snap)
      ensures events == old(events) + [ConfigChanged("")]
    {
      state := State(if snap.nodes.Some? then snap.nodes.value else map[],
                     if snap.config.Some? then snap.config.value else map[]);
      log := from;
      events := events + [ConfigChanged("")];
    }

    /** The entries after a snapshot, one by one. */
    method Replay(entries: seq<Command>, first: nat)
      requires Valid()
      modifies `state, `events, `log
      ensures Valid() && log == old(log) + entries
    {
      for i := 0 to |entries|
        invariant Valid() && log == old(log) + entries[..i]
      {
        assert entries[..i + 1] == entries[..i] + [entries[i]];
        var _ := Apply(entries[i], first + i);
      }
    }
  }

  /** A snapshot after any first part of a log, and the rest replayed, make the state of the whole log. */
  lemma SnapshotAndRest(log: seq<Command>, k: nat)
    requires k <= |log|
    ensures Fold(Restored(Taken(Fold(EMPTY, log[..k]))), log[k..]) == Fold(EMPTY, log)
  {
    FoldConcat(EMPTY, log[..k], log[k..]);
    assert log[..k] + log[k..] == log;
  }
}
