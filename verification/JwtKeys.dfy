/**
 The cluster's JWT key (internal/cluster/jwt_rotation.go, grpc_server.go, join.go): generations a
 leader writes, the plain key beside them, the key each manager runs and what a joiner is handed.
 */
module JwtKeys {
  import opened Options

  datatype JWTKey = JWTKey(generation: int, secret: string)

  /** jwt_key: not there, not parsing, or a key. */
  datatype Record = Absent | Garbled | Holds(key: JWTKey)

  /** jwt_key and jwt_secret; "" is no plain key. */
  datatype Slots = Slots(record: Record, plain: string)

  /** clusterJWTKey: the record, else the plain key as generation 0. */
  function ClusterKey(s: Slots): Option<JWTKey> {
    if s.record.Holds? && s.record.key.secret != "" && s.record.key.generation > 0 then Some(s.record.key)
    else if s.plain != "" then Some(JWTKey(0, s.plain))
    else None
  }

  datatype Write = SetRecord(key: JWTKey) | SetPlain(secret: string)

  function Put(s: Slots, w: Write): Slots {
    match w
    case SetRecord(key) => s.(record := Holds(key))
    case SetPlain(secret) => s.(plain := secret)
  }

  /** The states as writes land, one after each. */
  function States(s: Slots, ws: seq<Write>): seq<Slots>
    decreases |ws|
  {
    if ws == [] then [] else [Put(s, ws[0])] + States(Put(s, ws[0]), ws[1..])
  }

  function Final(s: Slots, ws: seq<Write>): Slots
    decreases |ws|
  {
    if ws == [] then s else Final(Put(s, ws[0]), ws[1..])
  }

  /** The generation a rotation writes next; None where the record does not parse. */
  function NextGeneration(s: Slots): Option<int> {
    var cur := if ClusterKey(s).Some? then ClusterKey(s).value.generation else 0;
    if s.record != Absent && cur == 0 then None else Some(cur + 1)
  }

  /** A rotation's two writes, the record first. */
  function RotateWrites(s: Slots, made: string): seq<Write> {
    if NextGeneration(s) == None then [] else [SetRecord(JWTKey(NextGeneration(s).value, made)), SetPlain(made)]
  }

  function RepairWrites(s: Slots): seq<Write> {
    var secret := if ClusterKey(s).Some? then ClusterKey(s).value.secret else "";
    if s.plain == secret then [] else [SetPlain(secret)]
  }

  /** The key a manager runs after it is shown s. */
  function Applied(running: JWTKey, s: Slots): JWTKey {
    if ClusterKey(s).Some? && ClusterKey(s).value.generation > running.generation then ClusterKey(s).value else running
  }

  /** A record that does not read leaves the plain key in force, and is never written over. */
  lemma UnreadIsLeft(s: Slots, made: string)
    requires s.record == Garbled || (s.record.Holds? && (s.record.key.secret == "" || s.record.key.generation <= 0))
    ensures ClusterKey(s) == (if s.plain != "" then Some(JWTKey(0, s.plain)) else None)
    ensures NextGeneration(s) == None && RotateWrites(s, made) == []
  {
  }

  /** A record that reads is the cluster's key whatever the plain one says, and a rotation writes the next generation over both. */
  lemma ReadIsNext(s: Slots, made: string)
    requires s.record.Holds? && s.record.key.secret != "" && s.record.key.generation > 0 && made != ""
    ensures ClusterKey(s) == Some(s.record.key)
    ensures Final(s, RotateWrites(s, made)) == Slots(Holds(JWTKey(s.record.key.generation + 1, made)), made)
    ensures Final(s, RepairWrites(s)) == Slots(s.record, s.record.key.secret)
  {
    RotateMakes(s, made);
    RepairMakes(s);
  }

  lemma RotateMakes(s: Slots, made: string)
    requires NextGeneration(s).Some?
    ensures Final(s, RotateWrites(s, made)) == Slots(Holds(JWTKey(NextGeneration(s).value, made)), made)
  {
    FinalOfTwo(s, SetRecord(JWTKey(NextGeneration(s).value, made)), SetPlain(made));
  }

  lemma RepairMakes(s: Slots)
    requires ClusterKey(s).Some?
    ensures Final(s, RepairWrites(s)) == s.(plain := ClusterKey(s).value.secret)
  {
    FinalOfOne(s, SetPlain(ClusterKey(s).value.secret));
  }

  lemma FinalOfOne(s: Slots, w: Write)
    ensures Final(s, [w]) == Put(s, w)
  {
    assert [w][1..] == [];
  }

  lemma FinalOfTwo(s: Slots, a: Write, b: Write)
    ensures Final(s, [a, b]) == Put(Put(s, a), b)
  {
    assert [a, b][1..] == [b];
    FinalOfOne(Put(s, a), b);
  }

  // --- The cluster ---

  datatype World = World(hist: seq<Slots>, nodes: map<string, JWTKey>, used: set<string>)

  datatype Step =
    | Rotate(made: string, landed: nat)
    | Repair
    | Apply(id: string, i: nat)
    | Join(id: string, gen: nat, key: nat)

  function Now(w: World): Slots
    requires w.hist != []
  {
    w.hist[|w.hist| - 1]
  }

  /**
   A manager may be shown any state there was. A join's answer reads the generation from one and the
   key from the same or a later one.
   */
  predicate Enabled(w: World, s: Step) {
    && w.hist != []
    && match s
       case Rotate(made, landed) => made !in w.used && made != "" && landed <= |RotateWrites(Now(w), made)|
       case Repair => true
       case Apply(id, i) => id in w.nodes && i < |w.hist|
       case Join(id, gen, key) => gen <= key < |w.hist| && ClusterKey(w.hist[gen]).Some? && ClusterKey(w.hist[key]).Some?
  }

  function Do(w: World, s: Step): World
    requires Enabled(w, s)
  {
    match s
    case Rotate(made, landed) =>
      w.(hist := w.hist + States(Now(w), RotateWrites(Now(w), made)[..landed]), used := w.used + {made})
    case Repair => w.(hist := w.hist + States(Now(w), RepairWrites(Now(w))))
    case Apply(id, i) => w.(nodes := w.nodes[id := Applied(w.nodes[id], w.hist[i])])
    case Join(id, gen, key) =>
      w.(nodes := w.nodes[id := JWTKey(ClusterKey(w.hist[gen]).value.generation, ClusterKey(w.hist[key]).value.secret)])
  }

  /** A cluster as its init makes it: the plain key, which its managers run. */
  ghost predicate Init(w: World) {
    exists plain :: plain != "" && w.hist == [Slots(Absent, plain)] && w.used == {plain}
                    && forall id :: id in w.nodes ==> w.nodes[id] == JWTKey(0, plain)
  }

  predicate Runs(w: World, steps: seq<Step>)
    decreases |steps|
  {
    steps == [] || (Enabled(w, steps[0]) && Runs(Do(w, steps[0]), steps[1..]))
  }

  function After(w: World, steps: seq<Step>): World
    requires Runs(w, steps)
    decreases |steps|
  {
    if steps == [] then w else After(Do(w, steps[0]), steps[1..])
  }

  predicate Sound(s: Slots) {
    s.plain != "" && (s.record == Absent || (s.record.Holds? && s.record.key.generation > 0 && s.record.key.secret != ""))
  }

  function Key(s: Slots): JWTKey
    requires Sound(s)
  {
    ClusterKey(s).value
  }

  /** One state to the next: the same key, or the next generation. */
  predicate Follows(s: Slots, next: Slots) {
    Sound(s) && Sound(next) && (Key(next) == Key(s) || Key(next).generation == Key(s).generation + 1)
  }

  predicate HistInv(hist: seq<Slots>) {
    hist != [] && (forall i :: 0 <= i < |hist| ==> Sound(hist[i])) && forall i :: 0 < i < |hist| ==> Follows(hist[i - 1], hist[i])
  }

  /** Generations never fall along the log, and each names one key. */
  lemma {:induction false} OneKeyAGeneration(hist: seq<Slots>, i: nat, j: nat)
    requires HistInv(hist) && i <= j < |hist|
    ensures Key(hist[i]).generation <= Key(hist[j]).generation
    ensures Key(hist[i]).generation == Key(hist[j]).generation ==> Key(hist[i]) == Key(hist[j])
    decreases j
  {
    if i < j {
      OneKeyAGeneration(hist, i, j - 1);
      assert Follows(hist[j - 1], hist[j]);
    }
  }

  /** What a node runs is the cluster's key of its generation or of a later one. */
  predicate NodeInv(hist: seq<Slots>, n: JWTKey) {
    exists i :: 0 <= i < |hist| && RunsFrom(hist, n, i)
  }

  predicate RunsFrom(hist: seq<Slots>, n: JWTKey, i: nat)
    requires i < |hist|
  {
    Sound(hist[i]) && n.secret == Key(hist[i]).secret && n.generation <= Key(hist[i]).generation
  }

  predicate Inv(w: World) {
    HistInv(w.hist) && forall id :: id in w.nodes ==> NodeInv(w.hist, w.nodes[id])
  }

  lemma HistGrows(hist: seq<Slots>, states: seq<Slots>)
    requires HistInv(hist) && forall i :: 0 <= i < |states| ==> Sound(states[i])
    requires states != [] ==> Follows(hist[|hist| - 1], states[0])
    requires forall i :: 0 < i < |states| ==> Follows(states[i - 1], states[i])
    ensures HistInv(hist + states)
  {
    var all := hist + states;
    forall i | 0 < i < |all| ensures Follows(all[i - 1], all[i]) {
      if i > |hist| {
        assert Follows(states[i - |hist| - 1], states[i - |hist|]);
      }
    }
  }

  lemma NodesStay(w: World, hist': seq<Slots>)
    requires Inv(w) && w.hist <= hist'
    ensures forall id :: id in w.nodes ==> NodeInv(hist', w.nodes[id])
  {
    forall id | id in w.nodes ensures NodeInv(hist', w.nodes[id]) {
      var i :| 0 <= i < |w.hist| && RunsFrom(w.hist, w.nodes[id], i);
      assert RunsFrom(hist', w.nodes[id], i);
    }
  }

  lemma RotateKeeps(w: World, made: string, landed: nat)
    requires Inv(w) && Enabled(w, Rotate(made, landed))
    ensures Inv(Do(w, Rotate(made, landed)))
  {
    var s := Now(w);
    assert Sound(s);
    var ws := RotateWrites(s, made)[..landed];
    if landed > 0 {
      assert ws[0] == SetRecord(JWTKey(NextGeneration(s).value, made));
      if landed == 2 {
        assert States(Put(s, ws[0]), ws[1..]) == [Put(Put(s, ws[0]), ws[1])];
      }
    }
    HistGrows(w.hist, States(s, ws));
    NodesStay(w, w.hist + States(s, ws));
  }

  lemma RepairIsOne(s: Slots)
    ensures var states := States(s, RepairWrites(s)); states == [] || states == [Put(s, RepairWrites(s)[0])]
  {
    var ws := RepairWrites(s);
    if ws != [] {
      assert ws[1..] == [];
    }
  }

  lemma StepKeeps(w: World, s: Step)
    requires Inv(w) && Enabled(w, s)
    ensures Inv(Do(w, s)) && w.hist <= Do(w, s).hist
    ensures forall id :: id in w.nodes && (!s.Join? || s.id != id) ==>
                           id in Do(w, s).nodes && w.nodes[id].generation <= Do(w, s).nodes[id].generation
  {
    match s
    case Rotate(made, landed) => RotateKeeps(w, made, landed);
    case Repair =>
      assert Sound(Now(w));
      RepairIsOne(Now(w));
      HistGrows(w.hist, States(Now(w), RepairWrites(Now(w))));
      NodesStay(w, w.hist + States(Now(w), RepairWrites(Now(w))));
    case Apply(id, i) =>
      assert RunsFrom(w.hist, Key(w.hist[i]), i);
    case Join(id, gen, key) =>
      OneKeyAGeneration(w.hist, gen, key);
      assert RunsFrom(w.hist, Do(w, s).nodes[id], key);
  }

  lemma {:induction false} RunKeeps(w: World, steps: seq<Step>)
    requires Inv(w) && Runs(w, steps)
    ensures Inv(After(w, steps)) && w.hist <= After(w, steps).hist
    decreases |steps|
  {
    if steps != [] {
      StepKeeps(w, steps[0]);
      RunKeeps(Do(w, steps[0]), steps[1..]);
    }
  }

  lemma InitHolds(w: World)
    requires Init(w)
    ensures Inv(w)
  {
    forall id | id in w.nodes ensures NodeInv(w.hist, w.nodes[id]) {
      assert RunsFrom(w.hist, w.nodes[id], 0);
    }
  }

  /**
   In every run a node of the newest generation runs the newest key — one that joined between a
   rotation's writes or in the middle of one too — and none runs a generation not yet written.
   */
  lemma NewestRunsNewest(w0: World, steps: seq<Step>, id: string)
    requires Init(w0) && Runs(w0, steps) && id in After(w0, steps).nodes
    ensures var w := After(w0, steps);
            && w.hist != [] && ClusterKey(Now(w)).Some? && w.nodes[id].generation <= ClusterKey(Now(w)).value.generation
            && (w.nodes[id].generation == ClusterKey(Now(w)).value.generation ==> w.nodes[id] == ClusterKey(Now(w)).value)
  {
    InitHolds(w0);
    RunKeeps(w0, steps);
    var w := After(w0, steps);
    var i :| 0 <= i < |w.hist| && RunsFrom(w.hist, w.nodes[id], i);
    OneKeyAGeneration(w.hist, i, |w.hist| - 1);
  }

  /** A node once shown the newest state runs the newest key, whatever it ran: a joiner given an older generation included. */
  lemma ShownRunsNewest(w0: World, steps: seq<Step>, id: string)
    requires Init(w0) && Runs(w0, steps) && id in After(w0, steps).nodes
    ensures var w := After(w0, steps); w.hist != [] && Some(Applied(w.nodes[id], Now(w))) == ClusterKey(Now(w))
  {
    NewestRunsNewest(w0, steps, id);
  }

  /** A manager's generation never falls while it stays a member. */
  lemma {:induction false} GenerationNeverFalls(w: World, steps: seq<Step>, id: string)
    requires Inv(w) && Runs(w, steps) && id in w.nodes
    requires forall i :: 0 <= i < |steps| && steps[i].Join? ==> steps[i].id != id
    ensures id in After(w, steps).nodes && w.nodes[id].generation <= After(w, steps).nodes[id].generation
    decreases |steps|
  {
    if steps != [] {
      StepKeeps(w, steps[0]);
      GenerationNeverFalls(Do(w, steps[0]), steps[1..], id);
    }
  }

  /**
   Read in the other order, a join's answer gives a key a rotation retired under the generation that
   retired it, exactly when the rotation came between the reads. The node keeps it whatever it is
   shown, until a state of a generation newer still.
   */
  lemma OtherOrderStrands(hist: seq<Slots>, key: nat, gen: nat, shown: nat)
    requires HistInv(hist) && key <= gen < |hist| && shown < |hist|
    requires forall i, j :: 0 <= i < j < |hist| && Key(hist[i]).generation != Key(hist[j]).generation
                            ==> Key(hist[i]).secret != Key(hist[j]).secret
    ensures var n := JWTKey(Key(hist[gen]).generation, Key(hist[key]).secret);
            && (n != Key(hist[gen]) <==> Key(hist[key]).generation != Key(hist[gen]).generation)
            && (Applied(n, hist[shown]) == n <==> Key(hist[shown]).generation <= Key(hist[gen]).generation)
            && (Applied(n, hist[shown]) != n ==> Applied(n, hist[shown]) == Key(hist[shown]))
  {
    OneKeyAGeneration(hist, key, gen);
  }

  lemma TwoWrites(s: Slots, ws: seq<Write>)
    requires |ws| == 2
    ensures var s1 := Put(s, ws[0]);
            && States(s, ws[..1]) == [s1] && Final(s, ws[..1]) == s1
            && States(s, ws[..2]) == [s1, Put(s1, ws[1])] && Final(s, ws[..2]) == Put(s1, ws[1])
  {
    var s1 := Put(s, ws[0]);
    assert ws[..1][1..] == [] && ws[..2] == ws && ws[1..][1..] == [];
    assert States(s, ws) == [s1] + States(s1, ws[1..]) && States(s1, ws[1..]) == [Put(s1, ws[1])];
    assert Final(s, ws) == Final(s1, ws[1..]) && Final(s1, ws[1..]) == Put(s1, ws[1]);
  }

  // --- A manager ---

  datatype RotateAnswer = Rotated(generation: int) | NotLeader | Waiting | CannotApply | DoesNotParse | NotReplicated

  /** budget is how many of a leader's writes land. */
  class JWTManager {
    var slots: Slots
    var running: JWTKey
    var wired: bool
    var budget: nat
    ghost var trail: seq<Slots>

    constructor (slots: Slots, running: JWTKey, wired: bool, budget: nat)
      ensures this.slots == slots && this.running == running && this.wired == wired && this.budget == budget && trail == []
    {
      this.slots, this.running, this.wired, this.budget, this.trail := slots, running, wired, budget, [];
    }

    /** Runs a newer key replicated state shows; one that is not newer, or cannot be applied, changes nothing. */
    method ApplyJWTKey(shown: Slots, works: bool)
      modifies `running
      ensures running == if wired && works then Applied(old(running), shown) else old(running)
      ensures running.generation >= old(running).generation
    {
      if !wired {
        return;
      }
      var k := ClusterKey(shown);
      if k == None || k.value.generation <= running.generation {
        return;
      }
      if works {
        running := k.value;
      }
    }

    method Commit(w: Write) returns (ok: bool)
      modifies `slots, `budget, `trail
      ensures ok == (old(budget) > 0) && budget == (if ok then old(budget) - 1 else 0)
      ensures slots == if ok then Put(old(slots), w) else old(slots)
      ensures trail == if ok then old(trail) + [slots] else old(trail)
    {
      if budget == 0 {
        return false;
      }
      slots := Put(slots, w);
      budget := budget - 1;
      trail := trail + [slots];
      return true;
    }

    /** A new key under the next generation: the record, then the plain key, as far as the writes land. */
    method RotateJWTKey(caughtUp: bool, ready: bool, made: string) returns (answer: RotateAnswer)
      modifies `slots, `budget, `trail
      ensures answer.Rotated? <==> caughtUp && ready && wired && old(budget) > 0 && NextGeneration(old(slots)).Some?
      ensures answer == DoesNotParse <==> caughtUp && ready && wired && NextGeneration(old(slots)) == None
      ensures answer.Rotated? ==>
                && answer.generation == NextGeneration(old(slots)).value
                && ClusterKey(slots) == (if made != "" && answer.generation > 0 then Some(JWTKey(answer.generation, made)) else ClusterKey(slots))
                && (exists landed: nat :: 0 < landed <= 2
                      && trail == old(trail) + States(old(slots), RotateWrites(old(slots), made)[..landed])
                      && slots == Final(old(slots), RotateWrites(old(slots), made)[..landed])
                      && (old(budget) >= 2 ==> landed == 2))
      ensures !answer.Rotated? ==> slots == old(slots) && trail == old(trail)
    {
      if !caughtUp {
        return NotLeader;
      }
      if !ready {
        return Waiting;
      }
      if !wired {
        return CannotApply;
      }
      var cur := ClusterKey(slots);
      var generation := if cur.Some? then cur.value.generation else 0;
      if slots.record != Absent && generation == 0 {
        return DoesNotParse;
      }
      ghost var ws := RotateWrites(slots, made);
      var ok := Commit(SetRecord(JWTKey(generation + 1, made)));
      if !ok {
        return NotReplicated;
      }
      TwoWrites(old(slots), ws);
      ok := Commit(SetPlain(made));
      if ok {
        assert trail == old(trail) + States(old(slots), ws[..2]);
      }
      return Rotated(generation + 1);
    }

    /** The plain key is the cluster's again, when the write lands; the cluster's key stays what it is. */
    method RepairJWTMirror(caughtUp: bool)
      modifies `slots, `budget, `trail
      ensures caughtUp && old(budget) > 0 ==> slots == Final(old(slots), RepairWrites(old(slots)))
      ensures !caughtUp || old(budget) == 0 ==> slots == old(slots)
      ensures ClusterKey(slots) == ClusterKey(old(slots))
      ensures caughtUp && old(budget) > 0 && ClusterKey(slots).Some? ==> slots.plain == ClusterKey(slots).value.secret
    {
      if !caughtUp {
        return;
      }
      var k := ClusterKey(slots);
      var secret := if k.Some? then k.value.secret else "";
      if slots.plain == secret {
        return;
      }
      var _ := Commit(SetPlain(secret));
    }
  }
}
