/**
 The connections a node's listeners have accepted, and the CAs it trusts (internal/cluster/conn_trust.go,
 tls.go): handshakes, closes and reloads of the trust interleaved at every lock they take.
 */
module ConnTrust {
  import opened Options

  type Pin = string
  type Conn = nat

  /**
   Trust and tracked connections have a lock each. admitting is a handshake holding the connections'
   lock past its look at the trust; reloads are the trusts reloaded whose close is still to come;
   closing are connections no longer tracked and not yet closed.
   */
  datatype World = World(
    trust: seq<Pin>, conns: map<Conn, Pin>, admitting: Option<(Conn, Pin)>,
    reloads: seq<seq<Pin>>, closing: set<Conn>, open: map<Conn, Pin>, used: set<Conn>)

  datatype Step =
    | Look(raw: Conn, root: Pin)
    | Admit
    | Forget(raw: Conn)
    | Reload(trust: seq<Pin>)
    | CloseUntrusted(k: nat)
    | Shut(raw: Conn)

  /** The connections a CA in pins verified. */
  function Verified(conns: map<Conn, Pin>, pins: seq<Pin>): map<Conn, Pin> {
    map c | c in conns && conns[c] in pins :: conns[c]
  }

  function Stale(conns: map<Conn, Pin>, pins: seq<Pin>): set<Conn> {
    set c | c in conns && conns[c] !in pins
  }

  predicate Enabled(w: World, s: Step) {
    match s
    case Look(raw, root) => w.admitting == None && raw !in w.used && root in w.trust
    case Admit => w.admitting.Some?
    case Forget(raw) => w.admitting == None
    case Reload(trust) => trust != []
    case CloseUntrusted(k) => w.admitting == None && k < |w.reloads|
    case Shut(raw) => raw in w.closing
  }

  function Do(w: World, s: Step): World
    requires Enabled(w, s)
  {
    match s
    case Look(raw, root) => w.(admitting := Some((raw, root)), used := w.used + {raw})
    case Admit =>
      var (raw, root) := w.admitting.value;
      w.(admitting := None, conns := w.conns[raw := root], open := w.open[raw := root])
    case Forget(raw) =>
      if raw in w.conns then w.(conns := w.conns - {raw}, closing := w.closing + {raw}) else w
    case Reload(trust) => w.(trust := trust, reloads := w.reloads + [trust])
    case CloseUntrusted(k) =>
      var pins := w.reloads[k];
      w.(conns := Verified(w.conns, pins), closing := w.closing + Stale(w.conns, pins),
         reloads := w.reloads[..k] + w.reloads[k + 1..])
    case Shut(raw) => w.(closing := w.closing - {raw}, open := w.open - {raw})
  }

  predicate Init(w: World) {
    w.conns == map[] && w.admitting == None && w.reloads == [] && w.closing == {} && w.open == map[] && w.trust != []
  }

  predicate Runs(w: World, steps: seq<Step>)
    decreases |steps|
  {
    steps == [] || (Enabled(w, steps[0]) && Runs(Do(w, steps[0]), steps[1..]))
  }

  function After(w: World, steps: seq<Step>): World
    requires Runs(w, steps)
    decreases |steps|
  {
    if steps == [] then w else After(Do(w, steps[0]), steps[1..])
  }

  /** A root is trusted, or a reload that does not trust it has its close to come. */
  predicate Covered(w: World, root: Pin) {
    root in w.trust || exists k :: 0 <= k < |w.reloads| && root !in w.reloads[k]
  }

  predicate Inv(w: World) {
    && (forall c :: c in w.conns ==> Covered(w, w.conns[c]) && c in w.used && c in w.open && w.open[c] == w.conns[c])
    && (forall c :: c in w.open ==> c in w.used && (c in w.conns || c in w.closing))
    && (w.admitting.Some? ==> Covered(w, w.admitting.value.1) && w.admitting.value.0 in w.used
                              && w.admitting.value.0 !in w.open && w.admitting.value.0 !in w.closing)
    && (forall c :: c in w.closing ==> c in w.used && c !in w.conns)
  }

  lemma ReloadKeeps(w: World, trust: seq<Pin>, root: Pin)
    requires Covered(w, root)
    ensures Covered(w.(trust := trust, reloads := w.reloads + [trust]), root)
  {
    var w' := w.(trust := trust, reloads := w.reloads + [trust]);
    if root in w.trust {
      assert w'.reloads[|w.reloads|] == trust;
    } else {
      var k :| 0 <= k < |w.reloads| && root !in w.reloads[k];
      assert w'.reloads[k] == w.reloads[k];
    }
  }

  /** A close takes away the reload it came from, and only connections that reload does not trust. */
  lemma CloseKeeps(w: World, k: nat, root: Pin)
    requires Covered(w, root) && k < |w.reloads| && root in w.reloads[k]
    ensures Covered(w.(reloads := w.reloads[..k] + w.reloads[k + 1..]), root)
  {
    var w' := w.(reloads := w.reloads[..k] + w.reloads[k + 1..]);
    if root !in w.trust {
      var j :| 0 <= j < |w.reloads| && root !in w.reloads[j];
      assert w'.reloads[if j < k then j else j - 1] == w.reloads[j];
    }
  }

  lemma StepKeeps(w: World, s: Step)
    requires Inv(w) && Enabled(w, s)
    ensures Inv(Do(w, s))
  {
    var w' := Do(w, s);
    match s {
      case Reload(trust) =>
        forall c | c in w.conns ensures Covered(w', w.conns[c]) { ReloadKeeps(w, trust, w.conns[c]); }
        if w.admitting.Some? { ReloadKeeps(w, trust, w.admitting.value.1); }
      case CloseUntrusted(k) =>
        forall c | c in w'.conns ensures Covered(w', w'.conns[c]) { CloseKeeps(w, k, w.conns[c]); }
      case Look(_, root) =>
        assert forall r :: Covered(w, r) ==> Covered(w', r);
        assert Covered(w', root);
      case _ =>
        assert forall r :: Covered(w, r) ==> Covered(w', r);
    }
  }

  lemma {:induction false} RunKeeps(w: World, steps: seq<Step>)
    requires Inv(w) && Runs(w, steps)
    ensures Inv(After(w, steps))
    decreases |steps|
  {
    if steps != [] {
      StepKeeps(w, steps[0]);
      RunKeeps(Do(w, steps[0]), steps[1..]);
    }
  }

  /**
   However handshakes, closes and reloads interleave: an open connection is on its way to be closed,
   or its CA is trusted, or a reload that stopped trusting that CA has yet to close it.
   */
  lemma OpenIsCovered(w0: World, steps: seq<Step>, raw: Conn)
    requires Init(w0) && Runs(w0, steps) && raw in After(w0, steps).open
    ensures var w := After(w0, steps); raw in w.closing || Covered(w, w.open[raw])
  {
    RunKeeps(w0, steps);
  }

  /** With every reload's close done and its connections closed, no open connection's CA is untrusted. */
  lemma SettledIsTrusted(w0: World, steps: seq<Step>, raw: Conn)
    requires Init(w0) && Runs(w0, steps) && raw in After(w0, steps).open
    requires After(w0, steps).reloads == [] && After(w0, steps).closing == {}
    ensures After(w0, steps).open[raw] in After(w0, steps).trust
  {
    RunKeeps(w0, steps);
  }

  /** What is tracked, or about to be, was verified by a CA in trust. */
  predicate AllFrom(w: World, trust: seq<Pin>) {
    (forall c :: c in w.conns ==> w.conns[c] in trust) && (w.admitting.Some? ==> w.admitting.value.1 in trust)
  }

  lemma {:induction false} StaysFrom(w: World, steps: seq<Step>, trust: seq<Pin>)
    requires Runs(w, steps) && AllFrom(w, trust) && w.trust == trust
    requires forall i :: 0 <= i < |steps| ==> !steps[i].Reload?
    ensures AllFrom(After(w, steps), trust)
    decreases |steps|
  {
    if steps != [] {
      StaysFrom(Do(w, steps[0]), steps[1..], trust);
    }
  }

  /**
   Once a reload's close is done no tracked connection is from a CA outside the trust it loaded, and
   while that trust stands none comes in again.
   */
  lemma CloseIsFinal(w: World, k: nat, steps: seq<Step>)
    requires Enabled(w, CloseUntrusted(k)) && w.trust == w.reloads[k]
    requires Runs(Do(w, CloseUntrusted(k)), steps) && forall i :: 0 <= i < |steps| ==> !steps[i].Reload?
    ensures AllFrom(After(Do(w, CloseUntrusted(k)), steps), w.reloads[k])
  {
    StaysFrom(Do(w, CloseUntrusted(k)), steps, w.reloads[k]);
  }

  // --- The manager's connections ---

  datatype Admission = Untracked | Admitted | Refused

  class TLSConns {
    var trust: seq<Pin>
    var conns: map<Conn, Pin>
    var closed: set<Conn>

    constructor (trust: seq<Pin>)
      ensures this.trust == trust && conns == map[] && closed == {}
    {
      this.trust, conns, closed := trust, map[], {};
    }

    /** Tracks raw by the last CA of its chain, when that is trusted still; with no chain there is nothing to track. */
    method TrackConn(raw: Conn, chain: seq<Pin>) returns (a: Admission)
      modifies `conns
      ensures a == Untracked <==> chain == []
      ensures a == Admitted <==> chain != [] && chain[|chain| - 1] in trust
      ensures conns == if a == Admitted then old(conns)[raw := chain[|chain| - 1]] else old(conns)
    {
      if |chain| == 0 {
        return Untracked;
      }
      var root := chain[|chain| - 1];
      if root !in trust {
        return Refused;
      }
      conns := conns[raw := root];
      return Admitted;
    }

    method ForgetConn(raw: Conn)
      modifies `conns
      ensures conns == old(conns) - {raw}
    {
      conns := conns - {raw};
    }

    /** Closes every tracked connection a CA outside cas verified, and no other. */
    method CloseUntrustedConns(cas: seq<Pin>)
      modifies `conns, `closed
      ensures conns == Verified(old(conns), cas)
      ensures closed == old(closed) + Stale(old(conns), cas)
    {
      var stale: set<Conn> := {};
      var left := conns.Keys;
      while left != {}
        invariant left <= old(conns).Keys && stale == Stale(old(conns), cas) - left
        invariant conns == old(conns) - stale && closed == old(closed)
        decreases left
      {
        var raw :| raw in left;
        left := left - {raw};
        if conns[raw] !in cas {
          stale := stale + {raw};
          conns := conns - {raw};
        }
      }
      assert left == {};
      assert conns == Verified(old(conns), cas);
      closed := closed + stale;
    }

    /** Reads ca.crt again; one that does not read, or holds no certificate, leaves trust and connections. */
    method ReloadCAPool(caCrt: Option<seq<Pin>>) returns (ok: bool)
      modifies this
      ensures ok <==> caCrt.Some? && caCrt.value != []
      ensures !ok ==> trust == old(trust) && conns == old(conns) && closed == old(closed)
      ensures ok ==> trust == caCrt.value && conns == Verified(old(conns), trust) && closed == old(closed) + Stale(old(conns), trust)
    {
      if caCrt == None || caCrt.value == [] {
        return false;
      }
      trust := caCrt.value;
      CloseUntrustedConns(trust);
      return true;
    }
  }
}
