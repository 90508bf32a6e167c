/**
 An agent's half of a CA rotation (internal/cluster/agent_link.go, renew.go): the leader's hints,
 each taken whole or not at all, and the leader's side of a renewal.
 */
module CAAgent {
  import opened Options
  import opened CARecord
  import opened CALeader
  import opened CAWorld
  import opened CATrust

  const MAX_CA_BUNDLE_BYTES := 65_536

  datatype Cert = Cert(pin: Pin, isCA: bool)

  /** A pong's word on the CAs; certs is None for a bundle that holds anything but certificates, or none. */
  datatype Hint = Hint(seqno: nat, size: nat, certs: Option<seq<Cert>>, sign: Pin)

  datatype Verdict = Fine(pins: seq<Pin>) | TooLarge | NotCertificates | NotACA | OutlivesConnection

  function PinsOf(certs: seq<Cert>): (pins: seq<Pin>)
    ensures |pins| == |certs| && forall i :: 0 <= i < |certs| ==> pins[i] == certs[i].pin
  {
    seq(|certs|, i requires 0 <= i < |certs| => certs[i].pin)
  }

  /** What a hint's bundle is worth on a connection that verified the manager by root. */
  function Check(h: Hint, root: Pin): Verdict {
    if h.size > MAX_CA_BUNDLE_BYTES then TooLarge
    else if h.certs == None then NotCertificates
    else if exists i :: 0 <= i < |h.certs.value| && !h.certs.value[i].isCA then NotACA
    else if root == "" || root !in PinsOf(h.certs.value) then OutlivesConnection
    else Fine(PinsOf(h.certs.value))
  }

  /** When a bundle is taken, and when it is asked for again on a new connection: it is whole, and only lacks this one's CA. */
  lemma CheckIs(h: Hint, root: Pin)
    ensures var whole := h.size <= 65_536 && h.certs.Some? && forall i :: 0 <= i < |h.certs.value| ==> h.certs.value[i].isCA;
            var there := whole && root != "" && exists i :: 0 <= i < |h.certs.value| && h.certs.value[i].pin == root;
            && (Check(h, root).Fine? <==> there) && (Check(h, root) == OutlivesConnection <==> whole && !there)
            && (there ==> Check(h, root).pins == PinsOf(h.certs.value))
    ensures Check(h, root) == TooLarge <==> h.size > 65_536
    ensures Check(h, root) == NotCertificates <==> h.size <= 65_536 && h.certs == None
  {
  }

  /** caHint: the leader's hint from replicated state. */
  function HintOf(s: Slots, size: nat): Option<Hint> {
    if s.rec == None || MaterialOf(s) == None then None
    else
      var mat := MaterialOf(s).value;
      Some(Hint(mat.seqno, size, Some(seq(|mat.trust|, i requires 0 <= i < |mat.trust| => Cert(mat.trust[i], true))), mat.sign))
  }

  /** A hint of the leader's is taken with exactly the material's trust. */
  lemma HintIsMaterial(s: Slots, size: nat, root: Pin)
    requires HintOf(s, size).Some? && size <= MAX_CA_BUNDLE_BYTES && root != ""
    ensures var mat := MaterialOf(s).value;
            Check(HintOf(s, size).value, root) == if root in mat.trust then Fine(mat.trust) else OutlivesConnection
  {
    var mat, certs := MaterialOf(s).value, HintOf(s, size).value.certs.value;
    assert PinsOf(certs) == mat.trust;
  }

  /** The CA a member's certificate must come from in the record's phase. */
  function SignerOf(r: CARotation): Pin {
    match r.phase
    case Reissue | Promote | Done => r.nextPin
    case _ => r.oldPin
  }

  /** What a hint says, by the record: its step, the CA certificates come from, and the CAs to trust. */
  lemma HintNames(s: Slots, size: nat)
    ensures HintOf(s, size).Some? <==> s.rec.Some? && MaterialOf(s).Some?
    ensures HintOf(s, size).Some? ==>
              var h, r := HintOf(s, size).value, s.rec.value;
              && h.seqno == r.seqno && h.sign == SignerOf(r) && h.certs.Some?
              && PinsOf(h.certs.value) ==
                   match r.phase
                   case Trust | Reissue | Rollback => [r.oldPin, r.nextPin]
                   case Promote | Done => [r.nextPin]
                   case _ => [r.oldPin]
  {
    if HintOf(s, size).Some? {
      MaterialIsRecord(s);
      assert PinsOf(HintOf(s, size).value.certs.value) == MaterialOf(s).value.trust;
    }
  }

  // How one call's writes go: ca.crt, the pool from it, the state file.
  datatype Luck = Luck(wrote: bool, reloaded: bool, saved: bool)

  class AgentCA {
    var caCrt: seq<Pin>
    var trust: seq<Pin>
    var served: Pin
    var caSeq: nat
    var savedSeq: nat
    var renew: Option<Pin>

    /** A start from the files. */
    constructor (caCrt: seq<Pin>, nodeCrt: Pin, savedSeq: nat)
      ensures trust == this.caCrt == caCrt && served == nodeCrt && caSeq == this.savedSeq == savedSeq && renew == None
    {
      this.caCrt, trust, served, caSeq, this.savedSeq, renew := caCrt, caCrt, nodeCrt, savedSeq, savedSeq, None;
    }

    /** Whether a hint worth v can be made this agent's trust. */
    predicate Lands(v: Verdict, luck: Luck)
      reads this
    {
      v.Fine? && (caCrt == v.pins || luck.wrote) && (trust == v.pins || luck.reloaded)
    }

    /** Checks the bundle, and makes it the agent's trust: ca.crt, then the CAs trusted, then the seq. */
    method TakeCAHint(h: Hint, root: Pin, luck: Luck) returns (verdict: Verdict, ok: bool)
      modifies `caCrt, `trust, `caSeq, `savedSeq
      ensures verdict == Check(h, root) && ok == old(Lands(verdict, luck))
      ensures ok ==>
                && h.size <= 65_536 && h.certs.Some? && trust == PinsOf(h.certs.value)
                && forall i :: 0 <= i < |h.certs.value| ==> h.certs.value[i].isCA
      ensures ok ==> trust == caCrt == verdict.pins && root in trust && caSeq == (if old(caSeq) >= h.seqno then old(caSeq) else h.seqno)
      ensures !ok ==> trust == old(trust) && caSeq == old(caSeq) && savedSeq == old(savedSeq)
      ensures !ok ==> caCrt == old(caCrt) || (verdict.Fine? && caCrt == verdict.pins)
      ensures ok ==> savedSeq == if luck.saved && h.seqno > old(caSeq) then h.seqno else old(savedSeq)
    {
      if h.size > MAX_CA_BUNDLE_BYTES {
        return TooLarge, false;
      }
      if h.certs == None {
        return NotCertificates, false;
      }
      var certs := h.certs.value;
      var pins: seq<Pin> := [];
      for i := 0 to |certs|
        invariant pins == PinsOf(certs)[..i] && forall j :: 0 <= j < i ==> certs[j].isCA
      {
        if !certs[i].isCA {
          return NotACA, false;
        }
        pins := pins + [certs[i].pin];
      }
      assert pins == PinsOf(certs);
      if root == "" || root !in pins {
        return OutlivesConnection, false;
      }
      verdict := Fine(pins);
      if caCrt != pins {
        if !luck.wrote {
          return verdict, false;
        }
        caCrt := pins;
      }
      if trust != pins {
        if !luck.reloaded {
          return verdict, false;
        }
        trust := caCrt;
      }
      if caSeq < h.seqno {
        caSeq := h.seqno;
        if luck.saved {
          savedSeq := h.seqno;
        }
      }
      return verdict, true;
    }

    /**
     A hint is taken once, when newer than the last taken. Any hint of the step taken asks for a
     renewal when it names a trusted CA the certificate is not from, and the newest such wins.
     */
    method ApplyCAHint(h: Hint, root: Pin, luck: Luck) returns (reconnect: bool)
      modifies this
      ensures caSeq >= old(caSeq) && served == old(served)
      ensures var taken := h.seqno > old(caSeq) && old(Lands(Check(h, root), luck));
              && (taken ==> caSeq == h.seqno && trust == Check(h, root).pins && root in trust)
              && (!taken ==> caSeq == old(caSeq) && trust == old(trust))
              && (renew == if (taken || h.seqno == old(caSeq)) && h.sign != "" && h.sign != served && h.sign in trust
                           then Some(h.sign) else old(renew))
      ensures reconnect == (h.seqno > old(caSeq) && Check(h, root) == OutlivesConnection)
      ensures h.seqno <= old(caSeq) ==> caCrt == old(caCrt) && savedSeq == old(savedSeq)
    {
      if h.seqno < caSeq {
        return false;
      }
      if h.seqno > caSeq {
        var verdict, ok := TakeCAHint(h, root, luck);
        if !ok {
          return verdict == OutlivesConnection;
        }
      }
      var pin := h.sign;
      if pin == "" || pin == served || pin !in trust {
        return false;
      }
      renew := Some(pin);
      return false;
    }

    /**
     Installs a renewal's certificate, from issuer, when it is from the CA the hint named and that is
     trusted now; otherwise the certificate stays. fits is for the agent's key, ID, role and address.
     */
    method InstallRenewed(pin: Pin, issuer: Pin, fits: bool, wrote: bool) returns (ok: bool)
      requires pin != ""
      modifies `served
      ensures ok == (issuer == pin && issuer in trust && fits && wrote)
      ensures served == if ok then issuer else old(served)
    {
      var trusted := if issuer in trust then issuer else "";
      if trusted != pin || !fits || !wrote {
        return false;
      }
      served := issuer;
      return true;
    }
  }

  // --- The leader signs ---

  const RENEWAL_INTERVAL := 60_000

  /** renewalProof, as a term. */
  datatype RenewalProof = RenewalProof(key: string, id: string, csr: string)

  /** A renewal's request: the ID and key of the certificate presented, if any, the request and its key. */
  datatype RenewalRequest = RenewalRequest(peer: Option<(string, string)>, csr: string, csrKey: Option<string>, proof: RenewalProof)

  /** What replicated state says of the ID: its record, whether that has an address, and its agent key. */
  datatype Known = Known(isAgent: bool, address: bool, agentKey: string)

  datatype RenewalAnswer =
    | Signed(issuer: Pin, trust: seq<Pin>)
    | NotLeader | NoCertificate | NotAnAgent | NoRenewalDue | TooSoon | BadRenewalProof | BadRequest | OtherKey | NoAddress | NoMaterial

  datatype Signature = Signature(id: string, at: int, issuer: Pin)

  /** Two signatures of one agent are a renewal interval apart. */
  ghost predicate Apart(signed: seq<Signature>) {
    forall i, j :: 0 <= i < j < |signed| && signed[i].id == signed[j].id ==> signed[j].at - signed[i].at >= 60_000
  }

  class RenewalDesk {
    var renewedAt: map<string, int>
    ghost var signed: seq<Signature>

    ghost predicate Valid()
      reads this
    {
      && Apart(signed)
      && forall i :: 0 <= i < |signed| ==> signed[i].id in renewedAt && signed[i].at <= renewedAt[signed[i].id]
    }

    /** The request's own gates: an agent known, its first in a while, its proof, its key and its address. */
    predicate Admits(known: map<string, Known>, req: RenewalRequest, now: int)
      reads this
    {
      && req.peer.Some? && req.peer.value.0 in known && known[req.peer.value.0].isAgent
      && (req.peer.value.0 in renewedAt ==> now - renewedAt[req.peer.value.0] >= 60_000)
      && known[req.peer.value.0].agentKey != ""
      && req.proof == RenewalProof(known[req.peer.value.0].agentKey, req.peer.value.0, req.csr)
      && req.csrKey == Some(req.peer.value.1) && known[req.peer.value.0].address
    }

    constructor ()
      ensures Valid() && renewedAt == map[] && signed == []
    {
      renewedAt, signed := map[], [];
    }

    /** Every gate a renewal passes; a refusal changes nothing. */
    method HandleRenewCertificate(caughtUp: bool, s: Slots, known: map<string, Known>, req: RenewalRequest, now: int)
      returns (a: RenewalAnswer)
      requires Valid()
      modifies this
      ensures Valid()
      ensures a.Signed? <==>
                && caughtUp && old(Admits(known, req, now)) && MaterialOf(s).Some?
                && s.rec.Some? && (s.rec.value.phase == Reissue || s.rec.value.phase == Rollback)
      ensures a.Signed? ==>
                && signed == old(signed) + [Signature(req.peer.value.0, now, a.issuer)]
                && a.issuer == (if s.rec.value.phase == Reissue then s.rec.value.nextPin else s.rec.value.oldPin)
                && a.trust == [s.rec.value.oldPin, s.rec.value.nextPin]
      ensures !a.Signed? ==> renewedAt == old(renewedAt) && signed == old(signed)
    {
      if !caughtUp {
        return NotLeader;
      }
      if req.peer == None {
        return NoCertificate;
      }
      var (id, peerKey) := req.peer.value;
      if id !in known || !known[id].isAgent {
        return NotAnAgent;
      }
      if s.rec == None || (s.rec.value.phase != Reissue && s.rec.value.phase != Rollback) {
        return NoRenewalDue;
      }
      if id in renewedAt && now - renewedAt[id] < RENEWAL_INTERVAL {
        return TooSoon;
      }
      var agentKey := known[id].agentKey;
      if agentKey == "" || req.proof != RenewalProof(agentKey, id, req.csr) {
        return BadRenewalProof;
      }
      if req.csrKey == None {
        return BadRequest;
      }
      if req.csrKey.value != peerKey {
        return OtherKey;
      }
      if !known[id].address {
        return NoAddress;
      }
      var mat := MaterialOf(s);
      if mat == None {
        return NoMaterial;
      }
      ghost var was, at := signed, renewedAt;
      renewedAt := renewedAt[id := now];
      signed := signed + [Signature(id, now, mat.value.sign)];
      assert forall i :: 0 <= i < |was| ==> was[i].id in at && was[i].at <= at[was[i].id];
      return Signed(mat.value.sign, mat.value.trust);
    }
  }

  /** renewCertificate: the leader's answer at s, installed when it is from the CA asked for. */
  method RenewCertificate(a: AgentCA, desk: RenewalDesk, pin: Pin, s: Slots, known: map<string, Known>, req: RenewalRequest, now: int)
    returns (renewed: bool)
    requires desk.Valid() && pin != ""
    modifies a`served, desk
    ensures desk.Valid()
    ensures renewed <==>
              && old(desk.Admits(known, req, now)) && MaterialOf(s).Some? && pin in a.trust
              && s.rec.Some? && ((s.rec.value.phase == Reissue && pin == s.rec.value.nextPin)
                                 || (s.rec.value.phase == Rollback && pin == s.rec.value.oldPin))
    ensures a.served == if renewed then pin else old(a.served)
  {
    var answer := desk.HandleRenewCertificate(true, s, known, req, now);
    if !answer.Signed? {
      return false;
    }
    renewed := a.InstallRenewed(pin, answer.issuer, true, true);
  }

  /**
   A leader's hint, and what comes of it at once: the agent takes it, its sender asks for the
   certificate it names, the leader signs and the agent installs. On a reissue's or a rollback's hint an
   agent on the other CA ends on the one the record now signs with, when nothing fails; and it never ends
   on another but its own.
   */
  method RenewOnHint(a: AgentCA, desk: RenewalDesk, s: Slots, size: nat, root: Pin, known: map<string, Known>, req: RenewalRequest,
                     now: int, luck: Luck)
    returns (renewed: bool)
    requires desk.Valid() && a.renew == None && HintOf(s, size).Some? && size <= MAX_CA_BUNDLE_BYTES && s.rec.Some?
    modifies a, desk
    ensures desk.Valid()
    ensures var r := s.rec.value;
            renewed <==>
              && (r.phase == Reissue || r.phase == Rollback) && SignerOf(r) != "" && old(a.served) != SignerOf(r)
              && old(desk.Admits(known, req, now)) && a.caSeq == r.seqno && SignerOf(r) in a.trust
    ensures var r := s.rec.value;
            r.seqno > old(a.caSeq) && luck == Luck(true, true, true) && root != "" && root in {r.oldPin, r.nextPin}
            && (r.phase == Reissue || r.phase == Rollback) ==>
              a.caSeq == r.seqno && a.trust == [r.oldPin, r.nextPin]
    ensures a.served == if renewed then (if s.rec.value.phase == Reissue then s.rec.value.nextPin else s.rec.value.oldPin)
                        else old(a.served)
  {
    var h := HintOf(s, size).value;
    HintNames(s, size);
    if root != "" {
      HintIsMaterial(s, size, root);
    }
    MaterialIsRecord(s);
    var _ := a.ApplyCAHint(h, root, luck);
    if a.renew == None {
      return false;
    }
    var pin := a.renew.value;
    a.renew := None;
    renewed := RenewCertificate(a, desk, pin, s, known, req, now);
  }

  // --- Taking a hint is a step of the cluster's ---

  /** How the cluster's model sees an agent. */
  function View(trust: seq<Pin>, served: Pin, caSeq: nat, settled: bool, offer: Option<Pin>): Node {
    Node(false, caSeq, trust, served, settled, offer)
  }

  /**
   Taking the hint of any state on the log, newer than the one taken last, is adopting and recording
   that state's record; a stop between the two leaves the adopting alone.
   */
  lemma TakingIsSteps(w: World, id: string, i: nat, size: nat)
    requires LogInv(w) && id in w.nodes && !w.nodes[id].manager && i < |w.hist|
    requires HintOf(w.hist[i], size).Some? && HintOf(w.hist[i], size).value.seqno > w.nodes[id].floor
    ensures var h, n := HintOf(w.hist[i], size).value, w.nodes[id];
            var pins := PinsOf(h.certs.value);
            && Runs(w, [Adopt(id, i)]) && Runs(w, [Adopt(id, i), Record(id, i)])
            && After(w, [Adopt(id, i)]) == With(w, id, View(pins, n.cert, n.floor, false, n.offer))
            && After(w, [Adopt(id, i), Record(id, i)]) == With(w, id, View(pins, n.cert, h.seqno, true, n.offer))
  {
    var h, n := HintOf(w.hist[i], size).value, w.nodes[id];
    HintIsUsable(w, id, i, size);
    var n1 := View(PinsOf(h.certs.value), n.cert, n.floor, false, n.offer);
    AdoptingIs(w, id, i, n1);
    RecordingIs(With(w, id, n1), id, i, n1.(floor := h.seqno, settled := true));
    var a, r := Adopt(id, i), Record(id, i);
    assert [a, r][1..] == [r] && [a][1..] == [];
    assert w.nodes[id := n1][id := n1.(floor := h.seqno, settled := true)] == w.nodes[id := n1.(floor := h.seqno, settled := true)];
  }

  lemma HintIsUsable(w: World, id: string, i: nat, size: nat)
    requires LogInv(w) && id in w.nodes && !w.nodes[id].manager && i < |w.hist|
    requires HintOf(w.hist[i], size).Some? && HintOf(w.hist[i], size).value.seqno > w.nodes[id].floor
    ensures Usable(w, w.nodes[id], i) && w.hist[i].rec.value.seqno == HintOf(w.hist[i], size).value.seqno
    ensures PinsOf(HintOf(w.hist[i], size).value.certs.value) == MaterialOf(w.hist[i]).value.trust
  {
    assert PinsOf(HintOf(w.hist[i], size).value.certs.value) == MaterialOf(w.hist[i]).value.trust;
    MaterialIsRecord(w.hist[i]);
  }

  lemma AdoptingIs(w: World, id: string, i: nat, n: Node)
    requires w.hist != [] && id in w.nodes && Usable(w, w.nodes[id], i)
    requires n == w.nodes[id].(trust := MaterialOf(w.hist[i]).value.trust, settled := false)
    ensures Runs(w, [Adopt(id, i)]) && After(w, [Adopt(id, i)]) == With(w, id, n) == Do(w, Adopt(id, i))
  {
    assert [Adopt(id, i)][1..] == [];
  }

  lemma RecordingIs(w: World, id: string, i: nat, n: Node)
    requires w.hist != [] && id in w.nodes && Usable(w, w.nodes[id], i) && !w.nodes[id].manager
    requires w.nodes[id].trust == MaterialOf(w.hist[i]).value.trust
    requires n == w.nodes[id].(floor := w.hist[i].rec.value.seqno, settled := true)
    ensures Runs(w, [Record(id, i)]) && After(w, [Record(id, i)]) == With(w, id, n)
  {
    assert [Record(id, i)][1..] == [];
  }
}
