/**
  Who vouches for a hash. A device asserts hashes, the server computes them, and only the
  server's word authorises a purge. No run of events should let a device's assertion pass for
  the server's -- and none does, except through one stale record.
 */
module AgentVerification {
  import opened Wrappers
  import opened Reachability
  import opened Store
  import opened AgentEvents
  import opened AgentRules
  import opened AgentAcceptance
  import opened AgentAuthority

  /** The server computed the hash the node carries now: only this authorises a purge. */
  predicate ServerVerified(t: Tables, n: NodeId) {
    n in t.nodes && n in t.provenance && t.provenance[n].source == Server
    && t.nodes[n].fullHash == Some(t.provenance[n].fullHash)
  }

  /** The hash was cleared but the server's word for some value is still on file. */
  predicate Dormant(t: Tables, n: NodeId) {
    n in t.nodes && NonEmpty(t.nodes[n].fullHash).None? && n in t.provenance && t.provenance[n].source == Server
  }

  /** The event hands a dormant node back exactly the value the server once vouched for: a
      rebase by the device that created the node, of a node not retired, to an acceptable and
      free place, with content nobody else holds. All of it can be read off before the event
      is applied. */
  ghost predicate Revouches(t: Tables, d: Delivery, n: NodeId) {
    var p := d.ev.payload;
    && Dormant(t, n) && p.PathRebased? && p.uuid == n && NonEmpty(p.fullHash) == Some(t.provenance[n].fullHash)
    && ValidNodeUUID(n) && p.path != "" && ValidFullHash(t.provenance[n].fullHash)
    && MayPlace(d.w, p.path) && Holds(t, d.ev.agent, n) && Fits(t, n, p.path, Some(t.provenance[n].fullHash))
  }

  /** A rebase that brings a known node its first hash is accepted exactly on those terms. */
  lemma FirstHashAcceptedIff(t: Tables, w: World, agent: string, n: NodeId, p: Payload)
    requires Sound(t) && p.PathRebased? && p.uuid == n && n in t.nodes
    requires NonEmpty(t.nodes[n].fullHash).None? && NonEmpty(p.fullHash).Some?
    ensures ApplyPathRebased(t, w, agent, p).Ok? <==>
              && ValidNodeUUID(n) && p.path != "" && ValidFullHash(p.fullHash.value)
              && MayPlace(w, p.path) && Holds(t, agent, n) && Fits(t, n, p.path, p.fullHash)
  {
    hide NoClashes, StatusesMatch, EndpointsKnown, ApplyPathRebased, ValidNodeUUID, ValidFullHash, MayPlace, Fits;
    RebaseIff(t, w, agent, p);
  }

  /** One permitted effect and the server verification of n. */
  lemma EffectOnVerified(t: Tables, agent: string, e: Effect, n: NodeId)
    requires Permitted(t, agent, e) && t.provenance.Keys <= t.nodes.Keys
    requires (e.Rewrite? && e.newHash.Some? ==> |e.newHash.value| == 64) && (n in t.nodes ==> HashLengthOk(t.nodes[n]))
    ensures var t' := Perform(t, agent, e);
            ServerVerified(t', n) <==>
              ServerVerified(t, n)
              || (e.Rewrite? && e.n == n && Dormant(t, n) && e.newHash == Some(t.provenance[n].fullHash))
  {
    hide WouldCreateCycle, StatusOf, CascadeCandidates;
  }

  /** A delivery never takes a server verification away, and grants one in exactly one case:
      a rebase that re-asserts the value a dormant record still vouches for. */
  lemma VerifiedIff(t: Tables, d: Delivery, n: NodeId)
    requires Sound(t)
    ensures ServerVerified(Deliver(t, d), n) <==> ServerVerified(t, n) || Revouches(t, d, n)
  {
    hide StatusesMatch, EndpointsKnown, NoClashes, Clash, WouldCreateCycle, ApplyEvent, StatusOf, ServerVerified,
         Perform;
    var e := DeliverEffect(t, d);
    if e.Rewrite? && e.newHash.Some? {
      RewriteHashLength(t, d, e);
    }
    if n in t.nodes {
      NoClashAt(t, n);
    }
    EffectOnVerified(t, d.ev.agent, e, n);
    if Dormant(t, n) && d.ev.payload.PathRebased? && d.ev.payload.uuid == n && NonEmpty(d.ev.payload.fullHash).Some? {
      FirstHashAcceptedIff(t, d.w, d.ev.agent, n, d.ev.payload);
      ApplyEventRebases(t, d);
    }
    if Revouches(t, d, n) {
      SetHashEffect(t, d, n);
      VerifiedNow(t, d, n);
    }
  }

  lemma ApplyEventRebases(t: Tables, d: Delivery)
    requires Indexed(t) && d.ev.payload.PathRebased?
    ensures ApplyEvent(t, d.w, d.ev) == ApplyPathRebased(t, d.w, d.ev.agent, d.ev.payload)
  {
    hide NoClashes, ApplyPathRebased;
  }

  lemma RewriteHashLength(t: Tables, d: Delivery, e: Effect)
    requires Sound(t) && e.Rewrite? && e.newHash.Some?
    requires Permitted(t, d.ev.agent, e) && Deliver(t, d) == Perform(t, d.ev.agent, e)
    ensures |e.newHash.value| == 64
  {
    hide StatusesMatch, EndpointsKnown, Clash, ApplyEvent;
    DeliverSound(t, d);
    assert HashLengthOk(Deliver(t, d).nodes[e.n]);
  }

  lemma VerifiedNow(t: Tables, d: Delivery, n: NodeId)
    requires Indexed(t) && Dormant(t, n) && n in Deliver(t, d).nodes
    requires var h, t' := Some(t.provenance[n].fullHash), Deliver(t, d);
             |h.value| == 64 && t'.nodes[n].fullHash == h
             && t'.provenance == RecordFullHashSource(t.provenance, n, h, Agent)
    ensures ServerVerified(Deliver(t, d), n)
  {
    hide NoClashes, Deliver;
  }

  /** A rebase that brings the first hash of a known node records it. */
  lemma SetHashEffect(t: Tables, d: Delivery, n: NodeId)
    requires Sound(t) && ApplyEvent(t, d.w, d.ev).Ok?
    requires d.ev.payload.PathRebased? && d.ev.payload.uuid == n && n in t.nodes
    requires NonEmpty(t.nodes[n].fullHash).None? && NonEmpty(d.ev.payload.fullHash).Some?
    ensures var h, t' := d.ev.payload.fullHash, Deliver(t, d);
            |h.value| == 64 && n in t'.nodes && t'.nodes[n].fullHash == h
            && t'.provenance == RecordFullHashSource(t.provenance, n, h, Agent)
  {
    hide NoClashes, StatusesMatch, EndpointsKnown, Clash;
  }

  /** No dormant record, and none can appear: over any run of events from such tables no node
      gains or loses a server verification. */
  lemma {:induction false} RunKeepsVerified(t: Tables, ds: seq<Delivery>, n: NodeId)
    requires Sound(t) && forall m :: !Dormant(t, m)
    ensures ServerVerified(DeliverAll(t, ds), n) <==> ServerVerified(t, n)
    decreases |ds|
  {
    if ds != [] {
      DeliverSound(t, ds[0]);
      VerifiedIff(t, ds[0], n);
      forall m ensures !Dormant(Deliver(t, ds[0]), m) {
        NoNewDormant(t, ds[0], m);
      }
      RunKeepsVerified(Deliver(t, ds[0]), ds[1..], n);
    }
  }

  lemma NoNewDormant(t: Tables, d: Delivery, n: NodeId)
    requires Sound(t) && !Dormant(t, n)
    ensures !Dormant(Deliver(t, d), n)
  {
    hide NoClashes, StatusesMatch, EndpointsKnown, Clash, WouldCreateCycle, ApplyEvent, StatusOf;
    var e := DeliverEffect(t, d);
  }

  // ---- Where the stale record comes from ----

  /** The metadata-inheritance endpoint clears exactly the verifications of the node it wrote,
      and leaves a dormant record behind each. */
  lemma InPlaceWriteLeavesDormant(t: Tables, n: NodeId, mtime: int, m: NodeId)
    ensures var t' := RefreshAfterInPlaceWrite(t, n, mtime);
            && t' == t.(nodes := t'.nodes) && t'.nodes.Keys == t.nodes.Keys
            && (m in t.nodes ==>
                  t'.nodes[m] == if m == n then t.nodes[m].(mtime := mtime, fullHash := None, indexedFull := false)
                                 else t.nodes[m])
            && (ServerVerified(t', m) <==> ServerVerified(t, m) && m != n)
            && (Dormant(t', m) <==>
                  Dormant(t, m) || (m == n && n in t.nodes && n in t.provenance && t.provenance[n].source == Server))
  {
  }

  /** And this is how the false verification comes about. A server-verified node is rewritten in
      place; the device that created it, still holding the old hash, rebases it: the server's
      word now covers a value it never computed for the present bytes. */
  lemma StaleHashIsVerifiedAgain(t: Tables, n: NodeId, mtime: int, d: Delivery)
    requires Sound(t) && ServerVerified(t, n) && Live(t.nodes[n]) && Owns(t, d.ev.agent, n)
    requires d.ev.payload.PathRebased? && d.ev.payload.uuid == n && d.ev.payload.fullHash == t.nodes[n].fullHash
    requires ValidNodeUUID(n) && ValidFullHash(t.provenance[n].fullHash) && d.ev.payload.path == t.nodes[n].path != ""
    requires MayPlace(d.w, t.nodes[n].path)
    ensures var rewritten := RefreshAfterInPlaceWrite(t, n, mtime);
            && Sound(rewritten) && !ServerVerified(rewritten, n)
            && Revouches(rewritten, d, n) && ServerVerified(Deliver(rewritten, d), n)
  {
    hide StatusesMatch, EndpointsKnown, NoClashes, Clash, ApplyEvent, ValidNodeUUID, ValidFullHash, Deliver;
    var rewritten := RefreshAfterInPlaceWrite(t, n, mtime);
    NoClashAt(t, n);
    InPlaceWriteSound(t, n, mtime);
    InPlaceWriteLeavesDormant(t, n, mtime, n);
    OwnPlaceIsFree(t, rewritten, n);
    VerifiedIff(rewritten, d, n);
  }

  lemma OwnPlaceIsFree(t: Tables, t': Tables, n: NodeId)
    requires Indexed(t) && ServerVerified(t, n) && Live(t.nodes[n])
    requires forall j :: j in t'.nodes && j != n ==> j in t.nodes && t'.nodes[j] == t.nodes[j]
    ensures Fits(t', n, t.nodes[n].path, Some(t.provenance[n].fullHash))
  {
    forall j | j in t'.nodes && j != n
      ensures !(HoldsPath(t'.nodes[j]) && t'.nodes[j].path == t.nodes[n].path)
      ensures !(Live(t'.nodes[j]) && t'.nodes[j].fullHash == Some(t.provenance[n].fullHash))
    {
      assert !Clash(t.nodes[n], t.nodes[j]);
    }
  }

  const SAMPLE_NODE := "00000000-0000-0000-0000-000000000000"

  /** One clip, uploaded by a device, hashed by the server. */
  function OneClip(hash: string): Tables {
    EMPTY_TABLES.(
      nodes := map[SAMPLE_NODE := Node("/media/a.mp4", "a.mp4", 0, Some(hash), true, Unlinked, Active)],
      creators := map[SAMPLE_NODE := "device"],
      provenance := map[SAMPLE_NODE := Provenance(hash, Server)])
  }

  /** Such tables, and such a delivery, exist. */
  lemma FalseVerificationHappens(w: World, hash: string)
    requires ValidFullHash(hash) && w.guard.Some?
    requires w.guard.value("/media/a.mp4") == Some(Location("/media", false, false, false))
    ensures var t := RefreshAfterInPlaceWrite(OneClip(hash), SAMPLE_NODE, 1);
            var d := Delivery(w, Event("device", PathRebased(SAMPLE_NODE, "/media/a.mp4", "a.mp4", 1, Some(hash))));
            && Sound(t) && Revouches(t, d, SAMPLE_NODE) && !ServerVerified(t, SAMPLE_NODE)
            && ServerVerified(Deliver(t, d), SAMPLE_NODE)
  {
    hide ValidFullHash, ApplyEvent, Revouches, Deliver;
    var t := OneClip(hash);
    var d := Delivery(w, Event("device", PathRebased(SAMPLE_NODE, "/media/a.mp4", "a.mp4", 1, Some(hash))));
    HashHas64(hash);
    OneClipSound(hash);
    assert ValidNodeUUID(SAMPLE_NODE);
    StaleHashIsVerifiedAgain(t, SAMPLE_NODE, 1, d);
  }

  lemma HashHas64(hash: string)
    requires ValidFullHash(hash)
    ensures |hash| == 64
  {
  }

  lemma OneClipSound(hash: string)
    requires |hash| == 64
    ensures Sound(OneClip(hash))
  {
    assert ListEdgesByTarget(map[], SAMPLE_NODE) == {};
  }
}
