/**
  The signed-request check of the agent endpoints: the clock-skew window, the signature, and
  the in-memory nonce cache behind them. Instants are nanoseconds.
 */
module Replay {
  import opened Wrappers

  const SWEEP_INTERVAL := 1_000_000_000

  /** lastSweep is None before the first check (Go's zero time). */
  datatype Cache = Cache(entries: map<string, int>, lastSweep: Option<int>)

  const EMPTY := Cache(map[], None)

  predicate SweepDue(c: Cache, now: int) {
    c.lastSweep.None? || now - c.lastSweep.value >= SWEEP_INTERVAL
  }

  function Unexpired(entries: map<string, int>, now: int): map<string, int> {
    map n | n in entries && now < entries[n] :: entries[n]
  }

  function Swept(c: Cache, now: int): Cache {
    if SweepDue(c, now) then Cache(Unexpired(c.entries, now), Some(now)) else c
  }

  /** Is the nonce on record and not yet expired? */
  predicate Blocks(c: Cache, nonce: string, now: int) {
    nonce in c.entries && now < c.entries[nonce]
  }

  /** The cache after a check of a nonce that would expire at `expiresAt`. */
  function Checked(c: Cache, nonce: string, expiresAt: int, now: int): Cache {
    var swept := Swept(c, now);
    if Blocks(swept, nonce, now) then swept else swept.(entries := swept.entries[nonce := expiresAt])
  }

  class ReplayCache {
    var entries: map<string, int>
    var lastSweep: Option<int>

    constructor ()
      ensures View() == EMPTY
    {
      entries, lastSweep := map[], None;
    }

    function View(): Cache
      reads this
    {
      Cache(entries, lastSweep)
    }

    method CheckAndRecord(nonce: string, expiresAt: int, now: int) returns (accepted: bool)
      modifies this
      ensures accepted <==> !(nonce in old(entries) && now < old(entries)[nonce])
      ensures accepted ==> nonce in entries && entries[nonce] == expiresAt
      ensures forall n :: n != nonce ==>
                (n in entries <==>
                   n in old(entries)
                   && (now < old(entries)[n]
                       || (old(lastSweep).Some? && now - old(lastSweep).value < 1_000_000_000)))
      ensures View() == Checked(old(View()), nonce, expiresAt, now)
    {
      if lastSweep.None? || now - lastSweep.value >= SWEEP_INTERVAL {
        var todo := entries.Keys;
        while todo != {}
          invariant todo <= entries.Keys && lastSweep == old(lastSweep)
          invariant entries.Keys <= old(entries).Keys && forall n :: n in entries ==> entries[n] == old(entries)[n]
          invariant forall n :: n in old(entries) ==> (n in entries <==> n in todo || now < old(entries)[n])
          decreases todo
        {
          var n :| n in todo;
          if now >= entries[n] {
            entries := entries - {n};
          }
          todo := todo - {n};
        }
        assert entries == Unexpired(old(entries), now);
        lastSweep := Some(now);
      }
      if nonce in entries && now < entries[nonce] {
        return false;
      }
      entries := entries[nonce := expiresAt];
      return true;
    }
  }

  // ---- The chain in front of it ----

  datatype BodyRead = Read | TooLarge | Broken

  /** A request to a signed endpoint, past the API key check: its three headers, the timestamp
      as an integer if it is one, what reading the body and comparing the HMAC yield, and the
      clock reading taken BEFORE the body is read. Requests reach the cache in another order
      than their readings whenever a body stalls. */
  datatype Request = Request(timestamp: string, nonce: string, signature: string, parsed: Option<int>,
                             body: BodyRead, signatureMatches: bool, now: int)

  datatype Verdict = Accepted | MissingHeader | BadTimestamp | ClockSkew | BodyTooLarge | BodyUnreadable
    | SignatureMismatch | Replayed

  /** Everything before the cache is asked. */
  function Screen(window: int, r: Request): Verdict {
    if r.timestamp == "" || r.nonce == "" || r.signature == "" then MissingHeader
    else if r.parsed.None? then BadTimestamp
    else if r.now - r.parsed.value > window || r.now - r.parsed.value < -window then ClockSkew
    else if r.body == TooLarge then BodyTooLarge
    else if r.body == Broken then BodyUnreadable
    else if !r.signatureMatches then SignatureMismatch
    else Accepted
  }

  function Expiry(window: int, r: Request): int
    requires r.parsed.Some?
  {
    r.parsed.value + window
  }

  /** All three headers, an integer timestamp within the window on either side of the reading, a
      body that could be read, and the right signature. */
  predicate Presentable(window: int, r: Request) {
    && r.timestamp != "" && r.nonce != "" && r.signature != "" && r.parsed.Some?
    && r.parsed.value - window <= r.now <= r.parsed.value + window
    && r.body == Read && r.signatureMatches
  }

  /** What the caller is told, and what the cache then knows: a request is accepted exactly when it
      is presentable and its nonce is not blocked, and then its nonce is blocked for exactly the
      rest of the window; any other request leaves every nonce as it was, from its reading on. */
  method CheckSignedRequest(cache: ReplayCache, window: int, r: Request) returns (v: Verdict)
    modifies cache
    ensures v == Judge(window, old(cache.View()), r)
    ensures cache.View() == AfterRequest(window, old(cache.View()), r)
    ensures v == Accepted <==>
              Presentable(window, r) && !(r.nonce in old(cache.entries) && r.now < old(cache.entries)[r.nonce])
    ensures v == Replayed <==>
              Presentable(window, r) && r.nonce in old(cache.entries) && r.now < old(cache.entries)[r.nonce]
    ensures v == Accepted ==> forall now :: Blocks(cache.View(), r.nonce, now) <==> now < r.parsed.value + window
    ensures forall n, now :: now >= r.now && !(v == Accepted && n == r.nonce) ==>
              Blocks(cache.View(), n, now) == Blocks(old(cache.View()), n, now)
  {
    if r.timestamp == "" || r.nonce == "" || r.signature == "" {
      return MissingHeader;
    }
    if r.parsed.None? {
      return BadTimestamp;
    }
    var skew := r.now - r.parsed.value;
    if skew > window || skew < -window {
      return ClockSkew;
    }
    if r.body != Read {
      return if r.body == TooLarge then BodyTooLarge else BodyUnreadable;
    }
    if !r.signatureMatches {
      return SignatureMismatch;
    }
    var expiresAt := r.parsed.value + window;
    var fresh_ := cache.CheckAndRecord(r.nonce, expiresAt, r.now);
    return if fresh_ then Accepted else Replayed;
  }

  function Judge(window: int, c: Cache, r: Request): Verdict {
    if Screen(window, r) != Accepted then Screen(window, r)
    else if Blocks(c, r.nonce, r.now) then Replayed
    else Accepted
  }

  function AfterRequest(window: int, c: Cache, r: Request): Cache {
    if Screen(window, r) != Accepted then c else Checked(c, r.nonce, Expiry(window, r), r.now)
  }

  // ---- Runs ----

  function CacheAfter(window: int, rs: seq<Request>): Cache {
    if rs == [] then EMPTY else AfterRequest(window, CacheAfter(window, rs[..|rs| - 1]), rs[|rs| - 1])
  }

  function VerdictOf(window: int, rs: seq<Request>, i: nat): Verdict
    requires i < |rs|
  {
    Judge(window, CacheAfter(window, rs[..i]), rs[i])
  }

  /** Request k made the cache drop what was expired at its reading. */
  predicate Sweeps(window: int, rs: seq<Request>, k: nat)
    requires k < |rs|
  {
    Screen(window, rs[k]) == Accepted && SweepDue(CacheAfter(window, rs[..k]), rs[k].now)
  }

  /** Request i is what the cache remembers of this nonce: accepted, not accepted again since,
      and not swept since by a reading at or past its expiry. */
  ghost predicate Remembered(window: int, rs: seq<Request>, nonce: string, i: nat) {
    && i < |rs| && VerdictOf(window, rs, i) == Accepted && rs[i].nonce == nonce
    && (forall k :: i < k < |rs| ==> !(VerdictOf(window, rs, k) == Accepted && rs[k].nonce == nonce))
    && (forall k :: i < k < |rs| ==> !(Sweeps(window, rs, k) && rs[k].now >= Expiry(window, rs[i])))
  }

  lemma PrefixVerdicts(window: int, rs: seq<Request>, n: nat)
    requires n <= |rs|
    ensures forall k :: 0 <= k < n ==> VerdictOf(window, rs[..n], k) == VerdictOf(window, rs, k)
    ensures forall k :: 0 <= k < n ==> Sweeps(window, rs[..n], k) == Sweeps(window, rs, k)
  {
    forall k | 0 <= k < n
      ensures VerdictOf(window, rs[..n], k) == VerdictOf(window, rs, k)
      ensures Sweeps(window, rs[..n], k) == Sweeps(window, rs, k)
    {
      assert rs[..n][..k] == rs[..k] && rs[..n][k] == rs[k];
    }
  }

  /** The same, computed from the last request back. */
  function Holder(window: int, rs: seq<Request>, nonce: string): (h: Option<nat>)
    ensures h.Some? ==> h.value < |rs| && rs[h.value].parsed.Some?
  {
    if rs == [] then None
    else
      var n := |rs| - 1;
      if VerdictOf(window, rs, n) == Accepted && rs[n].nonce == nonce then Some(n)
      else
        var h := Holder(window, rs[..n], nonce);
        if h.Some? && Sweeps(window, rs, n) && rs[n].now >= Expiry(window, rs[h.value]) then None else h
  }

  lemma {:induction false} HolderIsRemembered(window: int, rs: seq<Request>, nonce: string, i: nat)
    ensures Holder(window, rs, nonce) == Some(i) <==> Remembered(window, rs, nonce, i)
    decreases |rs|
  {
    hide VerdictOf, Sweeps;
    if rs != [] {
      var n := |rs| - 1;
      PrefixVerdicts(window, rs, n);
      HolderIsRemembered(window, rs[..n], nonce, i);
    }
  }

  /** What one request does to a nonce's entry. */
  lemma EntryAfter(window: int, c: Cache, r: Request, nonce: string)
    ensures var after := AfterRequest(window, c, r);
            var accepted := Judge(window, c, r) == Accepted && r.nonce == nonce;
            var swept := Screen(window, r) == Accepted && SweepDue(c, r.now);
            && (nonce in after.entries <==> accepted || (nonce in c.entries && !(swept && r.now >= c.entries[nonce])))
            && (nonce in after.entries ==>
                  after.entries[nonce] == if accepted then Expiry(window, r) else c.entries[nonce])
  {
  }

  /** The cache holds exactly the remembered requests -- for any arrivals, in any order of
      their readings. */
  lemma {:induction false} EntriesExact(window: int, rs: seq<Request>, nonce: string)
    ensures var h, c := Holder(window, rs, nonce), CacheAfter(window, rs);
            && (nonce in c.entries <==> h.Some?)
            && (h.Some? ==> c.entries[nonce] == Expiry(window, rs[h.value]))
    decreases |rs|
  {
    hide AfterRequest, Judge, Screen, SweepDue;
    if rs != [] {
      var n := |rs| - 1;
      EntriesExact(window, rs[..n], nonce);
      EntryAfter(window, CacheAfter(window, rs[..n]), rs[n], nonce);
    }
  }

  /** Exactly when a nonce is accepted again. Let i be its latest acceptance before j: j gets
      through if and only if its own reading is at or past i's expiry, or a request in between
      swept the cache with such a reading. For the same (nonce, timestamp) pair the skew check
      leaves only one own reading, the last instant of the window. */
  lemma ReplayIff(window: int, rs: seq<Request>, i: nat, j: nat)
    requires i < j < |rs| && VerdictOf(window, rs, i) == Accepted
    requires rs[j].nonce == rs[i].nonce && Screen(window, rs[j]) == Accepted
    requires forall k :: i < k < j && rs[k].nonce == rs[i].nonce ==> VerdictOf(window, rs, k) != Accepted
    ensures VerdictOf(window, rs, j) == Accepted <==>
              || rs[j].now >= Expiry(window, rs[i])
              || exists k :: i < k < j && Sweeps(window, rs, k) && rs[k].now >= Expiry(window, rs[i])
    ensures rs[j].parsed == rs[i].parsed ==>
              (rs[j].now >= Expiry(window, rs[i]) <==> rs[j].now == rs[i].parsed.value + window)
  {
    hide CacheAfter, Sweeps;
    var before := rs[..j];
    PrefixVerdicts(window, rs, j);
    EntriesExact(window, before, rs[j].nonce);
    HolderIsRemembered(window, before, rs[j].nonce, i);
    assert VerdictOf(window, before, i) == Accepted;
    var h := Holder(window, before, rs[j].nonce);
    if h.Some? {
      HolderIsRemembered(window, before, rs[j].nonce, h.value);
    }
  }

  /** So, whatever order requests arrive in: as long as no request since has reached the cache
      with a reading at or past i's expiry, i's nonce is not accepted again. */
  lemma {:induction false} NoReplayInsideWindow(window: int, rs: seq<Request>, i: nat, j: nat)
    requires i < j < |rs| && VerdictOf(window, rs, i) == Accepted && rs[j].nonce == rs[i].nonce
    requires forall k :: i < k <= j && Screen(window, rs[k]) == Accepted ==> rs[k].now < Expiry(window, rs[i])
    ensures VerdictOf(window, rs, j) != Accepted
    decreases j
  {
    if Screen(window, rs[j]) == Accepted {
      forall k | i < k < j && rs[k].nonce == rs[i].nonce ensures VerdictOf(window, rs, k) != Accepted {
        NoReplayInsideWindow(window, rs, i, k);
      }
      ReplayIff(window, rs, i, j);
    }
  }

  /** The answer of a cache that never deletes: some accepted request carried this nonce, and
      its window has not passed. */
  ghost predicate OnRecord(window: int, rs: seq<Request>, nonce: string, now: int) {
    exists k :: 0 <= k < |rs| && VerdictOf(window, rs, k) == Accepted
        && rs[k].nonce == nonce && now < Expiry(window, rs[k])
  }

  /** Lazy sweeping is invisible to a request no earlier one has overtaken: as long as no
      reading has reached the cache that is later than its own, the cache answers exactly as
      one that never deletes. The readings before it may have come in any order. */
  lemma LazySweepIsExact(window: int, rs: seq<Request>, nonce: string, now: int)
    requires forall k :: 0 <= k < |rs| && Screen(window, rs[k]) == Accepted ==> rs[k].now <= now
    ensures Blocks(CacheAfter(window, rs), nonce, now) <==> OnRecord(window, rs, nonce, now)
  {
    hide CacheAfter, Sweeps;
    EntriesExact(window, rs, nonce);
    var h := Holder(window, rs, nonce);
    if h.Some? {
      HolderIsRemembered(window, rs, nonce, h.value);
    }
    if OnRecord(window, rs, nonce, now) {
      var i :| 0 <= i < |rs| && VerdictOf(window, rs, i) == Accepted
          && rs[i].nonce == nonce && now < Expiry(window, rs[i]);
      StillRemembered(window, rs, nonce, i, now);
      HolderIsRemembered(window, rs, nonce, i);
    }
  }

  lemma StillRemembered(window: int, rs: seq<Request>, nonce: string, i: nat, now: int)
    requires i < |rs| && VerdictOf(window, rs, i) == Accepted && rs[i].nonce == nonce && now < Expiry(window, rs[i])
    requires forall k :: 0 <= k < |rs| && Screen(window, rs[k]) == Accepted ==> rs[k].now <= now
    ensures Remembered(window, rs, nonce, i)
  {
    hide CacheAfter;
    forall k | i < k < |rs| && rs[k].nonce == nonce ensures VerdictOf(window, rs, k) != Accepted {
      NoReplayInsideWindow(window, rs, i, k);
    }
  }

  /** A request that fails an earlier check cannot use up a nonce. */
  lemma RefusedLeavesNoTrace(window: int, rs: seq<Request>, r: Request, later: Request)
    requires VerdictOf(window, rs + [r], |rs|) != Accepted && later.now >= r.now
    ensures Judge(window, CacheAfter(window, rs + [r]), later) == Judge(window, CacheAfter(window, rs), later)
  {
    assert (rs + [r])[..|rs|] == rs;
  }

  function Signed(nonce: string, timestamp: int, now: int): Request {
    Request("timestamp", nonce, "signature", Some(timestamp), Read, true, now)
  }

  /** The boundary is real: any window, one pair, accepted at its timestamp and again at the
      window's last instant, with readings in order. */
  lemma BoundaryReplay(window: int, nonce: string, timestamp: int)
    requires window >= 0 && nonce != ""
    ensures var rs := [Signed(nonce, timestamp, timestamp), Signed(nonce, timestamp, timestamp + window)];
            VerdictOf(window, rs, 0) == Accepted == VerdictOf(window, rs, 1)
  {
    var rs := [Signed(nonce, timestamp, timestamp), Signed(nonce, timestamp, timestamp + window)];
    assert rs[..0] == [] && rs[..1] == [rs[0]] && [rs[0]][..0] == [];
    assert CacheAfter(window, []) == EMPTY;
    assert CacheAfter(window, [rs[0]]) == AfterRequest(window, EMPTY, rs[0]);
  }

  /** A stalled body does it too, on a perfectly good clock: the pair is used; a request with
      another nonce arrives after the window and sweeps; then a second copy of the first
      request, whose reading was taken before its body stalled, reaches the cache and is
      accepted with a reading well inside the window. */
  lemma StalledBodyReplays(window: int, nonce: string, other: string, timestamp: int)
    requires window >= 0 && nonce != "" && other != "" && other != nonce
    ensures var far := timestamp + window + SWEEP_INTERVAL;
            var first := Signed(nonce, timestamp, timestamp);
            var rs := [first, Signed(other, far, far), first];
            VerdictOf(window, rs, 0) == Accepted == VerdictOf(window, rs, 2)
  {
    var far := timestamp + window + SWEEP_INTERVAL;
    var rs := [Signed(nonce, timestamp, timestamp), Signed(other, far, far), Signed(nonce, timestamp, timestamp)];
    assert rs[..0] == [] && rs[..1] == [rs[0]] && rs[..2] == [rs[0], rs[1]];
    assert [rs[0]][..0] == [] && [rs[0], rs[1]][..1] == [rs[0]];
    assert CacheAfter(window, [rs[0]]) == AfterRequest(window, EMPTY, rs[0]);
    assert CacheAfter(window, [rs[0], rs[1]]) == AfterRequest(window, CacheAfter(window, [rs[0]]), rs[1]);
  }
}
