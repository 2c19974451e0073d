/** The in-process throttle on last-used updates of access tokens: a per-token timestamp map
    that forgets stale entries once it is full. Instants are nanoseconds. */
module TouchThrottle {
  import opened Wrappers

  const WINDOW := 60_000_000_000
  const MAX_ENTRIES := 4096

  /** One request for a touch, with the clock reading it took before it got the lock: requests
      may get the lock in another order than their readings. */
  datatype Touch = Touch(hash: string, now: int)

  function Evicted(last: map<string, int>, now: int): map<string, int> {
    if |last| >= MAX_ENTRIES then map h | h in last && now - last[h] < WINDOW :: last[h] else last
  }

  predicate Throttled(last: map<string, int>, x: Touch) {
    x.hash in last && x.now - last[x.hash] < WINDOW
  }

  function Touched(last: map<string, int>, x: Touch): map<string, int> {
    var kept := Evicted(last, x.now);
    if Throttled(kept, x) then kept else kept[x.hash := x.now]
  }

  class PATMiddleware {
    var lastTouch: map<string, int>

    constructor ()
      ensures lastTouch == map[]
    {
      lastTouch := map[];
    }

    method ShouldTouch(x: Touch) returns (yes: bool)
      modifies this
      ensures yes <==> !(x.hash in old(lastTouch) && x.now - old(lastTouch)[x.hash] < 60_000_000_000)
      ensures |old(lastTouch)| < 4096 ==> lastTouch == if yes then old(lastTouch)[x.hash := x.now] else old(lastTouch)
      ensures |old(lastTouch)| >= 4096 ==>
                forall h :: h != x.hash ==>
                  (h in lastTouch <==> h in old(lastTouch) && x.now - old(lastTouch)[h] < 60_000_000_000)
      ensures lastTouch == Touched(old(lastTouch), x)
    {
      if |lastTouch| >= MAX_ENTRIES {
        var todo := lastTouch.Keys;
        while todo != {}
          invariant todo <= lastTouch.Keys <= old(lastTouch).Keys
          invariant forall h :: h in lastTouch ==> lastTouch[h] == old(lastTouch)[h]
          invariant forall h :: h in old(lastTouch) ==>
            (h in lastTouch <==> h in todo || x.now - old(lastTouch)[h] < WINDOW)
          decreases todo
        {
          var h :| h in todo;
          if x.now - lastTouch[h] >= WINDOW {
            lastTouch := lastTouch - {h};
          }
          todo := todo - {h};
        }
        assert lastTouch == Evicted(old(lastTouch), x.now);
      }
      if x.hash in lastTouch && x.now - lastTouch[x.hash] < WINDOW {
        return false;
      }
      lastTouch := lastTouch[x.hash := x.now];
      return true;
    }
  }

  function After(xs: seq<Touch>): map<string, int> {
    if xs == [] then map[] else Touched(After(xs[..|xs| - 1]), xs[|xs| - 1])
  }

  predicate Granted(xs: seq<Touch>, i: nat)
    requires i < |xs|
  {
    !Throttled(After(xs[..i]), xs[i])
  }

  /** Request k found the map full and dropped what was stale at its reading. */
  predicate Evicts(xs: seq<Touch>, k: nat)
    requires k < |xs|
  {
    |After(xs[..k])| >= MAX_ENTRIES
  }

  /** Request i is what the map remembers of this token: granted, not granted again since, and
      not evicted since. */
  ghost predicate Remembered(xs: seq<Touch>, hash: string, i: nat) {
    && i < |xs| && Granted(xs, i) && xs[i].hash == hash
    && (forall k :: i < k < |xs| ==> !(Granted(xs, k) && xs[k].hash == hash))
    && (forall k :: i < k < |xs| ==> !(Evicts(xs, k) && xs[k].now - xs[i].now >= WINDOW))
  }

  /** The same, computed from the last request back. */
  function Holder(xs: seq<Touch>, hash: string): (h: Option<nat>)
    ensures h.Some? ==> h.value < |xs|
  {
    if xs == [] then None
    else
      var n := |xs| - 1;
      if Granted(xs, n) && xs[n].hash == hash then Some(n)
      else
        var h := Holder(xs[..n], hash);
        if h.Some? && Evicts(xs, n) && xs[n].now - xs[h.value].now >= WINDOW then None else h
  }

  lemma PrefixGrants(xs: seq<Touch>, n: nat)
    requires n <= |xs|
    ensures forall k :: 0 <= k < n ==> Granted(xs[..n], k) == Granted(xs, k) && Evicts(xs[..n], k) == Evicts(xs, k)
  {
    forall k | 0 <= k < n ensures Granted(xs[..n], k) == Granted(xs, k) && Evicts(xs[..n], k) == Evicts(xs, k) {
      assert xs[..n][..k] == xs[..k] && xs[..n][k] == xs[k];
    }
  }

  lemma {:induction false} HolderIsRemembered(xs: seq<Touch>, hash: string, i: nat)
    ensures Holder(xs, hash) == Some(i) <==> Remembered(xs, hash, i)
    decreases |xs|
  {
    hide Granted, Evicts;
    if xs != [] {
      var n := |xs| - 1;
      PrefixGrants(xs, n);
      HolderIsRemembered(xs[..n], hash, i);
    }
  }

  /** The map holds exactly the remembered requests, whatever the order of the readings. */
  lemma {:induction false} EntriesExact(xs: seq<Touch>, hash: string)
    ensures hash in After(xs) <==> Holder(xs, hash).Some?
    ensures Holder(xs, hash).Some? ==> After(xs)[hash] == xs[Holder(xs, hash).value].now
    decreases |xs|
  {
    if xs != [] {
      EntriesExact(xs[..|xs| - 1], hash);
    }
  }

  /** Exactly when a token is granted again. Let i be its latest grant before j: j is granted if
      and only if its own reading is a window past i's, or a request in between evicted with
      such a reading. */
  lemma GrantedAgainIff(xs: seq<Touch>, i: nat, j: nat)
    requires i < j < |xs| && Granted(xs, i) && xs[j].hash == xs[i].hash
    requires forall k :: i < k < j && xs[k].hash == xs[i].hash ==> !Granted(xs, k)
    ensures Granted(xs, j) <==>
              || xs[j].now - xs[i].now >= WINDOW
              || exists k :: i < k < j && Evicts(xs, k) && xs[k].now - xs[i].now >= WINDOW
  {
    hide After, Evicts;
    var before := xs[..j];
    PrefixGrants(xs, j);
    EntriesExact(before, xs[j].hash);
    HolderIsRemembered(before, xs[j].hash, i);
    assert Granted(before, i);
    var h := Holder(before, xs[j].hash);
    if h.Some? {
      HolderIsRemembered(before, xs[j].hash, h.value);
    }
  }

  /** As long as no request has got the lock with a reading a window past i's, i's token is not
      granted again. */
  lemma {:induction false} TouchesAreSpaced(xs: seq<Touch>, i: nat, j: nat)
    requires i < j < |xs| && Granted(xs, i) && xs[j].hash == xs[i].hash
    requires forall k :: i < k <= j ==> xs[k].now - xs[i].now < WINDOW
    ensures !Granted(xs, j)
    decreases j
  {
    forall k | i < k < j && xs[k].hash == xs[i].hash ensures !Granted(xs, k) {
      TouchesAreSpaced(xs, i, k);
    }
    GrantedAgainIff(xs, i, j);
  }

  /** Some touch of this token was granted less than a window ago. */
  ghost predicate RecentlyGranted(xs: seq<Touch>, hash: string, now: int) {
    exists k :: 0 <= k < |xs| && Granted(xs, k) && xs[k].hash == hash && now - xs[k].now < WINDOW
  }

  /** Forgetting is invisible to a request no earlier one has overtaken: it is refused exactly
      when a touch of its token was granted less than a window ago, however many tokens passed
      through the map meanwhile. */
  lemma ThrottleIsExact(xs: seq<Touch>, hash: string, now: int)
    requires forall k :: 0 <= k < |xs| ==> xs[k].now <= now
    ensures Throttled(After(xs), Touch(hash, now)) <==> RecentlyGranted(xs, hash, now)
  {
    hide After;
    EntriesExact(xs, hash);
    var h := Holder(xs, hash);
    if h.Some? {
      HolderIsRemembered(xs, hash, h.value);
    }
    if RecentlyGranted(xs, hash, now) {
      var i :| 0 <= i < |xs| && Granted(xs, i) && xs[i].hash == hash && now - xs[i].now < WINDOW;
      forall k | i < k < |xs| && xs[k].hash == hash ensures !Granted(xs, k) {
        TouchesAreSpaced(xs, i, k);
      }
      HolderIsRemembered(xs, hash, i);
    }
  }
}
