/**
  The one-shot bootstrap token: a boot claims a file, mints a token in one transaction and
  writes it into the claimed file, all under an exclusive lock. Boots interleave, crash after
  any step, meet failing calls, and the operator may delete the file at any moment. Writing
  and syncing the plaintext is one step.
 */
module Bootstrap {
  import opened Wrappers

  datatype Content = Empty | Token(token: nat) | Other

  /** What sits at the bootstrap path. */
  datatype Entry = Symlink | Special | File(inode: nat)

  datatype Result = Minted(token: nat) | AlreadyMinted | Failed

  /** Where a boot stands. From its claim on it remembers its inode and, for the statements
      below, how many deletions had happened when it claimed. */
  datatype Phase =
    | Waiting
    | Locked
    | Inspecting
    | Removing
    | Reclaiming
    | Claimed(inode: nat, at: nat)
    | Committed(inode: nat, at: nat, token: nat)
    | Written(inode: nat, at: nat, token: nat)
    | Failing(inode: nat, at: nat, token: nat)
    | Cleaning(inode: nat, at: nat)
    | Succeeded(inode: nat, at: nat, token: nat)
    | Refused
    | Aborted
    | Done(result: Result)

  /** The disk, the live bootstrap rows, the lock, and the boots. */
  datatype State = State(
    path: Option<Entry>, files: map<nat, Content>, live: set<nat>,
    nextInode: nat, nextToken: nat, deletions: nat,
    lock: Option<nat>, boots: map<nat, Phase>)

  datatype WriteOutcome = Synced | NotWritten | NotSynced

  /** `ok` is whether the call the step makes succeeds. */
  datatype Action =
    | Start(boot: nat)
    | Acquire(boot: nat)
    | TimeOut(boot: nat)
    | Claim(boot: nat, ok: bool)
    | Lstat(boot: nat, ok: bool)
    | Remove(boot: nat, ok: bool)
    | Reclaim(boot: nat, ok: bool)
    | Mint(boot: nat, ok: bool)
    | Write(boot: nat, outcome: WriteOutcome)
    | Close(boot: nat, ok: bool)
    | Revoke(boot: nat, ok: bool)
    | CleanUp(boot: nat, ok: bool)
    | Release(boot: nat)
    | Crash(boot: nat)
    | OperatorDeletes

  predicate Critical(ph: Phase) {
    !ph.Waiting? && !ph.Done?
  }

  predicate At(s: State, boot: nat, ph: Phase) {
    boot in s.boots && s.boots[boot] == ph
  }

  predicate Enabled(s: State, a: Action) {
    match a
    case Start(b) => b !in s.boots
    case Acquire(b) => At(s, b, Waiting) && s.lock.None?
    case TimeOut(b) => At(s, b, Waiting)
    case Claim(b, _) => At(s, b, Locked)
    case Lstat(b, _) => At(s, b, Inspecting)
    case Remove(b, _) => At(s, b, Removing)
    case Reclaim(b, _) => At(s, b, Reclaiming)
    case Mint(b, _) => b in s.boots && s.boots[b].Claimed?
    case Write(b, _) => b in s.boots && s.boots[b].Committed? && s.boots[b].inode in s.files
    case Close(b, _) => b in s.boots && s.boots[b].Written?
    case Revoke(b, _) => b in s.boots && s.boots[b].Failing?
    case CleanUp(b, _) => b in s.boots && s.boots[b].Cleaning?
    case Release(b) => b in s.boots && (s.boots[b].Succeeded? || s.boots[b].Refused? || s.boots[b].Aborted?)
    case Crash(b) => b in s.boots && !s.boots[b].Done?
    case OperatorDeletes => s.path.Some?
  }

  function Move(s: State, boot: nat, ph: Phase): State {
    s.(boots := s.boots[boot := ph])
  }

  /** O_CREATE|O_EXCL on a free path. */
  function Create(s: State, boot: nat): State {
    Move(s.(path := Some(File(s.nextInode)), files := s.files[s.nextInode := Empty], nextInode := s.nextInode + 1),
         boot, Claimed(s.nextInode, s.deletions))
  }

  function Perform(s: State, a: Action): State
    requires Enabled(s, a)
  {
    match a
    case Start(b) => Move(s, b, Waiting)
    case Acquire(b) => Move(s.(lock := Some(b)), b, Locked)
    case TimeOut(b) => Move(s, b, Done(Failed))
    case Claim(b, ok) =>
      if !ok then Move(s, b, Aborted)
      else if s.path.Some? then Move(s, b, Inspecting)
      else Create(s, b)
    case Lstat(b, ok) =>
      if !ok || s.path.None? || s.path.value.Symlink? then Move(s, b, Aborted)
      else if s.path.value.File? && s.path.value.inode in s.files && s.files[s.path.value.inode].Empty?
        then Move(s, b, Removing)
      else Move(s, b, Refused)
    case Remove(b, ok) =>
      if !ok || s.path.None? then Move(s, b, Aborted)
      else Move(s.(path := None), b, Reclaiming)
    case Reclaim(b, ok) =>
      if !ok then Move(s, b, Aborted)
      else if s.path.Some? then Move(s, b, Refused)
      else Create(s, b)
    case Mint(b, ok) =>
      var ph := s.boots[b];
      if !ok then Move(s, b, Cleaning(ph.inode, ph.at))
      else Move(s.(live := {s.nextToken}, nextToken := s.nextToken + 1), b, Committed(ph.inode, ph.at, s.nextToken))
    case Write(b, outcome) =>
      var ph := s.boots[b];
      var s' := if outcome.NotWritten? then s else s.(files := s.files[ph.inode := Token(ph.token)]);
      Move(s', b, if outcome.Synced? then Written(ph.inode, ph.at, ph.token) else Failing(ph.inode, ph.at, ph.token))
    case Close(b, ok) =>
      var ph := s.boots[b];
      Move(s, b, if ok then Succeeded(ph.inode, ph.at, ph.token) else Failing(ph.inode, ph.at, ph.token))
    case Revoke(b, ok) =>
      var ph := s.boots[b];
      Move(if ok then s.(live := s.live - {ph.token}) else s, b, Cleaning(ph.inode, ph.at))
    case CleanUp(b, ok) => Move(if ok then s.(path := None) else s, b, Aborted)
    case Release(b) =>
      var ph := s.boots[b];
      Move(s.(lock := None), b,
           Done(if ph.Succeeded? then Minted(ph.token) else if ph.Refused? then AlreadyMinted else Failed))
    case Crash(b) =>
      s.(lock := if s.lock == Some(b) then None else s.lock, boots := s.boots - {b})
    case OperatorDeletes => s.(path := None, deletions := s.deletions + 1)
  }

  // ---- The invariant ----

  /** The claimed file is still at the path, unless the operator has deleted it since. */
  predicate Mine(s: State, inode: nat, at: nat) {
    && inode in s.files && at <= s.deletions
    && s.path == if s.deletions == at then Some(File(inode)) else None
  }

  /** What the boot that holds the lock may rely on. */
  predicate Holds(s: State, ph: Phase) {
    match ph
    case Removing => s.path.Some? ==>
          s.path.value.File? && s.path.value.inode in s.files && s.files[s.path.value.inode].Empty?
    case Reclaiming => s.path.None?
    case Claimed(i, at) => Mine(s, i, at) && s.files[i].Empty?
    case Committed(i, at, k) => Mine(s, i, at) && s.files[i].Empty? && s.live == {k}
    case Written(i, at, k) => Mine(s, i, at) && s.files[i] == Token(k) && s.live == {k}
    case Failing(i, at, k) => Mine(s, i, at) && (s.files[i].Empty? || s.files[i] == Token(k)) && s.live == {k}
    case Cleaning(i, at) => Mine(s, i, at)
    case Succeeded(i, at, k) => Mine(s, i, at) && s.files[i] == Token(k) && s.live == {k}
    case _ => true
  }

  predicate WellFormed(s: State) {
    && (forall i :: i in s.files ==> i < s.nextInode)
    && (s.path.Some? && s.path.value.File? ==> s.path.value.inode in s.files)
    && (forall k :: k in s.live ==> k < s.nextToken)
  }

  ghost predicate Inv(s: State) {
    && WellFormed(s)
    && (forall j, k :: j in s.live && k in s.live ==> j == k)
    && (forall b :: b in s.boots ==> (Critical(s.boots[b]) <==> s.lock == Some(b)))
    && (forall b :: b in s.boots && Critical(s.boots[b]) ==> Holds(s, s.boots[b]))
    && (s.lock.Some? ==> s.lock.value in s.boots)
  }

  /** Any disk, at most one live token, no boot. */
  ghost predicate Init(s: State) {
    WellFormed(s) && s.boots == map[] && s.lock.None? && forall j, k :: j in s.live && k in s.live ==> j == k
  }

  /** A boot's own step leaves it with what its next phase relies on. */
  lemma OwnStepHolds(s: State, a: Action)
    requires Inv(s) && Enabled(s, a) && !a.OperatorDeletes? && !a.Crash?
    ensures var s' := Perform(s, a); Critical(s'.boots[a.boot]) ==> Holds(s', s'.boots[a.boot])
  {
    assert a.boot in s.boots && Critical(s.boots[a.boot]) ==> Holds(s, s.boots[a.boot]);
  }

  lemma OwnStepShape(s: State, a: Action)
    requires Inv(s) && Enabled(s, a) && !a.OperatorDeletes? && !a.Crash?
    ensures var s' := Perform(s, a);
            && WellFormed(s') && (forall j, k :: j in s'.live && k in s'.live ==> j == k)
            && s'.boots == s.boots[a.boot := s'.boots[a.boot]]
            && s'.lock == if a.Acquire? then Some(a.boot) else if a.Release? then None else s.lock
  {
    hide Holds;
    assert !a.Start? && !a.Acquire? && !a.TimeOut? ==> s.lock == Some(a.boot);
  }

  lemma WaitingStepIsHarmless(s: State, a: Action)
    requires Inv(s) && Enabled(s, a) && (a.Start? || a.TimeOut? || a.Acquire?)
    ensures var s' := Perform(s, a); s' == s.(boots := s'.boots, lock := s'.lock)
  {
  }

  lemma HoldsIgnoresBoots(s: State, s': State, ph: Phase)
    requires s' == s.(boots := s'.boots, lock := s'.lock)
    ensures Holds(s', ph) == Holds(s, ph)
  {
  }

  lemma StepKeepsInv(s: State, a: Action)
    requires Inv(s) && Enabled(s, a)
    ensures Inv(Perform(s, a))
  {
    var s' := Perform(s, a);
    if a.OperatorDeletes? {
    } else if a.Crash? {
      forall b | b in s'.boots && Critical(s'.boots[b]) ensures Holds(s', s'.boots[b]) {
        HoldsIgnoresBoots(s, s', s'.boots[b]);
      }
    } else {
      OwnStepHolds(s, a);
      OwnStepShape(s, a);
      forall b | b in s'.boots && b != a.boot && Critical(s'.boots[b]) ensures Holds(s', s'.boots[b]) {
        assert s.lock == Some(b);
        WaitingStepIsHarmless(s, a);
        HoldsIgnoresBoots(s, s', s'.boots[b]);
      }
      hide Perform, Holds, WellFormed;
    }
  }

  // ---- Runs ----

  /** Every action can happen where it does. */
  predicate Legal(s: State, acts: seq<Action>)
    decreases |acts|, 0
  {
    acts == [] || (Legal(s, acts[..|acts| - 1]) && Enabled(After(s, acts[..|acts| - 1]), acts[|acts| - 1]))
  }

  function After(s: State, acts: seq<Action>): State
    requires Legal(s, acts)
    decreases |acts|, 1
  {
    if acts == [] then s else Perform(After(s, acts[..|acts| - 1]), acts[|acts| - 1])
  }

  lemma {:induction false} RunKeepsInv(s: State, acts: seq<Action>)
    requires Inv(s) && Legal(s, acts)
    ensures Inv(After(s, acts))
    decreases |acts|
  {
    hide Inv, Perform, Enabled;
    if acts != [] {
      RunKeepsInv(s, acts[..|acts| - 1]);
      StepKeepsInv(After(s, acts[..|acts| - 1]), acts[|acts| - 1]);
    }
  }

  lemma {:induction false} LegalPrefix(s: State, acts: seq<Action>, j: nat)
    requires Legal(s, acts) && j <= |acts|
    ensures Legal(s, acts[..j])
    ensures j < |acts| ==> Legal(s, acts[..j + 1]) && Enabled(After(s, acts[..j]), acts[j])
                           && After(s, acts[..j + 1]) == Perform(After(s, acts[..j]), acts[j])
    decreases |acts|
  {
    hide Perform, Enabled;
    var n := |acts| - 1;
    if j < |acts| {
      assert acts[..j + 1][..j] == acts[..j];
      if j < n {
        assert acts[..n][..j] == acts[..j] && acts[..n][..j + 1] == acts[..j + 1];
        LegalPrefix(s, acts[..n], j);
      } else {
        assert acts[..j + 1] == acts;
      }
    } else {
      assert acts[..j] == acts;
    }
  }

  /** Whatever boots, crashes, failures and deletions came before, at most one bootstrap token
      is live. */
  lemma AtMostOneLive(s: State, acts: seq<Action>)
    requires Init(s) && Legal(s, acts)
    ensures |After(s, acts).live| <= 1
  {
    hide Perform, Enabled;
    RunKeepsInv(s, acts);
    var live := After(s, acts).live;
    if k :| k in live {
      assert live == {k};
    }
  }

  /** The file at the path holds exactly this token. */
  predicate HoldsToken(s: State, k: nat) {
    s.path.Some? && s.path.value.File? && s.path.value.inode in s.files && s.files[s.path.value.inode] == Token(k)
  }

  /** Past its claim, a boot remembers when it claimed. */
  predicate PastClaim(ph: Phase) {
    ph.Claimed? || ph.Committed? || ph.Written? || ph.Failing? || ph.Cleaning? || ph.Succeeded?
  }

  /** A run counts its deletions. */
  lemma {:induction false} DeletionsAreCounted(s: State, acts: seq<Action>)
    requires Legal(s, acts)
    ensures After(s, acts).deletions >= s.deletions
    ensures After(s, acts).deletions == s.deletions <==> OperatorDeletes !in acts
    decreases |acts|
  {
    hide Enabled;
    if acts != [] {
      var n := |acts| - 1;
      DeletionsAreCounted(s, acts[..n]);
      assert forall a :: a in acts <==> a in acts[..n] || a == acts[n];
    }
  }

  /** A boot that claimed and did not crash still remembers that claim, or is through. */
  predicate Claimer(s: State, b: nat, at: nat) {
    b in s.boots && ((PastClaim(s.boots[b]) && s.boots[b].at == at) || s.boots[b].Aborted? || s.boots[b].Done?)
  }

  lemma {:induction false} ClaimIsKept(s: State, acts: seq<Action>, b: nat, at: nat)
    requires Legal(s, acts) && Claimer(s, b, at) && Crash(b) !in acts
    ensures Claimer(After(s, acts), b, at)
    decreases |acts|
  {
    hide Claimer, Perform, Enabled;
    if acts != [] {
      ClaimIsKept(s, acts[..|acts| - 1], b, at);
      ClaimerSteps(After(s, acts[..|acts| - 1]), acts[|acts| - 1], b, at);
    }
  }

  lemma ClaimerSteps(s: State, a: Action, b: nat, at: nat)
    requires Enabled(s, a) && Claimer(s, b, at) && a != Crash(b)
    ensures Claimer(Perform(s, a), b, at)
  {
  }

  lemma ClaimReadsCount(s: State, a: Action, b: nat)
    requires Enabled(s, a) && (a == Claim(b, true) || a == Reclaim(b, true)) && Perform(s, a).boots[b].Claimed?
    ensures Claimer(Perform(s, a), b, s.deletions) && Perform(s, a).deletions == s.deletions
  {
  }

  /** A boot that is about to report success has minted the one live token, and the file holds
      it exactly when nobody deleted the file since the boot claimed it -- otherwise there is
      no file at all. `acts` runs up to and including the claim, `more` from there to success. */
  lemma SuccessHoldsIff(s: State, acts: seq<Action>, claim: Action, more: seq<Action>, b: nat)
    requires Init(s) && Legal(s, acts) && Enabled(After(s, acts), claim)
    requires (claim == Claim(b, true) || claim == Reclaim(b, true)) && Perform(After(s, acts), claim).boots[b].Claimed?
    requires Legal(Perform(After(s, acts), claim), more) && Crash(b) !in more
    requires var s' := After(Perform(After(s, acts), claim), more); b in s'.boots && s'.boots[b].Succeeded?
    ensures var s' := After(Perform(After(s, acts), claim), more);
            var token := s'.boots[b].token;
            && s'.live == {token}
            && Enabled(s', Release(b)) && Perform(s', Release(b)).boots[b] == Done(Minted(token))
            && (HoldsToken(s', token) <==> OperatorDeletes !in more)
            && (OperatorDeletes in more ==> s'.path.None?)
  {
    hide Perform, Legal, After, Inv;
    var before := After(s, acts);
    var claimed := Perform(before, claim);
    var s' := After(claimed, more);
    InitIsInv(s);
    RunKeepsInv(s, acts);
    StepKeepsInv(before, claim);
    RunKeepsInv(claimed, more);
    ClaimReadsCount(before, claim, b);
    ClaimIsKept(claimed, more, b, before.deletions);
    DeletionsAreCounted(claimed, more);
    LockHolder(s', b);
    ReleaseReports(s', b);
  }

  lemma InitIsInv(s: State)
    requires Init(s)
    ensures Inv(s)
  {
  }

  lemma ReleaseReports(s: State, b: nat)
    requires b in s.boots && s.boots[b].Succeeded?
    ensures Enabled(s, Release(b)) && Perform(s, Release(b)).boots[b] == Done(Minted(s.boots[b].token))
  {
  }

  // ---- Consume once ----

  /** The token is in its file and alone alive, and no boot is past the point of finding it. */
  ghost predicate Consumed(s: State, i: nat, k: nat) {
    && s.path == Some(File(i)) && i in s.files && s.files[i] == Token(k) && s.live == {k}
    && forall b :: b in s.boots && Critical(s.boots[b]) ==>
         s.boots[b] in {Locked, Inspecting, Refused, Aborted} || s.boots[b].Succeeded?
  }

  lemma StepStaysConsumed(s: State, a: Action, i: nat, k: nat)
    requires Consumed(s, i, k) && Enabled(s, a) && !a.OperatorDeletes?
    ensures Consumed(Perform(s, a), i, k) && Perform(s, a).nextToken == s.nextToken
  {
  }

  /** Until the operator deletes the file, later boots -- any number, interleaved, crashing --
      mint nothing, and leave file and token as they are. */
  lemma {:induction false} ConsumedOnce(s: State, acts: seq<Action>, i: nat, k: nat)
    requires Consumed(s, i, k) && Legal(s, acts) && OperatorDeletes !in acts
    ensures Consumed(After(s, acts), i, k) && After(s, acts).nextToken == s.nextToken
    decreases |acts|
  {
    hide Perform, Enabled, Consumed;
    if acts != [] {
      ConsumedOnce(s, acts[..|acts| - 1], i, k);
      StepStaysConsumed(After(s, acts[..|acts| - 1]), acts[|acts| - 1], i, k);
    }
  }

  lemma SuccessIsConsumed(s: State, b: nat)
    requires Inv(s) && b in s.boots && s.boots[b].Succeeded? && s.path.Some?
    ensures Consumed(s, s.boots[b].inode, s.boots[b].token)
  {
    assert Holds(s, s.boots[b]);
  }

  /** From any start: once a boot has succeeded with its file in place, no run in which the
      operator does not delete the file -- later boots, crashes and failures included -- mints
      another token or touches the file or the token. */
  lemma SuccessIsFinal(s: State, acts: seq<Action>, b: nat, more: seq<Action>)
    requires Init(s) && Legal(s, acts)
    requires var mid := After(s, acts); b in mid.boots && mid.boots[b].Succeeded? && mid.path.Some?
    requires Legal(After(s, acts), more) && OperatorDeletes !in more
    ensures var mid, end := After(s, acts), After(After(s, acts), more);
            && HoldsToken(end, mid.boots[b].token) && end.live == {mid.boots[b].token}
            && end.path == mid.path && end.nextToken == mid.nextToken
  {
    hide Perform, Legal, After, Inv;
    var mid := After(s, acts);
    InitIsInv(s);
    RunKeepsInv(s, acts);
    SuccessIsConsumed(mid, b);
    ConsumedOnce(mid, more, mid.boots[b].inode, mid.boots[b].token);
  }

  // ---- "Already minted" ----

  /** What survives the boots: the path, the files, the live tokens and the tokens used. */
  predicate SameDurable(s: State, s': State) {
    s'.path == s.path && s'.files == s.files && s'.live == s.live && s'.nextToken == s.nextToken
  }

  /** The phases a refused boot goes through. */
  predicate Innocent(ph: Phase) {
    ph in {Waiting, Locked, Inspecting, Refused, Done(AlreadyMinted)}
  }

  lemma InnocentBefore(s: State, a: Action, b: nat)
    requires Inv(s) && Enabled(s, a) && a != Crash(b)
    requires b in Perform(s, a).boots && Innocent(Perform(s, a).boots[b])
    ensures b in s.boots ==> Innocent(s.boots[b])
    ensures !a.OperatorDeletes? && a.boot == b ==> SameDurable(s, Perform(s, a))
  {
    if b in s.boots && s.boots[b].Reclaiming? {
      assert Holds(s, s.boots[b]);
    }
  }

  /** A boot that answers "already minted" changed nothing with any of its steps: not the
      path, not a file, not a token. */
  lemma {:induction false} AlreadyMintedTouchedNothing(s: State, acts: seq<Action>, b: nat, j: nat)
    requires Inv(s) && Legal(s, acts) && j < |acts| && Crash(b) !in acts
    requires b in After(s, acts).boots && Innocent(After(s, acts).boots[b])
    requires !acts[j].OperatorDeletes? && acts[j].boot == b
    ensures Legal(s, acts[..j]) && Legal(s, acts[..j + 1]) && SameDurable(After(s, acts[..j]), After(s, acts[..j + 1]))
    decreases |acts|
  {
    hide Perform, Enabled, Inv, Innocent;
    var n := |acts| - 1;
    LegalPrefix(s, acts, j);
    var before := After(s, acts[..n]);
    RunKeepsInv(s, acts[..n]);
    InnocentBefore(before, acts[n], b);
    if j < n {
      BootsStay(before, acts[n], b);
      assert acts[..n][..j] == acts[..j] && acts[..n][..j + 1] == acts[..j + 1];
      if b in before.boots {
        AlreadyMintedTouchedNothing(s, acts[..n], b, j);
      } else {
        BootWasThere(s, acts[..n], b, j);
      }
    } else {
      assert acts[..j] == acts[..n] && acts[..j + 1] == acts;
    }
  }

  lemma BootsStay(s: State, a: Action, b: nat)
    requires Enabled(s, a) && a != Crash(b)
    ensures b in s.boots ==> b in Perform(s, a).boots
    ensures !a.OperatorDeletes? && a.boot == b ==> b in Perform(s, a).boots
  {
  }

  /** A boot that acted and did not crash is on record. */
  lemma {:induction false} BootWasThere(s: State, acts: seq<Action>, b: nat, j: nat)
    requires Legal(s, acts) && j < |acts| && Crash(b) !in acts && !acts[j].OperatorDeletes? && acts[j].boot == b
    ensures b in After(s, acts).boots
    decreases |acts|
  {
    hide Perform, Enabled;
    var n := |acts| - 1;
    BootsStay(After(s, acts[..n]), acts[n], b);
    if j < n {
      BootWasThere(s, acts[..n], b, j);
    }
  }

  // ---- The corner a crash leaves ----

  /** A token file whose token is dead: it refuses every later boot and opens nothing. */
  predicate Lockout(s: State) {
    s.path.Some? && s.path.value.File? && s.path.value.inode in s.files
    && s.files[s.path.value.inode].Token? && s.files[s.path.value.inode].token !in s.live
  }

  /** It begins at one step exactly: a successful revocation, after a failed sync or close, of a
      token that reached the file and whose file nobody has deleted. The boot's own clean-up,
      next in line, ends it -- if it gets to run and the removal works. */
  lemma LockoutBeginsAtRevoke(s: State, a: Action)
    requires Inv(s) && Enabled(s, a) && !Lockout(s)
    ensures Lockout(Perform(s, a)) <==>
              a.Revoke? && a.ok && s.path.Some? && s.files[s.boots[a.boot].inode] == Token(s.boots[a.boot].token)
    ensures Lockout(Perform(s, a)) ==>
              var s' := Perform(s, a);
              Enabled(s', CleanUp(a.boot, true)) && !Lockout(Perform(s', CleanUp(a.boot, true)))
  {
    if !a.OperatorDeletes? && !a.Crash? && a.boot in s.boots && Critical(s.boots[a.boot]) {
      assert Holds(s, s.boots[a.boot]);
    }
  }

  /** A data directory nobody has booted from. */
  const FRESH := State(None, map[], {}, 0, 0, 0, None, map[])

  ghost predicate Reachable(s: State) {
    exists acts :: Legal(FRESH, acts) && After(FRESH, acts) == s
  }

  lemma ReachableStep(s: State, a: Action)
    requires Reachable(s) && Enabled(s, a)
    ensures Reachable(Perform(s, a))
  {
    hide Perform, Enabled;
    var acts :| Legal(FRESH, acts) && After(FRESH, acts) == s;
    assert (acts + [a])[..|acts|] == acts;
    assert Legal(FRESH, acts + [a]) && After(FRESH, acts + [a]) == Perform(s, a);
  }

  /** The first boot, with its row committed. */
  const COMMITTED := State(Some(File(0)), map[0 := Empty], {0}, 1, 1, 0, Some(0), map[0 := Committed(0, 0, 0)])

  lemma CommittedIsReachable()
    ensures Reachable(COMMITTED)
  {
    hide After, Legal, Reachable;
    assert Reachable(FRESH) by {
      StartsHere();
    }
    ReachableStep(FRESH, Start(0));
    var s1 := FRESH.(boots := map[0 := Waiting]);
    assert Perform(FRESH, Start(0)) == s1;
    ReachableStep(s1, Acquire(0));
    var s2 := FRESH.(lock := Some(0), boots := map[0 := Locked]);
    assert Perform(s1, Acquire(0)) == s2;
    ReachableStep(s2, Claim(0, true));
    var s3 := State(Some(File(0)), map[0 := Empty], {}, 1, 0, 0, Some(0), map[0 := Claimed(0, 0)]);
    assert Perform(s2, Claim(0, true)) == s3;
    ReachableStep(s3, Mint(0, true));
    assert Perform(s3, Mint(0, true)) == COMMITTED;
  }

  lemma StartsHere()
    ensures Reachable(FRESH)
  {
    assert Legal(FRESH, []) && After(FRESH, []) == FRESH;
  }

  /** Close fails, the token is revoked, the process dies before it removes the file... */
  const LOCKED_OUT := State(Some(File(0)), map[0 := Token(0)], {}, 1, 1, 0, None, map[])

  lemma LockoutIsReachable()
    ensures Reachable(LOCKED_OUT) && Lockout(LOCKED_OUT)
  {
    hide After, Legal, Reachable;
    CommittedIsReachable();
    ReachableStep(COMMITTED, Write(0, Synced));
    var written := COMMITTED.(files := map[0 := Token(0)], boots := map[0 := Written(0, 0, 0)]);
    assert Perform(COMMITTED, Write(0, Synced)) == written;
    ReachableStep(written, Close(0, false));
    var failing := written.(boots := map[0 := Failing(0, 0, 0)]);
    assert Perform(written, Close(0, false)) == failing;
    ReachableStep(failing, Revoke(0, true));
    var cleaning := failing.(live := {}, boots := map[0 := Cleaning(0, 0)]);
    assert Perform(failing, Revoke(0, true)) == cleaning;
    ReachableStep(cleaning, Crash(0));
    assert Perform(cleaning, Crash(0)) == LOCKED_OUT;
  }

  /** The operator deletes the claimed file before the write: success is reported, the token
      is live, and no file holds it. */
  lemma SuccessWithoutFileIsReachable()
    ensures exists s :: Reachable(s) && s.boots == map[0 := Done(Minted(0))] && s.live == {0} && s.path == None
  {
    hide After, Legal, Reachable;
    CommittedIsReachable();
    ReachableStep(COMMITTED, OperatorDeletes);
    var deleted := COMMITTED.(path := None, deletions := 1);
    ReachableStep(deleted, Write(0, Synced));
    var written := deleted.(files := map[0 := Token(0)], boots := map[0 := Written(0, 0, 0)]);
    assert Perform(deleted, Write(0, Synced)) == written;
    ReachableStep(written, Close(0, true));
    var succeeded := written.(boots := map[0 := Succeeded(0, 0, 0)]);
    assert Perform(written, Close(0, true)) == succeeded;
    ReachableStep(succeeded, Release(0));
    assert Perform(succeeded, Release(0)).boots == map[0 := Done(Minted(0))];
  }

  // ---- One boot, start to finish ----

  /** Which calls of one boot fail. */
  datatype Faults = Faults(timeOut: bool, claim: bool, lstat: bool, remove: bool, reclaim: bool, mint: bool,
                           write: WriteOutcome, close: bool, revoke: bool, cleanUp: bool)

  const NO_FAULTS := Faults(false, false, false, false, false, false, Synced, false, false, false)

  /** Is the path free for a boot, at once or after removing a crashed claim? */
  predicate Claimable(s: State) {
    s.path.None? || (s.path.value.File? && s.path.value.inode in s.files && s.files[s.path.value.inode].Empty?)
  }

  lemma LockHolder(s: State, b: nat)
    requires Inv(s) && b in s.boots && Critical(s.boots[b])
    ensures s.lock == Some(b) && Holds(s, s.boots[b]) && WellFormed(s)
  {
  }

  class Host {
    var s: State
    ghost var start: State
    ghost var acts: seq<Action>

    constructor (initial: State)
      requires Inv(initial)
      ensures s == initial == start && acts == [] && Valid()
    {
      s, start, acts := initial, initial, [];
    }

    /** What the host went through so far is a legal run. */
    ghost predicate Valid()
      reads this
    {
      Inv(s) && Legal(start, acts) && After(start, acts) == s
    }

    method Do(a: Action)
      requires Valid() && Enabled(s, a)
      modifies this
      ensures Valid() && start == old(start) && acts == old(acts) + [a]
      ensures s == Perform(old(s), a)
    {
      StepKeepsInv(s, a);
      assert (acts + [a])[..|acts|] == acts;
      acts := acts + [a];
      s := Perform(s, a);
    }

    /** The boot's end: whatever it decided, the lock is let go. */
    method Finish(b: nat) returns (r: Result)
      requires Valid() && Enabled(s, Release(b))
      modifies this
      ensures Valid() && start == old(start) && acts == old(acts) + [Release(b)]
      ensures s == Perform(old(s), Release(b)) && s.boots[b] == Done(r)
    {
      Do(Release(b));
      r := s.boots[b].result;
    }

    /** Revoke what was committed, if anything was, and remove the claim. */
    method GiveUp(b: nat, faults: Faults) returns (r: Result)
      requires Valid() && b in s.boots && (s.boots[b].Failing? || s.boots[b].Cleaning?)
      modifies this
      ensures Valid() && start == old(start) && old(acts) <= acts
      ensures r == Failed && s.lock.None? && s.boots == old(s.boots)[b := Done(r)]
      ensures !faults.cleanUp ==> s.path.None?
      ensures old(s.boots[b]).Failing? && !faults.revoke ==> s.live == {}
    {
      hide Legal, After, Inv;
      LockHolder(s, b);
      if s.boots[b].Failing? {
        Do(Revoke(b, !faults.revoke));
      }
      Do(CleanUp(b, !faults.cleanUp));
      r := Finish(b);
    }

    /** The mint and the write, into a claimed file. */
    method MintInto(b: nat, faults: Faults) returns (r: Result)
      requires Valid() && b in s.boots && s.boots[b].Claimed? && s.path.Some?
      modifies this
      ensures Valid() && start == old(start) && old(acts) <= acts
      ensures !r.AlreadyMinted? && s.lock.None? && s.boots == old(s.boots)[b := Done(r)]
      ensures r.Minted? ==> HoldsToken(s, r.token) && s.live == {r.token} && r.token == old(s.nextToken)
      ensures r.Minted? <==> !faults.mint && faults.write.Synced? && !faults.close
      ensures r.Failed? && !faults.cleanUp ==> s.path.None?
      ensures r.Failed? && !faults.mint && !faults.revoke ==> s.live == {}
    {
      hide Legal, After, Inv, WellFormed;
      LockHolder(s, b);
      Do(Mint(b, !faults.mint));
      if faults.mint {
        r := GiveUp(b, faults);
        return;
      }
      Do(Write(b, faults.write));
      if !faults.write.Synced? {
        r := GiveUp(b, faults);
        return;
      }
      Do(Close(b, !faults.close));
      if faults.close {
        r := GiveUp(b, faults);
        return;
      }
      r := Finish(b);
    }

    /** Claim the path, clearing away a crashed claim. */
    method ClaimPath(b: nat, faults: Faults)
      requires Valid() && At(s, b, Locked)
      modifies this
      ensures Valid() && start == old(start) && old(acts) <= acts
      ensures b in s.boots && s.boots == old(s.boots)[b := s.boots[b]]
      ensures s.lock == old(s.lock) && s.live == old(s.live) && s.nextToken == old(s.nextToken)
      ensures var ph := s.boots[b];
              && (ph.Claimed? || ph.Refused? || ph.Aborted?)
              && (ph.Refused? ==> SameDurable(old(s), s) && !Claimable(old(s)))
              && (ph.Claimed? ==> s.path.Some? && Claimable(old(s)))
              && (!faults.claim && !faults.lstat && !faults.remove && !faults.reclaim ==>
                    (ph.Claimed? <==> Claimable(old(s))) && (ph.Aborted? <==> old(s.path) == Some(Symlink)))
    {
      hide Legal, After, Inv;
      Do(Claim(b, !faults.claim));
      if s.boots[b].Inspecting? {
        LockHolder(s, b);
        Do(Lstat(b, !faults.lstat));
        if s.boots[b].Removing? {
          Do(Remove(b, !faults.remove));
          if s.boots[b].Reclaiming? {
            Do(Reclaim(b, !faults.reclaim));
          }
        }
      }
    }

    /** One undisturbed boot: it times out, is refused, fails, or mints. */
    method RunBootstrapPAT(b: nat, faults: Faults) returns (r: Result)
      requires Valid() && b !in s.boots
      modifies this
      ensures Valid() && start == old(start) && old(acts) <= acts
      ensures s.boots == old(s.boots)[b := Done(r)] && s.lock == old(s.lock)
      ensures r.AlreadyMinted? ==> SameDurable(old(s), s) && !Claimable(old(s))
      ensures r.Minted? ==>
            HoldsToken(s, r.token) && s.live == {r.token} && r.token == old(s.nextToken) && Claimable(old(s))
      ensures faults == NO_FAULTS && old(s.lock).None? ==>
                && (r.Minted? <==> Claimable(old(s)))
                && (r.Failed? <==> old(s.path) == Some(Symlink))
    {
      hide Legal, After, Inv, HoldsToken;
      Do(Start(b));
      if faults.timeOut || s.lock.Some? {
        Do(TimeOut(b));
        return Failed;
      }
      Do(Acquire(b));
      assert Claimable(s) == Claimable(old(s)) && SameDurable(old(s), s);
      hide Claimable;
      ClaimPath(b, faults);
      if s.boots[b].Claimed? {
        r := MintInto(b, faults);
      } else {
        r := Finish(b);
      }
    }
  }
}
