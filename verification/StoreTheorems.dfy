/** What every run of the pairing store keeps, whatever the interleaving, the failures and the crashes. */
module StoreTheorems {
  import opened Wrappers
  import opened Pairings
  import opened PairingStore

  /** From taking the lock to giving it back. */
  predicate InLock(at: Stage) {
    at.LockedStat? || at.LockedRead? || at.Renaming? || at.Restamping? || at.Unlocking?
  }

  /** The lock is held and nothing has been renamed under it yet. */
  predicate BeforeRename(at: Stage) {
    at.LockedStat? || at.LockedRead? || at.Renaming?
  }

  ghost predicate CachesVersion(versions: seq<File>, cache: Cache, v: nat) {
    cache.stamp <= v <= |versions| && cache.file == Version(versions, v)
  }

  /** The cache is some version of the file, never one older than the stamp kept with it. */
  ghost predicate CacheSound(versions: seq<File>, cache: Cache) {
    exists v :: CachesVersion(versions, cache, v)
  }

  function AgentOf(file: Option<File>): Option<string> {
    if file.None? then None else Some(file.value.agentId)
  }

  /** The identity known is the cached file's, but for the one a file just renamed brings. */
  ghost predicate IdentityFits(cache: Cache, at: Stage) {
    if at.Restamping? && at.change.MakeIdentity?
    then cache.identity.None? && AgentOf(cache.file) == Some(at.change.agentId)
    else cache.identity == AgentOf(cache.file)
  }

  /** Holds for a live process and for a dead one. */
  ghost predicate ProcSound(versions: seq<File>, proc: Proc) {
    && CacheSound(versions, proc.cache)
    && IdentityFits(proc.cache, proc.at)
    && (proc.at.QuietRead? ==> proc.at.seen <= |versions|)
  }

  /** What the lock's holder may rely on. */
  ghost predicate HolderSound(versions: seq<File>, proc: Proc) {
    var disk := Version(versions, |versions|);
    && (proc.at.LockedRead? ==> proc.at.seen == |versions|)
    && (proc.at.Renaming? ==> proc.cache.file == disk && Decide(proc.at.change, disk) == Written(proc.at.next))
    && (proc.at.Restamping? ==> proc.cache.file == disk)
  }

  ghost predicate LockSound(s: State) {
    && (forall p :: Live(s, p) && InLock(s.procs[p].at) ==> s.holder == Some(p))
    && (s.holder.Some? ==> Live(s, s.holder.value) && InLock(s.procs[s.holder.value].at))
  }

  ghost predicate Sound(s: State) {
    && (forall p :: p in s.procs ==> ProcSound(s.versions, s.procs[p]))
    && LockSound(s)
    && (s.holder.Some? && s.holder.value in s.procs ==> HolderSound(s.versions, s.procs[s.holder.value]))
  }

  /** A process that has just started: nothing cached, nothing asked. */
  predicate Fresh(proc: Proc) {
    && proc.cache == Cache(None, None, 0, None) && proc.queue == [] && proc.at.Resting?
    && proc.making == None && proc.settled == map[] && proc.calls == map[] && proc.asked == []
  }

  /** The file may be there already. */
  ghost predicate Init(s: State) {
    && |s.versions| <= 1 && s.holder == None && s.crashed == {} && s.grants == 0 && s.commits == []
    && (forall p :: p in s.procs ==> Fresh(s.procs[p]))
    && (s.versions != [] ==> UniqueIds(s.versions[0].pairings))
  }

  lemma InitSound(s: State)
    requires Init(s)
    ensures Sound(s)
  {
    forall p | p in s.procs ensures ProcSound(s.versions, s.procs[p]) {
      assert CachesVersion(s.versions, s.procs[p].cache, 0);
    }
  }

  // What a step does to the rest

  ghost predicate StepFrame(s: State, p: Pid, s': State)
    requires Live(s, p)
  {
    && p in s'.procs && s'.procs == s.procs[p := s'.procs[p]]
    && s.versions <= s'.versions && |s'.versions| <= |s.versions| + 1
    && (s'.versions != s.versions ==> s.procs[p].at.Renaming?)
    && s'.crashed - {p} <= s.crashed <= s'.crashed
    && (s'.holder == s.holder || s'.holder == Some(p) || (s'.holder == None && InLock(s.procs[p].at)))
  }

  lemma AdvanceFrame(s: State, p: Pid)
    requires Live(s, p)
    ensures StepFrame(s, p, Step(s, p))
  {
  }

  lemma ApplyFrame(s: State, e: Event)
    requires Live(s, e.p) && (s.holder == Some(e.p) ==> InLock(s.procs[e.p].at))
    ensures StepFrame(s, e.p, Apply(s, e))
  {
    if e.Advance? { AdvanceFrame(s, e.p); }
  }

  // Caches

  lemma VersionsOnlyGrow(versions: seq<File>, later: seq<File>, cache: Cache)
    requires versions <= later && CacheSound(versions, cache)
    ensures CacheSound(later, cache)
  {
    var v :| CachesVersion(versions, cache, v);
    assert CachesVersion(later, cache, v);
  }

  /** A cache whose stamp is the disk's is the disk's file: nothing renamed since. */
  lemma CurrentStampCurrentFile(versions: seq<File>, cache: Cache)
    requires CacheSound(versions, cache) && cache.stamp == |versions|
    ensures cache.file == Version(versions, |versions|)
  {
  }

  lemma DiskSound(versions: seq<File>, cache: Cache)
    requires cache.stamp <= |versions| && cache.file == Version(versions, |versions|)
    ensures CacheSound(versions, cache)
  {
    assert CachesVersion(versions, cache, |versions|);
  }

  lemma SameCacheSound(versions: seq<File>, cache: Cache, cache': Cache)
    requires CacheSound(versions, cache) && cache'.file == cache.file && cache'.stamp == cache.stamp
    ensures CacheSound(versions, cache')
  {
    var v :| CachesVersion(versions, cache, v);
    assert CachesVersion(versions, cache', v);
  }

  // One lemma for each stage of the work

  lemma WorkSound(versions: seq<File>, proc: Proc)
    requires CacheSound(versions, proc.cache) && proc.cache.identity == AgentOf(proc.cache.file)
    requires proc.cache.file == Version(versions, |versions|)
    ensures ProcSound(versions, Work(proc)) && HolderSound(versions, Work(proc)) && InLock(Work(proc).at)
  {
  }

  lemma QuietStatSound(versions: seq<File>, proc: Proc)
    requires proc.at.QuietStat? && ProcSound(versions, proc)
    ensures ProcSound(versions, OnQuietStat(proc, |versions|)) && !InLock(OnQuietStat(proc, |versions|).at)
  {
  }

  lemma QuietReadSound(versions: seq<File>, proc: Proc)
    requires proc.at.QuietRead? && ProcSound(versions, proc)
    ensures ProcSound(versions, OnQuietRead(proc, proc.at.seen, Version(versions, |versions|)))
  {
    DiskSound(versions, Adopt(proc.cache, Version(versions, |versions|), proc.at.seen));
  }

  lemma LockedStatSound(versions: seq<File>, proc: Proc)
    requires proc.at.LockedStat? && ProcSound(versions, proc)
    ensures var proc' := OnLockedStat(proc, |versions|);
      ProcSound(versions, proc') && HolderSound(versions, proc') && InLock(proc'.at)
  {
    if proc.cache.stamp == |versions| {
      CurrentStampCurrentFile(versions, proc.cache);
      WorkSound(versions, proc);
    }
  }

  lemma LockedReadSound(versions: seq<File>, proc: Proc)
    requires proc.at.LockedRead? && ProcSound(versions, proc) && HolderSound(versions, proc)
    ensures var proc' := OnLockedRead(proc, proc.at.seen, Version(versions, |versions|));
      ProcSound(versions, proc') && HolderSound(versions, proc') && InLock(proc'.at)
  {
    var cache := Adopt(proc.cache, Version(versions, |versions|), proc.at.seen);
    DiskSound(versions, cache);
    WorkSound(versions, proc.(cache := cache));
  }

  lemma RenameSound(versions: seq<File>, proc: Proc)
    requires proc.at.Renaming? && ProcSound(versions, proc) && HolderSound(versions, proc)
    ensures var proc' := OnRename(proc, proc.at.change, proc.at.next);
      ProcSound(versions + [proc.at.next], proc') && HolderSound(versions + [proc.at.next], proc')
  {
    var proc' := OnRename(proc, proc.at.change, proc.at.next);
    RenameKeepsAgent(proc.at.change, proc.cache.file);
    DiskSound(versions + [proc.at.next], proc'.cache);
  }

  /** A change of a file keeps its agent id, and one that makes a file gives it its own. */
  lemma RenameKeepsAgent(change: Change, now: Option<File>)
    requires Decide(change, now).Written?
    ensures var agentId := Decide(change, now).file.agentId;
      if change.MakeIdentity? then now.None? && agentId == change.agentId else Some(agentId) == AgentOf(now)
  {
  }

  lemma RestampSound(versions: seq<File>, proc: Proc)
    requires proc.at.Restamping? && ProcSound(versions, proc) && HolderSound(versions, proc)
    ensures ProcSound(versions, OnRestamp(proc, proc.at.change, |versions|))
  {
    DiskSound(versions, OnRestamp(proc, proc.at.change, |versions|).cache);
  }

  lemma ThrowSound(versions: seq<File>, proc: Proc)
    requires ProcSound(versions, proc) && (InLock(proc.at) ==> HolderSound(versions, proc))
    ensures ProcSound(versions, OnThrow(proc))
    ensures InLock(OnThrow(proc).at) == InLock(proc.at)
    ensures InLock(proc.at) ==> HolderSound(versions, OnThrow(proc))
  {
    SameCacheSound(versions, proc.cache, OnThrow(proc).cache);
  }

  /** The process that moved, and what it may rely on while it holds the lock. */
  lemma AdvanceSound(s: State, p: Pid)
    requires p in s.procs && ProcSound(s.versions, s.procs[p])
    requires InLock(s.procs[p].at) ==> HolderSound(s.versions, s.procs[p])
    ensures var s' := Step(s, p);
      && p in s'.procs && ProcSound(s'.versions, s'.procs[p])
      && (InLock(s'.procs[p].at) ==> HolderSound(s'.versions, s'.procs[p]))
  {
    var proc := s.procs[p];
    match proc.at
    case QuietStat => QuietStatSound(s.versions, proc);
    case QuietRead(_) => QuietReadSound(s.versions, proc);
    case LockedStat => LockedStatSound(s.versions, proc);
    case LockedRead(_) => LockedReadSound(s.versions, proc);
    case Renaming(_, _) => RenameSound(s.versions, proc);
    case Restamping(_) => RestampSound(s.versions, proc);
    case _ =>
  }

  /** Asking and going on touch neither the cache nor the work at hand. */
  lemma AskingKeepsWork(s: State, e: Event)
    requires Live(s, e.p) && (e.AskIdentity? || e.AskFor? || e.Resume? || e.Unshare?)
    ensures var s', proc := Apply(s, e), s.procs[e.p];
      && e.p in s'.procs && s'.procs[e.p].cache == proc.cache
            && s'.procs[e.p].at == proc.at && s'.procs[e.p].job == proc.job
      && s' == s.(procs := s'.procs)
  {
  }

  lemma MoverSound(s: State, e: Event)
    requires Live(s, e.p) && ProcSound(s.versions, s.procs[e.p])
    requires InLock(s.procs[e.p].at) ==> HolderSound(s.versions, s.procs[e.p])
    ensures var s' := Apply(s, e);
      && e.p in s'.procs && ProcSound(s'.versions, s'.procs[e.p])
      && (InLock(s'.procs[e.p].at) ==> HolderSound(s'.versions, s'.procs[e.p]))
  {
    match e
    case Advance(p) => AdvanceSound(s, p);
    case Throw(p) => ThrowSound(s.versions, s.procs[p]);
    case Begin(_) =>
    case GiveUp(_) =>
    case Crash(_) =>
    case _ => AskingKeepsWork(s, e);
  }

  // The lock

  /** The mover holds the lock after its step exactly when it is still inside, and no one else's hold changes. */
  ghost predicate LockMoves(s: State, p: Pid, s': State) {
    && p in s'.procs
    && (Live(s', p) && InLock(s'.procs[p].at) <==> s'.holder == Some(p))
    && (s.holder != s'.holder ==> s.holder.None? || s.holder == Some(p))
    && (s.holder != s'.holder ==> s'.holder.None? || s'.holder == Some(p))
  }

  lemma AdvanceMovesLock(s: State, p: Pid)
    requires Live(s, p) && (InLock(s.procs[p].at) <==> s.holder == Some(p))
    ensures LockMoves(s, p, Step(s, p))
  {
  }

  lemma MoverAndLock(s: State, e: Event)
    requires Live(s, e.p) && (InLock(s.procs[e.p].at) <==> s.holder == Some(e.p))
    ensures LockMoves(s, e.p, Apply(s, e))
  {
    match e
    case Advance(p) => AdvanceMovesLock(s, p);
    case Throw(_) =>
    case Begin(_) =>
    case GiveUp(_) =>
    case Crash(_) =>
    case _ => AskingKeepsWork(s, e);
  }

  lemma LockStaysSound(s: State, e: Event)
    requires LockSound(s) && Live(s, e.p)
    ensures LockSound(Apply(s, e))
  {
    ApplyFrame(s, e);
    MoverAndLock(s, e);
  }

  lemma StepKeepsSound(s: State, e: Event)
    requires Sound(s)
    ensures Sound(Apply(s, e))
  {
    if Live(s, e.p) {
      var s' := Apply(s, e);
      ApplyFrame(s, e);
      LockStaysSound(s, e);
      MoverSound(s, e);
      forall q | q in s'.procs && q != e.p ensures ProcSound(s'.versions, s'.procs[q]) {
        assert ProcSound(s.versions, s.procs[q]);
        VersionsOnlyGrow(s.versions, s'.versions, s.procs[q].cache);
      }
    }
  }

  lemma StepKeepsProcs(s: State, e: Event)
    ensures Apply(s, e).procs.Keys == s.procs.Keys
  {
    if Live(s, e.p) {
      if e.Advance? { AdvanceFrame(s, e.p); }
    }
  }

  /** Over every run no process appears or is lost, and every cache stays sound. */
  lemma {:induction false} RunsStaySound(s: State, es: seq<Event>)
    requires Init(s)
    ensures Sound(Execute(s, es)) && Execute(s, es).procs.Keys == s.procs.Keys
    decreases |es|
  {
    if es == [] {
      InitSound(s);
    } else {
      RunsStaySound(s, es[..|es| - 1]);
      StepKeepsSound(Execute(s, es[..|es| - 1]), es[|es| - 1]);
      StepKeepsProcs(Execute(s, es[..|es| - 1]), es[|es| - 1]);
    }
  }

  /**
   Lock-free refreshes that race a rename included: a cache is never older than its stamp, and a cache whose
   stamp is the disk's is the disk's file.
   */
  lemma CachesAgreeWithDisk(s: State, es: seq<Event>, p: Pid)
    requires Init(s) && p in Execute(s, es).procs
    ensures var t := Execute(s, es);
      && CacheSound(t.versions, t.procs[p].cache)
      && (t.procs[p].cache.stamp == |t.versions| ==> t.procs[p].cache.file == OnDisk(t))
  {
    RunsStaySound(s, es);
    SoundCachesAgree(Execute(s, es), p);
  }

  lemma SoundCachesAgree(t: State, p: Pid)
    requires Sound(t) && p in t.procs
    ensures CacheSound(t.versions, t.procs[p].cache)
    ensures t.procs[p].cache.stamp == |t.versions| ==> t.procs[p].cache.file == OnDisk(t)
  {
    assert ProcSound(t.versions, t.procs[p]);
  }

  // No lost updates

  ghost predicate InLockOrder(commits: seq<Commit>) {
    forall i, j :: 0 <= i < j < |commits| ==> commits[i].grant < commits[j].grant
  }

  /**
   Commits are in lock order, none under a later grant than the last, nor under the one of a holder still to rename.
   */
  ghost predicate GrantsInOrder(s: State) {
    && InLockOrder(s.commits)
    && (forall i :: 0 <= i < |s.commits| ==> s.commits[i].grant <= s.grants)
    && (s.holder.Some? && Live(s, s.holder.value) && BeforeRename(s.procs[s.holder.value].at) ==>
          forall i :: 0 <= i < |s.commits| ==> s.commits[i].grant < s.grants)
  }

  ghost predicate History(base: Option<File>, s: State) {
    OnDisk(s) == Fold(base, s.commits) && GrantsInOrder(s)
  }

  lemma FoldNext(base: Option<File>, commits: seq<Commit>, c: Commit)
    ensures Fold(base, commits + [c])
         == (var before := Fold(base, commits);
             var outcome := Decide(c.change, before);
             if outcome.Written? then Some(outcome.file) else before)
  {
    assert (commits + [c])[..|commits + [c]| - 1] == commits;
  }

  predicate Writes(s: State, e: Event)
    requires Live(s, e.p)
  {
    e.Advance? && s.procs[e.p].at.Renaming?
  }

  lemma WritesOrNot(s: State, e: Event)
    requires Live(s, e.p)
    ensures var s', proc := Apply(s, e), s.procs[e.p];
      if Writes(s, e) then
        && s'.holder == s.holder && s'.grants == s.grants && s'.versions == s.versions + [proc.at.next]
        && s'.commits == s.commits + [Commit(e.p, proc.job.ticket, s.grants, proc.at.change)]
        && e.p in s'.procs && s'.procs[e.p] == OnRename(proc, proc.at.change, proc.at.next)
      else
        s'.versions == s.versions && s'.commits == s.commits
  {
    if !e.Advance? && !e.Throw? && !e.Begin? && !e.GiveUp? && !e.Crash? { AskingKeepsWork(s, e); }
  }

  /** The only step that writes is the holder's rename: one version, made by its change from the disk's file. */
  lemma OnlyRenameWrites(s: State, e: Event)
    requires Sound(s) && Live(s, e.p)
    ensures var s', proc := Apply(s, e), s.procs[e.p];
      if e.Advance? && proc.at.Renaming? then
        && s.holder == Some(e.p) && s'.versions == s.versions + [proc.at.next]
        && s'.commits == s.commits + [Commit(e.p, proc.job.ticket, s.grants, proc.at.change)]
        && Decide(proc.at.change, OnDisk(s)) == Written(proc.at.next)
      else
        s'.versions == s.versions && s'.commits == s.commits
  {
    WritesOrNot(s, e);
  }

  /** The lock is granted only when no one holds it, under a new number; within a grant a process only moves on. */
  lemma GrantsAreFresh(s: State, e: Event)
    requires Live(s, e.p)
    ensures var s', at := Apply(s, e), s.procs[e.p].at;
      && e.p in s'.procs && s'.grants >= s.grants
      && (s'.holder == Some(e.p) && s.holder != Some(e.p) ==> s'.grants == s.grants + 1)
      && (s'.holder == s.holder ==> s'.grants == s.grants)
      && (s'.holder == Some(e.p) && s.holder == Some(e.p) && BeforeRename(s'.procs[e.p].at) ==>
            InLock(at) ==> BeforeRename(at))
  {
    match e
    case Advance(p) => AdvanceIsFresh(s, p);
    case Throw(_) =>
    case Begin(_) =>
    case GiveUp(_) =>
    case Crash(_) =>
    case _ => AskingKeepsWork(s, e);
  }

  lemma AdvanceIsFresh(s: State, p: Pid)
    requires Live(s, p)
    ensures var s', at := Step(s, p), s.procs[p].at;
      && p in s'.procs && s'.grants >= s.grants
      && (s'.holder == Some(p) && s.holder != Some(p) ==> s'.grants == s.grants + 1)
      && (s'.holder == s.holder ==> s'.grants == s.grants)
      && (s'.holder == Some(p) && s.holder == Some(p) && BeforeRename(s'.procs[p].at) ==>
            InLock(at) ==> BeforeRename(at))
  {
  }

  lemma StepKeepsFold(base: Option<File>, s: State, e: Event)
    requires Sound(s) && OnDisk(s) == Fold(base, s.commits)
    ensures OnDisk(Apply(s, e)) == Fold(base, Apply(s, e).commits)
  {
    if Live(s, e.p) {
      OnlyRenameWrites(s, e);
      if Writes(s, e) {
        FoldNext(base, s.commits, Commit(e.p, s.procs[e.p].job.ticket, s.grants, s.procs[e.p].at.change));
      }
    }
  }

  lemma StepKeepsGrants(s: State, e: Event)
    requires Sound(s) && GrantsInOrder(s)
    ensures GrantsInOrder(Apply(s, e))
  {
    if Live(s, e.p) {
      ApplyFrame(s, e);
      WritesOrNot(s, e);
      GrantsAreFresh(s, e);
    }
  }

  /** The file is the committed changes applied one after the other, in the order the lock was granted. */
  lemma {:induction false} NoLostUpdates(s: State, es: seq<Event>)
    requires Init(s)
    ensures OnDisk(Execute(s, es)) == Fold(OnDisk(s), Execute(s, es).commits)
    ensures InLockOrder(Execute(s, es).commits)
    ensures History(OnDisk(s), Execute(s, es))
    decreases |es|
  {
    if es != [] {
      var before := Execute(s, es[..|es| - 1]);
      NoLostUpdates(s, es[..|es| - 1]);
      RunsStaySound(s, es[..|es| - 1]);
      StepKeepsFold(OnDisk(s), before, es[|es| - 1]);
      StepKeepsGrants(before, es[|es| - 1]);
    }
  }

  // Pairing ids

  ghost predicate IdsKept(s: State) {
    && (forall i :: 0 <= i < |s.versions| ==> UniqueIds(s.versions[i].pairings))
    && (forall i :: 0 <= i < |s.versions| - 1 ==> SameServers(s.versions[i].pairings, s.versions[i + 1].pairings))
  }

  lemma StepKeepsIds(s: State, e: Event)
    requires Sound(s) && IdsKept(s)
    ensures IdsKept(Apply(s, e))
  {
    if Live(s, e.p) {
      OnlyRenameWrites(s, e);
      var at := s.procs[e.p].at;
      if Writes(s, e) && s.versions != [] {
        ChangesKeepIds(at.change, s.versions[|s.versions| - 1]);
      }
    }
  }

  /** In every version of the file ids are unique, and from one version to the next an id keeps its server. */
  lemma {:induction false} PairingIdsStayPinned(s: State, es: seq<Event>)
    requires Init(s)
    ensures IdsKept(Execute(s, es))
    decreases |es|
  {
    if es != [] {
      PairingIdsStayPinned(s, es[..|es| - 1]);
      RunsStaySound(s, es[..|es| - 1]);
      StepKeepsIds(Execute(s, es[..|es| - 1]), es[|es| - 1]);
    }
  }
}
