/**
 What a process of the pairing store comes to when nobody else moves and nothing fails: what it is asked for is done.
 */
module StoreProgress {
  import opened Wrappers
  import opened Pairings
  import opened PairingStore
  import opened StoreTheorems
  import opened StoreCalls

  /** The process's own steps: its work goes on, and so do the calls that waited for it. */
  predicate Own(es: seq<Event>, p: Pid) {
    forall i :: 0 <= i < |es| ==> es[i].p == p && (es[i].Begin? || es[i].Advance? || es[i].Resume? || es[i].Unshare?)
  }

  ghost predicate Reaches(s: State, p: Pid, es: seq<Event>, s': State) {
    Own(es, p) && Execute(s, es) == s'
  }

  ghost predicate ComesTo(s: State, p: Pid, s': State) {
    exists es :: Reaches(s, p, es, s')
  }

  lemma Extends(s: State, p: Pid, a: State, e: Event, b: State)
    requires ComesTo(s, p, a) && Own([e], p) && b == Apply(a, e)
    ensures ComesTo(s, p, b)
  {
    var es :| Reaches(s, p, es, a);
    assert (es + [e])[..|es + [e]| - 1] == es;
    assert [e][0] == e;
    assert Reaches(s, p, es + [e], b);
  }

  lemma Starts(s: State, p: Pid)
    ensures ComesTo(s, p, s)
  {
    var es: seq<Event> := [];
    assert Reaches(s, p, es, s);
  }

  lemma Then(s: State, p: Pid, a: State, b: State)
    requires ComesTo(s, p, a) && ComesTo(a, p, b)
    ensures ComesTo(s, p, b)
  {
    var es :| Reaches(s, p, es, a);
    var fs :| Reaches(a, p, fs, b);
    ExecuteTwice(s, es, fs);
    assert Reaches(s, p, es + fs, b);
  }

  lemma {:induction false} ExecuteTwice(s: State, es: seq<Event>, fs: seq<Event>)
    ensures Execute(s, es + fs) == Execute(Execute(s, es), fs)
    decreases |fs|
  {
    if fs == [] {
      assert es + fs == es;
    } else {
      assert (es + fs)[..|es + fs| - 1] == es + fs[..|fs| - 1];
      ExecuteTwice(s, es, fs[..|fs| - 1]);
    }
  }

  lemma PutTwice(s: State, p: Pid, a: Proc, b: Proc)
    requires p in s.procs
    ensures Put(Put(s, p, a), p, b) == Put(s, p, b)
  {
  }

  // Its steps, one by one

  lemma Begins(s: State, p: Pid)
    requires Live(s, p) && s.procs[p].at.Resting? && s.procs[p].queue != []
    ensures ComesTo(s, p, Put(s, p, Taken(s.procs[p])))
  {
    Starts(s, p);
    Extends(s, p, s, Begin(p), Put(s, p, Taken(s.procs[p])));
  }

  lemma Advances(s: State, p: Pid)
    requires Live(s, p)
    ensures ComesTo(s, p, Step(s, p))
  {
    Starts(s, p);
    Extends(s, p, s, Advance(p), Step(s, p));
  }

  lemma LockStep(s: State, p: Pid)
    requires Live(s, p) && s.procs[p].at.Locking? && s.holder.None?
    ensures Step(s, p) == Put(s.(holder := Some(p), grants := s.grants + 1), p, s.procs[p].(at := LockedStat))
  {
  }

  /** It gets the lock for the one piece of work it was asked for. */
  lemma TakesLock(s: State, p: Pid, job: Job) returns (t: State)
    requires Live(s, p) && s.holder.None? && s.procs[p].at.Resting? && s.procs[p].queue == [job] && !job.task.Reload?
    ensures ComesTo(s, p, t)
    ensures t == Put(s.(holder := Some(p), grants := s.grants + 1), p,
                     s.procs[p].(queue := [], job := job, at := LockedStat))
  {
    var begun := Put(s, p, Taken(s.procs[p]));
    Begins(s, p);
    Advances(begun, p);
    LockStep(begun, p);
    t := Step(begun, p);
    Then(s, p, begun, t);
    assert [job][1..] == [];
  }

  /** And has the file on disk as its cache when it does it. */
  predicate Fresh(s: State, cache: Cache) {
    cache.file == OnDisk(s) && cache.stamp == |s.versions| && cache.identity == AgentOf(OnDisk(s))
  }

  lemma LooksAtFile(s: State, p: Pid) returns (t: State, cache: Cache)
    requires Live(s, p) && s.procs[p].at.LockedStat? && ProcSound(s.versions, s.procs[p])
    ensures ComesTo(s, p, t) && Fresh(s, cache) && t == Put(s, p, Work(s.procs[p].(cache := cache)))
  {
    var proc := s.procs[p];
    Advances(s, p);
    StatStep(s, p);
    if proc.cache.stamp == |s.versions| {
      CurrentStampCurrentFile(s.versions, proc.cache);
      t, cache := Step(s, p), proc.cache;
      assert proc.(cache := cache) == proc;
    } else {
      var stat := Put(s, p, proc.(at := LockedRead(|s.versions|)));
      cache := Adopt(proc.cache, OnDisk(s), |s.versions|);
      t := Put(s, p, Work(proc.(cache := cache)));
      Advances(stat, p);
      ReadStep(s, p, |s.versions|);
      Then(s, p, stat, t);
    }
  }

  lemma StatStep(s: State, p: Pid)
    requires Live(s, p) && s.procs[p].at.LockedStat?
    ensures Step(s, p) == Put(s, p, OnLockedStat(s.procs[p], |s.versions|))
  {
  }

  lemma ReadStep(s: State, p: Pid, seen: nat)
    requires Live(s, p)
    ensures var read := Put(s, p, s.procs[p].(at := LockedRead(seen)));
      Step(read, p) == Put(s, p, Work(s.procs[p].(cache := Adopt(s.procs[p].cache, OnDisk(s), seen))))
  {
    var read := Put(s, p, s.procs[p].(at := LockedRead(seen)));
    var cache := Adopt(s.procs[p].cache, OnDisk(s), seen);
    WorkOnly(read.procs[p].(cache := cache), s.procs[p].(cache := cache));
    PutTwice(s, p, read.procs[p], Work(s.procs[p].(cache := cache)));
  }

  /** What the work does depends on no stage it came from. */
  lemma WorkOnly(a: Proc, b: Proc)
    requires a == b.(at := a.at)
    ensures Work(a) == Work(b)
  {
  }

  /** What it is about to rename it renames, and its cache is then the disk's. */
  lemma Renames(s: State, p: Pid, change: Change, next: File) returns (t: State)
    requires Live(s, p) && s.procs[p].at == Renaming(change, next)
    ensures ComesTo(s, p, t)
    ensures var proc := s.procs[p];
      && t.versions == s.versions + [next]
      && t.commits == s.commits + [Commit(p, proc.job.ticket, s.grants, change)]
      && t == Put(s.(versions := t.versions, commits := t.commits), p,
                  OnRestamp(OnRename(proc, change, next), change, |t.versions|))
  {
    var renamed := Step(s, p);
    Advances(s, p);
    Advances(renamed, p);
    t := Step(renamed, p);
    Then(s, p, renamed, t);
  }

  /** Done, it gives the lock back and says so. */
  lemma Leaves(s: State, p: Pid, answer: Answer) returns (t: State)
    requires Live(s, p) && s.procs[p].at == Unlocking(answer)
    ensures ComesTo(s, p, t) && t == Put(s.(holder := None), p, Settle(s.procs[p], answer))
  {
    var left := Put(s.(holder := None), p, s.procs[p].(at := Leaving(answer)));
    Advances(s, p);
    Advances(left, p);
    t := Put(s.(holder := None), p, Settle(s.procs[p], answer));
    PutTwice(s.(holder := None), p, left.procs[p], Settle(s.procs[p], answer));
    Then(s, p, left, t);
  }

  // What it is asked for

  /** The process has nothing to do, the lock is free, and its cache is what it takes it for. */
  ghost predicate AtRest(s: State, p: Pid) {
    && Live(s, p) && s.holder.None? && s.procs[p].at.Resting? && s.procs[p].queue == []
    && ProcSound(s.versions, s.procs[p])
  }

  /** The process has come to rest with this work ended so, and the rest of the state is the lock's and the file's. */
  predicate Ended(s: State, t: State, p: Pid, ticket: nat, answer: Answer) {
    && p in t.procs && t.holder.None? && t.crashed == s.crashed && t.procs == s.procs[p := t.procs[p]]
    && t.procs[p].at.Resting? && t.procs[p].queue == []
    && ticket in t.procs[p].settled && t.procs[p].settled[ticket] == answer
  }

  /** It takes the lock for the work it was asked for, and does it with the file on disk as its cache. */
  lemma ComesToWork(s: State, p: Pid, job: Job) returns (locked: State, cache: Cache)
    requires Live(s, p) && s.holder.None? && s.procs[p].at.Resting? && s.procs[p].queue == [job] && !job.task.Reload?
    requires ProcSound(s.versions, s.procs[p])
    ensures locked == Put(s.(holder := Some(p), grants := s.grants + 1), p,
                          s.procs[p].(queue := [], job := job, at := LockedStat))
    ensures Fresh(locked, cache) && ComesTo(s, p, Put(locked, p, Work(locked.procs[p].(cache := cache))))
  {
    locked := TakesLock(s, p, job);
    assert ProcSound(locked.versions, locked.procs[p]);
    var looked;
    looked, cache := LooksAtFile(locked, p);
    Then(s, p, locked, looked);
  }

  lemma WritesChange(s: State, p: Pid, change: Change, cache: Cache, next: File) returns (t: State)
    requires Live(s, p) && s.procs[p].job.task == Modify(change) && !change.MakeIdentity? && s.holder == Some(p)
    requires Fresh(s, cache) && s.procs[p].queue == [] && Decide(change, OnDisk(s)) == Written(next)
    ensures ComesTo(Put(s, p, Work(s.procs[p].(cache := cache))), p, t)
    ensures Ended(s, t, p, s.procs[p].job.ticket, Done) && t.versions == s.versions + [next]
    ensures Fresh(t, t.procs[p].cache)
  {
    var worked := Put(s, p, Work(s.procs[p].(cache := cache)));
    RenameKeepsAgent(change, OnDisk(s));
    var renamed := Renames(worked, p, change, next);
    t := Leaves(renamed, p, Done);
    Then(worked, p, renamed, t);
  }

  /** Under the lock, the work from the look at the file to the release. */
  lemma DoesWork(s: State, p: Pid, change: Change, cache: Cache) returns (t: State)
    requires Live(s, p) && s.procs[p].job.task == Modify(change) && !change.MakeIdentity? && s.holder == Some(p)
    requires Fresh(s, cache) && s.procs[p].queue == []
    ensures ComesTo(Put(s, p, Work(s.procs[p].(cache := cache))), p, t)
    ensures var outcome := Decide(change, OnDisk(s));
      && Ended(s, t, p, s.procs[p].job.ticket, if outcome.Refused? then Failed else Done)
      && t.versions == s.versions + (if outcome.Written? then [outcome.file] else [])
      && Fresh(t, t.procs[p].cache)
  {
    var outcome := Decide(change, OnDisk(s));
    if outcome.Written? {
      t := WritesChange(s, p, change, cache, outcome.file);
    } else {
      t := Leaves(Put(s, p, Work(s.procs[p].(cache := cache))), p, if outcome.Refused? then Failed else Done);
    }
  }

  /**
   A change that is asked for is made: the file on disk becomes what the change makes of it, the process's cache is that
   file, and the work ends as done, or as failed where the change is refused.
   */
  lemma ChangeTakesEffect(s: State, p: Pid, change: Change) returns (t: State)
    requires AtRest(s, p) && Offered(Modify(change))
    ensures ComesTo(Apply(s, AskFor(p, Modify(change))), p, t)
    ensures var outcome := Decide(change, OnDisk(s));
      && Ended(s, t, p, |s.procs[p].asked|, if outcome.Refused? then Failed else Done)
      && OnDisk(t) == (if outcome.Written? then Some(outcome.file) else OnDisk(s))
      && t.versions == s.versions + (if outcome.Written? then [outcome.file] else [])
      && Fresh(t, t.procs[p].cache)
  {
    var asked := Apply(s, AskFor(p, Modify(change)));
    var job := Job(|s.procs[p].asked|, Modify(change));
    assert asked.procs[p].queue == [job];
    var locked, cache := ComesToWork(asked, p, job);
    t := DoesWork(locked, p, change, cache);
    Then(asked, p, Put(locked, p, Work(locked.procs[p].(cache := cache))), t);
  }

  lemma Reloads(s: State, p: Pid, job: Job) returns (t: State)
    requires Live(s, p) && s.procs[p].at.Resting? && s.procs[p].queue == [job] && job.task.Reload?
    requires ProcSound(s.versions, s.procs[p])
    ensures ComesTo(s, p, t) && p in t.procs
    ensures t == Put(s, p, Settle(s.procs[p].(queue := [], job := job, cache := t.procs[p].cache), Done))
    ensures if s.procs[p].cache.failed == Some(|s.versions|) then t.procs[p].cache == s.procs[p].cache
            else Fresh(s, t.procs[p].cache)
  {
    var begun := Put(s, p, s.procs[p].(queue := [], job := job, at := QuietStat));
    assert [job][1..] == [];
    Begins(s, p);
    var looked := LooksQuietly(begun, p);
    Then(s, p, begun, looked);
    t := looked;
    PutTwice(s, p, begun.procs[p], t.procs[p]);
  }

  lemma LooksQuietly(s: State, p: Pid) returns (t: State)
    requires Live(s, p) && s.procs[p].at.QuietStat? && ProcSound(s.versions, s.procs[p])
    ensures ComesTo(s, p, t) && p in t.procs && t == Put(s, p, Settle(s.procs[p].(cache := t.procs[p].cache), Done))
    ensures if s.procs[p].cache.failed == Some(|s.versions|) then t.procs[p].cache == s.procs[p].cache
            else Fresh(s, t.procs[p].cache)
  {
    Advances(s, p);
    QuietStep(s, p);
    var stat := Step(s, p);
    if s.procs[p].cache.stamp == |s.versions| || s.procs[p].cache.failed == Some(|s.versions|) {
      if s.procs[p].cache.stamp == |s.versions| { CurrentStampCurrentFile(s.versions, s.procs[p].cache); }
      t := stat;
    } else {
      Advances(stat, p);
      t := Step(stat, p);
      Then(s, p, stat, t);
    }
  }

  lemma QuietStep(s: State, p: Pid)
    requires Live(s, p) && s.procs[p].at.QuietStat?
    ensures Step(s, p) == Put(s, p, OnQuietStat(s.procs[p], |s.versions|))
  {
  }

  /** A refresh that is asked for sees the file as it is, unless that very version could not be read before. */
  lemma RefreshSees(s: State, p: Pid) returns (t: State)
    requires AtRest(s, p)
    ensures ComesTo(Apply(s, AskFor(p, Reload)), p, t)
    ensures Ended(s, t, p, |s.procs[p].asked|, Done) && t.versions == s.versions
    ensures if s.procs[p].cache.failed == Some(|s.versions|) then t.procs[p].cache == s.procs[p].cache
            else Fresh(s, t.procs[p].cache)
  {
    var asked := Apply(s, AskFor(p, Reload));
    var job := Job(|s.procs[p].asked|, Reload);
    assert asked.procs[p].queue == [job];
    t := Reloads(asked, p, job);
  }

  /** A read that succeeds takes the file, its agent's id and the stamp seen before it, and forgets the last failure. */
  lemma ReadIsTaken(s: State, p: Pid)
    requires Live(s, p) && (s.procs[p].at.QuietRead? || s.procs[p].at.LockedRead?)
    ensures var t, seen := Apply(s, Advance(p)), s.procs[p].at.seen;
      p in t.procs && t.procs[p].cache == Cache(OnDisk(s), AgentOf(OnDisk(s)), seen, None)
  {
  }

  /** A `stat` that fails keeps the whole cache, and the work is told as failed. */
  lemma FailedLookKeepsCache(s: State, p: Pid)
    requires Live(s, p) && s.procs[p].at.QuietStat?
    ensures var proc := s.procs[p];
      Apply(s, Throw(p)) == Put(s, p, proc.(at := Resting, settled := proc.settled[proc.job.ticket := Failed]))
  {
  }

  /** A read that fails keeps the cache, and is remembered as that version's. */
  lemma FailureKeepsCache(s: State, p: Pid)
    requires Live(s, p) && s.procs[p].at.QuietRead?
    ensures var t, proc := Apply(s, Throw(p)), s.procs[p];
      && p in t.procs && t.procs[p].cache == proc.cache.(failed := Some(proc.at.seen)) && t.procs[p].at.Resting?
      && proc.job.ticket in t.procs[p].settled && t.procs[p].settled[proc.job.ticket] == Failed
  {
  }

  /** The file, its identity and its stamp as this process knows them. */
  predicate SameNews(a: Cache, b: Cache) {
    a.file == b.file && a.identity == b.identity && a.stamp == b.stamp
  }

  /** Work that fails under the lock gives the lock back, is told as failed, and leaves the file and the cache alone. */
  lemma FailureGivesLockBack(s: State, p: Pid) returns (t: State)
    requires Live(s, p) && (s.procs[p].at.LockedStat? || s.procs[p].at.LockedRead? || s.procs[p].at.Renaming?)
    ensures ComesTo(Apply(s, Throw(p)), p, t)
    ensures t.versions == s.versions && t.commits == s.commits && t.holder.None?
    ensures p in t.procs && t.procs[p].at.Resting? && SameNews(t.procs[p].cache, s.procs[p].cache)
    ensures t.procs[p].settled == s.procs[p].settled[s.procs[p].job.ticket := Failed]
    ensures t.procs[p].queue == s.procs[p].queue && t.procs[p].calls == s.procs[p].calls
  {
    t := Leaves(Apply(s, Throw(p)), p, Failed);
  }

  /** A call that cannot get the lock is told so, and nothing else changes. */
  lemma GivingUpFails(s: State, p: Pid)
    requires Live(s, p) && s.procs[p].at.Locking?
    ensures var t, proc := Apply(s, GiveUp(p)), s.procs[p];
      t == Put(s, p, proc.(at := Resting, settled := proc.settled[proc.job.ticket := Failed]))
  {
  }

  // An identity

  lemma Resumes(s: State, p: Pid, call: CallId, agentId: string)
    requires Live(s, p)
    ensures ComesTo(s, p, Put(s, p, Resumed(s.procs[p], call, agentId)))
  {
    Starts(s, p);
    Extends(s, p, s, Resume(p, call, agentId), Put(s, p, Resumed(s.procs[p], call, agentId)));
  }

  lemma Unshares(s: State, p: Pid)
    requires Live(s, p)
    ensures ComesTo(s, p, Put(s, p, Unshared(s.procs[p])))
  {
    Starts(s, p);
    Extends(s, p, s, Unshare(p), Put(s, p, Unshared(s.procs[p])));
  }

  lemma FindsIdentity(s: State, p: Pid, agentId: string, cache: Cache) returns (t: State)
    requires Live(s, p) && s.procs[p].job.task == MakeId(agentId) && s.holder == Some(p) && s.procs[p].queue == []
    requires Fresh(s, cache) && OnDisk(s).Some?
    ensures ComesTo(Put(s, p, Work(s.procs[p].(cache := cache))), p, t)
    ensures Ended(s, t, p, s.procs[p].job.ticket, Got(OnDisk(s).value.agentId)) && t.versions == s.versions
    ensures t.procs[p].calls == s.procs[p].calls && t.procs[p].making == s.procs[p].making
  {
    t := Leaves(Put(s, p, Work(s.procs[p].(cache := cache))), p, Got(OnDisk(s).value.agentId));
  }

  lemma WritesIdentity(s: State, p: Pid, agentId: string, cache: Cache) returns (t: State)
    requires Live(s, p) && s.procs[p].job.task == MakeId(agentId) && s.holder == Some(p) && s.procs[p].queue == []
    requires Fresh(s, cache) && OnDisk(s).None?
    ensures ComesTo(Put(s, p, Work(s.procs[p].(cache := cache))), p, t)
    ensures Ended(s, t, p, s.procs[p].job.ticket, Got(agentId)) && t.versions == [File(agentId, [], [])]
    ensures t.procs[p].calls == s.procs[p].calls && t.procs[p].making == s.procs[p].making
  {
    var worked := Put(s, p, Work(s.procs[p].(cache := cache)));
    var renamed := Renames(worked, p, MakeIdentity(agentId), File(agentId, [], []));
    t := Leaves(renamed, p, Got(agentId));
    Then(worked, p, renamed, t);
  }

  lemma FindsOrWrites(s: State, p: Pid, agentId: string, cache: Cache) returns (t: State, made: string)
    requires Live(s, p) && s.procs[p].job.task == MakeId(agentId) && s.holder == Some(p) && s.procs[p].queue == []
    requires Fresh(s, cache)
    ensures ComesTo(Put(s, p, Work(s.procs[p].(cache := cache))), p, t)
    ensures Ended(s, t, p, s.procs[p].job.ticket, Got(made))
    ensures t.procs[p].calls == s.procs[p].calls && t.procs[p].making == s.procs[p].making
    ensures OnDisk(t).Some? && OnDisk(t).value.agentId == made
    ensures OnDisk(s).Some? ==> t.versions == s.versions
    ensures OnDisk(s).None? ==> made == agentId && t.versions == [File(agentId, [], [])]
  {
    if OnDisk(s).Some? {
      made := OnDisk(s).value.agentId;
      t := FindsIdentity(s, p, agentId, cache);
    } else {
      made := agentId;
      t := WritesIdentity(s, p, agentId, cache);
    }
  }

  /** The making of an identity, from its place in the queue to the lock given back. */
  lemma MakesIdentity(s: State, p: Pid, ticket: nat, agentId: string) returns (t: State, made: string)
    requires Live(s, p) && s.holder.None? && s.procs[p].at.Resting?
             && s.procs[p].queue == [Job(ticket, MakeId(agentId))]
    requires ProcSound(s.versions, s.procs[p])
    ensures ComesTo(s, p, t) && Ended(s, t, p, ticket, Got(made))
    ensures t.procs[p].calls == s.procs[p].calls && t.procs[p].making == s.procs[p].making
    ensures OnDisk(t).Some? && OnDisk(t).value.agentId == made
    ensures OnDisk(s).Some? ==> t.versions == s.versions
    ensures OnDisk(s).None? ==> made == agentId && t.versions == [File(agentId, [], [])]
  {
    var locked, cache := ComesToWork(s, p, Job(ticket, MakeId(agentId)));
    t, made := FindsOrWrites(locked, p, agentId, cache);
    Then(s, p, Put(locked, p, Work(locked.procs[p].(cache := cache))), t);
  }

  /** The call goes on once its reload is over: it returns what is known, or has an identity made. */
  lemma GoesOn(s: State, p: Pid, call: CallId, agentId: string) returns (t: State)
    requires Live(s, p) && s.procs[p].queue == [] && s.procs[p].making.None? && call in s.procs[p].calls
    requires s.procs[p].calls[call].Reloading? && s.procs[p].calls[call].ticket in s.procs[p].settled
    requires s.procs[p].settled[s.procs[p].calls[call].ticket].Done?
    ensures ComesTo(s, p, t)
    ensures var proc, ticket := s.procs[p], |s.procs[p].asked|;
      t == Put(s, p, if proc.cache.identity.Some? then
                       proc.(calls := proc.calls[call := Returned(proc.cache.identity.value)])
                     else proc.(queue := [Job(ticket, MakeId(agentId))], asked := proc.asked + [MakeId(agentId)],
                                making := Some(ticket), calls := proc.calls[call := AwaitingId(ticket)]))
  {
    Resumes(s, p, call, agentId);
    t := Put(s, p, Resumed(s.procs[p], call, agentId));
    var job := Job(|s.procs[p].asked|, MakeId(agentId));
    assert s.procs[p].queue + [job] == [job];
  }

  /** What it is made to wait for it gets. */
  lemma GetsIdentity(s: State, p: Pid, call: CallId, ticket: nat, made: string, agentId: string) returns (t: State)
    requires Live(s, p) && call in s.procs[p].calls && s.procs[p].calls[call] == AwaitingId(ticket)
    requires s.procs[p].making == Some(ticket)
             && ticket in s.procs[p].settled && s.procs[p].settled[ticket] == Got(made)
    ensures ComesTo(s, p, t)
    ensures t == Put(s, p, s.procs[p].(making := None, calls := s.procs[p].calls[call := Returned(made)]))
  {
    var over := Put(s, p, s.procs[p].(making := None));
    Unshares(s, p);
    Resumes(over, p, call, agentId);
    t := Put(over, p, Resumed(over.procs[p], call, agentId));
    Then(s, p, over, t);
  }

  /**
   An `identity()` call returns: the agent id of the file on disk, which is made with the id offered where there was no
   file.
   */
  lemma IdentityIsReturned(s: State, p: Pid, call: CallId, agentId: string) returns (t: State)
    requires AtRest(s, p) && s.procs[p].making.None? && call !in s.procs[p].calls
    requires OneAgent(s)
    ensures ComesTo(Apply(s, AskIdentity(p, call)), p, t)
    ensures p in t.procs && call in t.procs[p].calls && OnDisk(t).Some?
    ensures t.procs[p].calls[call] == Returned(OnDisk(t).value.agentId)
    ensures if OnDisk(s).Some? then t.versions == s.versions else t.versions == [File(agentId, [], [])]
  {
    var asked := Apply(s, AskIdentity(p, call));
    var job := Job(|s.procs[p].asked|, Reload);
    assert asked.procs[p].queue == [job];
    var reloaded := Reloads(asked, p, job);
    assert ProcSound(s.versions, s.procs[p]);
    var on := GoesOn(reloaded, p, call, agentId);
    Then(asked, p, reloaded, on);
    if reloaded.procs[p].cache.identity.Some? {
      t := on;
      KnownAgent(s, p, reloaded.procs[p].cache);
    } else {
      NewsIsSound(s, p, reloaded.procs[p].cache);
      var ticket := |reloaded.procs[p].asked|;
      var made, id := MakesIdentity(on, p, ticket, agentId);
      Then(asked, p, on, made);
      t := GetsIdentity(made, p, call, ticket, id, agentId);
      Then(asked, p, made, t);
    }
  }

  /** After a reload the cache is sound still. */
  lemma NewsIsSound(s: State, p: Pid, cache: Cache)
    requires p in s.procs && ProcSound(s.versions, s.procs[p]) && s.procs[p].at.Resting?
    requires cache == s.procs[p].cache || Fresh(s, cache)
    ensures CacheSound(s.versions, cache) && cache.identity == AgentOf(cache.file)
  {
    if cache != s.procs[p].cache { DiskSound(s.versions, cache); }
  }

  lemma KnownAgent(s: State, p: Pid, cache: Cache)
    requires p in s.procs && ProcSound(s.versions, s.procs[p]) && s.procs[p].at.Resting? && OneAgent(s)
    requires (cache == s.procs[p].cache || Fresh(s, cache)) && cache.identity.Some?
    ensures OnDisk(s).Some? && OnDisk(s).value.agentId == cache.identity.value
  {
    NewsIsSound(s, p, cache);
    var v :| CachesVersion(s.versions, cache, v);
  }

  // What may be asked for

  predicate IsLetterOrLine(c: char) {
    'a' <= c <= 'z' || 'A' <= c <= 'Z' || c == '_'
  }

  /** An environment variable's name: letters, digits and lines, 1 to 256 of them, and no digit first. */
  predicate IsVariable(name: string) {
    && 0 < |name| < 257 && !('0' <= name[0] <= '9')
    && forall i :: 0 <= i < |name| ==> IsLetterOrLine(name[i]) || '0' <= name[i] <= '9'
  }

  lemma VariablesAreSystemNames(name: string)
    ensures SystemName(name) <==> IsVariable(name)
  {
  }

  lemma AskingQueues(s: State, p: Pid, task: Task)
    requires Live(s, p)
    ensures Apply(s, AskFor(p, task)) != s <==> Offered(task)
  {
    var t := Apply(s, AskFor(p, task));
    assert Offered(task) ==> |t.procs[p].asked| == |s.procs[p].asked| + 1;
  }

  /** A caller may ask for a reload and for any change but an identity, with no allowed name that is no variable's. */
  lemma WhatMayBeAsked(s: State, p: Pid, task: Task)
    requires Live(s, p)
    ensures Apply(s, AskFor(p, task)) != s
            <==> task.Reload? || (task.Modify? && !task.change.MakeIdentity?
                                  && (task.change.SetAllowed? ==>
                                        forall i :: 0 <= i < |task.change.names| ==> IsVariable(task.change.names[i])))
  {
    AskingQueues(s, p, task);
    if task.Modify? && task.change.SetAllowed? {
      forall i | 0 <= i < |task.change.names| { VariablesAreSystemNames(task.change.names[i]); }
    }
  }
}
