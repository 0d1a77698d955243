/** What the calls of a process may count on: its work is done in the order asked, and there is one identity. */
module StoreCalls {
  import opened Wrappers
  import opened Pairings
  import opened PairingStore
  import opened StoreTheorems

  // The work of one process

  /** The ticket of the next work to end. */
  function NextToEnd(proc: Proc): int {
    |proc.asked| - |proc.queue| - if proc.at.Resting? then 0 else 1
  }

  /** The work is what was asked at that place. */
  predicate IsAsked(proc: Proc, job: Job, n: int) {
    0 <= n < |proc.asked| && job == Job(n, proc.asked[n])
  }

  /** The work is what was asked: each ticket is settled, at hand or queued, once and in that order. */
  ghost predicate InTurn(proc: Proc) {
    && 0 <= NextToEnd(proc)
    && (forall k :: 0 <= k < |proc.queue| ==> IsAsked(proc, proc.queue[k], |proc.asked| - |proc.queue| + k))
    && (!proc.at.Resting? ==> IsAsked(proc, proc.job, NextToEnd(proc)))
    && (forall t: nat :: t in proc.settled <==> t < NextToEnd(proc))
  }

  /** All work that makes an identity is the work `making` names, and the calls that still wait for one wait for it. */
  ghost predicate Shares(proc: Proc) {
    && (proc.making.Some? ==> proc.making.value < |proc.asked|)
    && (forall k :: 0 <= k < |proc.queue| && proc.queue[k].task.MakeId? ==> proc.making == Some(proc.queue[k].ticket))
    && (!proc.at.Resting? && proc.job.task.MakeId? ==> proc.making == Some(proc.job.ticket))
    && (forall c :: c in proc.calls ==> CallWaits(proc, proc.calls[c]))
  }

  predicate CallWaits(proc: Proc, call: Call) {
    match call
    case Reloading(ticket) => ticket < |proc.asked|
    case AwaitingId(ticket) => ticket < |proc.asked| && (ticket !in proc.settled ==> proc.making == Some(ticket))
    case _ => true
  }

  /** Only a reload goes without the lock, and a change at the disk's door is the one that was asked for. */
  predicate StageFits(proc: Proc) {
    && (proc.at.QuietStat? || proc.at.QuietRead? ==> proc.job.task.Reload?)
    && (proc.at.Renaming? ==> TaskOf(proc.job.task, proc.at.change))
    && (proc.at.Restamping? ==> TaskOf(proc.job.task, proc.at.change))
  }

  predicate TaskOf(task: Task, change: Change) {
    if change.MakeIdentity? then task == MakeId(change.agentId) else task == Modify(change)
  }

  predicate TasksOffered(proc: Proc) {
    && (forall k :: 0 <= k < |proc.queue| ==> Offered(proc.queue[k].task) || proc.queue[k].task.MakeId?)
    && (!proc.at.Resting? ==> Offered(proc.job.task) || proc.job.task.MakeId?)
  }

  ghost predicate Orderly(proc: Proc) {
    InTurn(proc) && Shares(proc) && StageFits(proc) && TasksOffered(proc)
  }

  lemma EnqueueInTurn(proc: Proc, task: Task)
    requires InTurn(proc)
    ensures InTurn(Enqueue(proc, task))
  {
  }

  lemma SettleKeepsOrder(proc: Proc, answer: Answer)
    requires Orderly(proc) && !proc.at.Resting?
    ensures Orderly(Settle(proc, answer))
  {
    var proc' := Settle(proc, answer);
    forall c | c in proc'.calls ensures CallWaits(proc', proc'.calls[c]) {
      assert CallWaits(proc, proc.calls[c]);
    }
  }

  lemma TakenKeepsOrder(proc: Proc)
    requires Orderly(proc) && proc.at.Resting? && proc.queue != []
    ensures Orderly(Taken(proc))
  {
    var proc' := Taken(proc);
    forall c | c in proc'.calls ensures CallWaits(proc', proc'.calls[c]) {
      assert CallWaits(proc, proc.calls[c]);
    }
  }

  /** Only the stage and the cache moved, within one piece of work. */
  predicate SameWork(proc: Proc, proc': Proc) {
    proc' == proc.(cache := proc'.cache, at := proc'.at) && !proc.at.Resting? && !proc'.at.Resting?
  }

  lemma SameWorkKeepsOrder(proc: Proc, proc': Proc)
    requires Orderly(proc) && SameWork(proc, proc') && StageFits(proc')
    ensures Orderly(proc')
  {
    forall c | c in proc'.calls ensures CallWaits(proc', proc'.calls[c]) {
      assert CallWaits(proc, proc.calls[c]);
    }
  }

  lemma WorkKeepsOrder(proc: Proc, cache: Cache)
    requires Orderly(proc) && InLock(proc.at)
    ensures Orderly(Work(proc.(cache := cache)))
  {
    assert Offered(proc.job.task) || proc.job.task.MakeId?;
    SameWorkKeepsOrder(proc, Work(proc.(cache := cache)));
  }

  lemma AskKeepsOrder(proc: Proc, task: Task)
    requires Orderly(proc) && Offered(task)
    ensures Orderly(Enqueue(proc, task))
  {
    EnqueueInTurn(proc, task);
    var proc' := Enqueue(proc, task);
    forall c | c in proc'.calls ensures CallWaits(proc', proc'.calls[c]) {
      assert CallWaits(proc, proc.calls[c]);
    }
  }

  /** A call goes on, nothing else changing. */
  lemma CallKeepsOrder(proc: Proc, call: CallId, next: Call)
    requires Orderly(proc) && CallWaits(proc, next)
    ensures Orderly(proc.(calls := proc.calls[call := next]))
  {
    var proc' := proc.(calls := proc.calls[call := next]);
    forall c | c in proc'.calls ensures CallWaits(proc', proc'.calls[c]) {
      assert c != call ==> CallWaits(proc, proc.calls[c]);
    }
  }

  /** The first call that needs an identity starts the work that makes it, and waits for that. */
  lemma MakingKeepsOrder(proc: Proc, agentId: string)
    requires Orderly(proc) && proc.making.None?
    ensures Orderly(Enqueue(proc, MakeId(agentId)).(making := Some(|proc.asked|)))
  {
    EnqueueInTurn(proc, MakeId(agentId));
    var proc' := Enqueue(proc, MakeId(agentId)).(making := Some(|proc.asked|));
    forall c | c in proc'.calls ensures CallWaits(proc', proc'.calls[c]) {
      assert CallWaits(proc, proc.calls[c]);
    }
  }

  lemma ResumedKeepsOrder(proc: Proc, call: CallId, agentId: string)
    requires Orderly(proc)
    ensures Orderly(Resumed(proc, call, agentId))
  {
    if call in proc.calls {
      var next := Resumed(proc, call, agentId);
      if next.asked != proc.asked {
        MakingKeepsOrder(proc, agentId);
        CallKeepsOrder(Enqueue(proc, MakeId(agentId)).(making := Some(|proc.asked|)), call, AwaitingId(|proc.asked|));
      } else if next != proc {
        CallKeepsOrder(proc, call, next.calls[call]);
      }
    }
  }

  lemma UnsharedKeepsOrder(proc: Proc)
    requires Orderly(proc)
    ensures Orderly(Unshared(proc))
  {
    var proc' := Unshared(proc);
    forall c | c in proc'.calls ensures CallWaits(proc', proc'.calls[c]) {
      assert CallWaits(proc, proc.calls[c]);
    }
  }

  lemma AdvanceKeepsOrder(s: State, p: Pid)
    requires Live(s, p) && Orderly(s.procs[p])
    ensures p in Step(s, p).procs && Orderly(Step(s, p).procs[p])
  {
    var proc := s.procs[p];
    match proc.at
    case Resting =>
    case QuietStat => QuietStatKeepsOrder(proc, |s.versions|);
    case QuietRead(seen) =>
      SameWorkKeepsOrder(proc, proc.(cache := Adopt(proc.cache, OnDisk(s), seen)));
      SettleKeepsOrder(proc.(cache := Adopt(proc.cache, OnDisk(s), seen)), Done);
    case Locking => if s.holder.None? { SameWorkKeepsOrder(proc, proc.(at := LockedStat)); }
    case LockedStat => LockedStatKeepsOrder(proc, |s.versions|);
    case LockedRead(seen) => WorkKeepsOrder(proc, Adopt(proc.cache, OnDisk(s), seen));
    case Renaming(change, next) => SameWorkKeepsOrder(proc, OnRename(proc, change, next));
    case Restamping(change) => SameWorkKeepsOrder(proc, OnRestamp(proc, change, |s.versions|));
    case Unlocking(answer) => SameWorkKeepsOrder(proc, proc.(at := Leaving(answer)));
    case Leaving(answer) => SettleKeepsOrder(proc, answer);
  }

  lemma QuietStatKeepsOrder(proc: Proc, disk: nat)
    requires Orderly(proc) && proc.at.QuietStat?
    ensures Orderly(OnQuietStat(proc, disk))
  {
    SettleKeepsOrder(proc, Done);
    SameWorkKeepsOrder(proc, proc.(at := QuietRead(disk)));
  }

  lemma LockedStatKeepsOrder(proc: Proc, disk: nat)
    requires Orderly(proc) && proc.at.LockedStat?
    ensures Orderly(OnLockedStat(proc, disk))
  {
    WorkKeepsOrder(proc, proc.cache);
    assert proc.(cache := proc.cache) == proc;
    SameWorkKeepsOrder(proc, proc.(at := LockedRead(disk)));
  }

  lemma ThrowKeepsOrder(proc: Proc)
    requires Orderly(proc)
    ensures Orderly(OnThrow(proc))
  {
    match proc.at
    case QuietStat => SettleKeepsOrder(proc, Failed);
    case QuietRead(seen) =>
      SameWorkKeepsOrder(proc, proc.(cache := proc.cache.(failed := Some(seen))));
      SettleKeepsOrder(proc.(cache := proc.cache.(failed := Some(seen))), Failed);
    case Resting =>
    case _ => SameWorkKeepsOrder(proc, OnThrow(proc));
  }

  lemma StepKeepsOrder(s: State, e: Event)
    requires Live(s, e.p) && Orderly(s.procs[e.p])
    ensures e.p in Apply(s, e).procs && Orderly(Apply(s, e).procs[e.p])
  {
    var proc := s.procs[e.p];
    match e
    case AskIdentity(_, call) =>
      AskKeepsOrder(proc, Reload);
      CallKeepsOrder(Enqueue(proc, Reload), call, Reloading(|proc.asked|));
    case AskFor(_, task) => if Offered(task) { AskKeepsOrder(proc, task); }
    case Begin(_) => if proc.at.Resting? && proc.queue != [] { TakenKeepsOrder(proc); }
    case Advance(p) => AdvanceKeepsOrder(s, p);
    case Throw(_) => ThrowKeepsOrder(proc);
    case GiveUp(_) => if proc.at.Locking? { SettleKeepsOrder(proc, Failed); }
    case Resume(_, call, agentId) => ResumedKeepsOrder(proc, call, agentId);
    case Unshare(_) => UnsharedKeepsOrder(proc);
    case Crash(_) =>
  }

  ghost predicate AllOrderly(s: State) {
    forall p :: p in s.procs ==> Orderly(s.procs[p])
  }

  lemma StepKeepsAllOrderly(s: State, e: Event)
    requires AllOrderly(s) && LockSound(s)
    ensures AllOrderly(Apply(s, e))
  {
    if Live(s, e.p) {
      ApplyFrame(s, e);
      StepKeepsOrder(s, e);
    }
  }

  /**
   Over every run each process's work ends in the order asked, nothing asked is lost or done twice, and the calls
   that wait for an identity share one piece of work that makes it.
   */
  lemma {:induction false} WorkIsInTurn(s: State, es: seq<Event>)
    requires Init(s)
    ensures AllOrderly(Execute(s, es))
    decreases |es|
  {
    if es != [] {
      WorkIsInTurn(s, es[..|es| - 1]);
      RunsStaySound(s, es[..|es| - 1]);
      StepKeepsAllOrderly(Execute(s, es[..|es| - 1]), es[|es| - 1]);
    }
  }

  /** `ticket` is work that makes an identity and has not ended. */
  predicate MakesIdentity(proc: Proc, ticket: nat) {
    || (!proc.at.Resting? && proc.job == Job(ticket, proc.job.task) && proc.job.task.MakeId?)
    || (exists k :: 0 <= k < |proc.queue|
          && proc.queue[k] == Job(ticket, proc.queue[k].task) && proc.queue[k].task.MakeId?)
  }

  /**
   However many `identity()` calls a process has, at most one piece of its work makes an identity, and all wait for it.
   */
  lemma MadeOnceHoweverManyAsk(s: State, es: seq<Event>, p: Pid, t: nat, u: nat)
    requires Init(s) && p in Execute(s, es).procs
    requires MakesIdentity(Execute(s, es).procs[p], t)
    requires || MakesIdentity(Execute(s, es).procs[p], u)
             || (u !in Execute(s, es).procs[p].settled && AwaitingId(u) in Execute(s, es).procs[p].calls.Values)
    ensures t == u && u !in Execute(s, es).procs[p].settled
  {
    WorkIsInTurn(s, es);
    OneMaking(Execute(s, es).procs[p], t, u);
  }

  lemma OneMaking(proc: Proc, t: nat, u: nat)
    requires Orderly(proc) && MakesIdentity(proc, t)
    requires MakesIdentity(proc, u) || (u !in proc.settled && AwaitingId(u) in proc.calls.Values)
    ensures t == u && u !in proc.settled
  {
    if AwaitingId(u) in proc.calls.Values {
      var c :| c in proc.calls && proc.calls[c] == AwaitingId(u);
      assert CallWaits(proc, proc.calls[c]);
    }
  }

  /** A process with nothing left to do keeps no call waiting: each goes on as soon as it is its turn. */
  lemma NoCallIsStranded(s: State, es: seq<Event>, p: Pid, call: CallId, agentId: string)
    requires Init(s) && Live(Execute(s, es), p)
    requires Execute(s, es).procs[p].at.Resting? && Execute(s, es).procs[p].queue == []
    requires call in Execute(s, es).procs[p].calls
    ensures var calls := Resumed(Unshared(Execute(s, es).procs[p]), call, agentId).calls;
      && call in calls && !calls[call].Reloading?
      && (Execute(s, es).procs[p].calls[call].AwaitingId? ==> calls[call].Returned? || calls[call].Threw?)
  {
    WorkIsInTurn(s, es);
    RestingGoesOn(Execute(s, es).procs[p], call, agentId);
  }

  lemma RestingGoesOn(proc: Proc, call: CallId, agentId: string)
    requires Orderly(proc) && proc.at.Resting? && proc.queue == [] && call in proc.calls
    ensures var calls := Resumed(Unshared(proc), call, agentId).calls;
      && call in calls && !calls[call].Reloading?
      && (proc.calls[call].AwaitingId? ==> calls[call].Returned? || calls[call].Threw?)
  {
    assert CallWaits(proc, proc.calls[call]);
    assert forall t: nat :: t in proc.settled <==> t < |proc.asked|;
  }

  // Commits

  /** The work at hand is done, and its answer waits for the lock to be given back. */
  predicate Answers(at: Stage) {
    at.Unlocking? || at.Leaving?
  }

  /** The work of this ticket has been written to the disk, and its caller is not told that it failed. */
  predicate Committed(proc: Proc, ticket: nat) {
    || (ticket in proc.settled && !proc.settled[ticket].Failed?)
    || (ticket == proc.job.ticket && (proc.at.Restamping? || (Answers(proc.at) && !proc.at.answer.Failed?)))
  }

  ghost predicate EachCommitted(s: State) {
    forall i :: 0 <= i < |s.commits| ==>
           s.commits[i].p in s.procs && Committed(s.procs[s.commits[i].p], s.commits[i].ticket)
  }

  /** The commits of one process are in the order it was asked. */
  ghost predicate InOrderAsked(commits: seq<Commit>) {
    forall i, j :: 0 <= i < j < |commits| && commits[i].p == commits[j].p ==> commits[i].ticket < commits[j].ticket
  }

  lemma StaysCommitted(s: State, e: Event, ticket: nat)
    requires Live(s, e.p) && InTurn(s.procs[e.p]) && Committed(s.procs[e.p], ticket)
    ensures e.p in Apply(s, e).procs && Committed(Apply(s, e).procs[e.p], ticket)
  {
    match e
    case Advance(p) => AdvanceKeepsCommitted(s, p, ticket);
    case Throw(_) =>
    case Begin(_) =>
    case GiveUp(_) =>
    case Crash(_) =>
    case AskIdentity(_, _) =>
    case AskFor(_, _) =>
    case Resume(_, _, _) =>
    case Unshare(_) =>
  }

  lemma AdvanceKeepsCommitted(s: State, p: Pid, ticket: nat)
    requires Live(s, p) && InTurn(s.procs[p]) && Committed(s.procs[p], ticket)
    ensures p in Step(s, p).procs && Committed(Step(s, p).procs[p], ticket)
  {
  }

  /** About to rename, the work at hand comes after all of the process's work that was written. */
  lemma RenamingIsLater(proc: Proc, ticket: nat)
    requires InTurn(proc) && proc.at.Renaming? && Committed(proc, ticket)
    ensures ticket < proc.job.ticket
  {
  }

  lemma StepKeepsCommitted(s: State, e: Event)
    requires LockSound(s) && AllOrderly(s) && EachCommitted(s) && InOrderAsked(s.commits)
    ensures EachCommitted(Apply(s, e)) && InOrderAsked(Apply(s, e).commits)
  {
    if Live(s, e.p) {
      var s', proc := Apply(s, e), s.procs[e.p];
      ApplyFrame(s, e);
      WritesOrNot(s, e);
      assert Orderly(proc);
      forall i | 0 <= i < |s.commits|
        ensures s.commits[i].p in s'.procs && Committed(s'.procs[s.commits[i].p], s.commits[i].ticket)
      {
        if s.commits[i].p == e.p { StaysCommitted(s, e, s.commits[i].ticket); }
      }
      if Writes(s, e) {
        forall i | 0 <= i < |s.commits| && s.commits[i].p == e.p ensures s.commits[i].ticket < proc.job.ticket {
          RenamingIsLater(proc, s.commits[i].ticket);
        }
      }
    }
  }

  /**
   What one process changes reaches the disk in the order it was asked, each change once; none of them is told as
   failed.
   */
  lemma {:induction false} CommitsInOrderAsked(s: State, es: seq<Event>)
    requires Init(s)
    ensures InOrderAsked(Execute(s, es).commits) && EachCommitted(Execute(s, es))
    decreases |es|
  {
    if es != [] {
      CommitsInOrderAsked(s, es[..|es| - 1]);
      RunsStaySound(s, es[..|es| - 1]);
      WorkIsInTurn(s, es[..|es| - 1]);
      StepKeepsCommitted(Execute(s, es[..|es| - 1]), es[|es| - 1]);
    }
  }

  // One identity

  predicate TheAgent(versions: seq<File>, agentId: string) {
    versions != [] && agentId == versions[0].agentId
  }

  /** Everybody who was told an identity was told the file's. */
  ghost predicate Told(versions: seq<File>, proc: Proc) {
    && (Answers(proc.at) && proc.at.answer.Got? ==> TheAgent(versions, proc.at.answer.agentId))
    && (forall t :: t in proc.settled && proc.settled[t].Got? ==> TheAgent(versions, proc.settled[t].agentId))
    && (forall c :: c in proc.calls && proc.calls[c].Returned? ==> TheAgent(versions, proc.calls[c].agentId))
  }

  /** No identity is made after a first version of the file. */
  ghost predicate MadeAtMostOnce(s: State) {
    && |s.commits| <= |s.versions|
    && (forall i :: 0 <= i < |s.commits| && s.commits[i].change.MakeIdentity? ==> i == 0 && |s.commits| == |s.versions|)
  }

  ghost predicate OneAgent(s: State) {
    && (forall i :: 0 <= i < |s.versions| ==> s.versions[i].agentId == s.versions[0].agentId)
    && (forall p :: p in s.procs ==> Told(s.versions, s.procs[p]))
    && MadeAtMostOnce(s)
  }

  /** An `identity()` call returns what the process knows once its reload ended, or what the work it waited for made. */
  lemma WhatIsReturned(s: State, e: Event, call: CallId, agentId: string)
    requires Live(s, e.p) && e.p in Apply(s, e).procs && call in Apply(s, e).procs[e.p].calls
    requires Apply(s, e).procs[e.p].calls[call] == Returned(agentId)
    requires call in s.procs[e.p].calls ==> !s.procs[e.p].calls[call].Returned?
    ensures var proc := s.procs[e.p];
      && e.Resume? && e.call == call && call in proc.calls
      && match proc.calls[call]
         case Reloading(ticket) => ticket in proc.settled && proc.cache.identity == Some(agentId)
         case AwaitingId(ticket) => ticket in proc.settled && proc.settled[ticket] == Got(agentId)
         case _ => false
  {
    if e.Advance? { AdvanceKeepsCalls(s, e.p); }
  }

  lemma AdvanceKeepsCalls(s: State, p: Pid)
    requires Live(s, p)
    ensures p in Step(s, p).procs && Step(s, p).procs[p].calls == s.procs[p].calls
  {
  }

  /** What a process knows, or has just made, is the agent of the file's first version. */
  lemma KnownIdentityIsTheFiles(versions: seq<File>, proc: Proc)
    requires forall i :: 0 <= i < |versions| ==> versions[i].agentId == versions[0].agentId
    requires ProcSound(versions, proc)
    ensures proc.cache.identity.Some? ==> TheAgent(versions, proc.cache.identity.value)
    ensures proc.at.Restamping? && proc.at.change.MakeIdentity? ==> TheAgent(versions, proc.at.change.agentId)
  {
    var v :| CachesVersion(versions, proc.cache, v);
  }

  lemma WorkTells(versions: seq<File>, proc: Proc)
    requires Told(versions, proc)
    requires proc.cache.identity.Some? ==> TheAgent(versions, proc.cache.identity.value)
    ensures Told(versions, Work(proc))
  {
  }

  lemma ResumedTells(versions: seq<File>, proc: Proc, call: CallId, agentId: string)
    requires Told(versions, proc)
    requires proc.cache.identity.Some? ==> TheAgent(versions, proc.cache.identity.value)
    ensures Told(versions, Resumed(proc, call, agentId))
  {
  }

  lemma LaterTells(versions: seq<File>, next: File, proc: Proc)
    requires Told(versions, proc)
    ensures Told(versions + [next], proc)
  {
  }

  lemma AdvanceTells(s: State, p: Pid)
    requires Live(s, p) && Told(s.versions, s.procs[p]) && ProcSound(s.versions, s.procs[p])
    requires InLock(s.procs[p].at) ==> HolderSound(s.versions, s.procs[p])
    requires forall i :: 0 <= i < |s.versions| ==> s.versions[i].agentId == s.versions[0].agentId
    ensures p in Step(s, p).procs && Told(Step(s, p).versions, Step(s, p).procs[p])
  {
    var proc := s.procs[p];
    KnownIdentityIsTheFiles(s.versions, proc);
    match proc.at
    case LockedStat => WorkTells(s.versions, proc);
    case LockedRead(seen) => WorkTells(s.versions, proc.(cache := Adopt(proc.cache, OnDisk(s), seen)));
    case Renaming(change, next) => LaterTells(s.versions, next, OnRename(proc, change, next));
    case _ =>
  }

  lemma MoverTells(s: State, e: Event)
    requires Live(s, e.p) && Told(s.versions, s.procs[e.p]) && ProcSound(s.versions, s.procs[e.p])
    requires InLock(s.procs[e.p].at) ==> HolderSound(s.versions, s.procs[e.p])
    requires forall i :: 0 <= i < |s.versions| ==> s.versions[i].agentId == s.versions[0].agentId
    ensures e.p in Apply(s, e).procs && Told(Apply(s, e).versions, Apply(s, e).procs[e.p])
  {
    match e
    case Advance(p) => AdvanceTells(s, p);
    case Resume(_, call, agentId) =>
      KnownIdentityIsTheFiles(s.versions, s.procs[e.p]);
      ResumedTells(s.versions, s.procs[e.p], call, agentId);
    case Throw(_) =>
    case _ =>
  }

  lemma WritingKeepsAgent(s: State, e: Event)
    requires Sound(s) && Live(s, e.p) && OneAgent(s)
    ensures var s' := Apply(s, e);
      && (forall i :: 0 <= i < |s'.versions| ==> s'.versions[i].agentId == s'.versions[0].agentId)
      && MadeAtMostOnce(s')
  {
    OnlyRenameWrites(s, e);
    if Writes(s, e) { RenameKeepsAgent(s.procs[e.p].at.change, OnDisk(s)); }
  }

  lemma StepKeepsOneAgent(s: State, e: Event)
    requires Sound(s) && OneAgent(s)
    ensures OneAgent(Apply(s, e))
  {
    if Live(s, e.p) {
      var s' := Apply(s, e);
      ApplyFrame(s, e);
      WritingKeepsAgent(s, e);
      MoverTells(s, e);
      WritesOrNot(s, e);
      forall q | q in s'.procs && q != e.p ensures Told(s'.versions, s'.procs[q]) {
        if Writes(s, e) { LaterTells(s.versions, s.procs[e.p].at.next, s.procs[q]); }
      }
    }
  }

  /**
   However many processes and calls ask at once, one agent id at most is ever written, once, and every `identity()`
   call that returns, returns it.
   */
  lemma {:induction false} OneIdentity(s: State, es: seq<Event>)
    requires Init(s)
    ensures OneAgent(Execute(s, es))
    decreases |es|
  {
    if es != [] {
      OneIdentity(s, es[..|es| - 1]);
      RunsStaySound(s, es[..|es| - 1]);
      StepKeepsOneAgent(Execute(s, es[..|es| - 1]), es[|es| - 1]);
    }
  }
}
