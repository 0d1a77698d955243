/** What it means that a change of the pairing store was told as done: it is on the disk, or there was nothing to do. */
module StoreAcks {
  import opened Wrappers
  import opened Pairings
  import opened PairingStore
  import opened StoreTheorems
  import opened StoreCalls

  /** The change asked for under this ticket reached the disk. */
  ghost predicate Landed(s: State, p: Pid, ticket: nat, change: Change) {
    exists i :: 0 <= i < |s.commits| && IsCommitOf(s.commits[i], p, ticket, change)
  }

  predicate IsCommitOf(c: Commit, p: Pid, ticket: nat, change: Change) {
    c.p == p && c.ticket == ticket && c.change == change
  }

  /** The process holds the lock for this work, and the change leaves the file on disk as it is. */
  predicate HoldsUnchanged(s: State, p: Pid, ticket: nat, change: Change) {
    s.holder == Some(p) && p in s.procs && s.procs[p].job == Job(ticket, Modify(change))
      && Decide(change, OnDisk(s)).Unchanged?
  }

  ghost predicate LeftAsItWas(s: State, es: seq<Event>, p: Pid, ticket: nat, change: Change) {
    exists i: nat :: i <= |es| && HoldsUnchanged(Execute(s, es[..i]), p, ticket, change)
  }

  ghost predicate Kept(s: State, es: seq<Event>, p: Pid, ticket: nat, change: Change) {
    Landed(Execute(s, es), p, ticket, change) || LeftAsItWas(s, es, p, ticket, change)
  }

  // One step

  /** The work is done and told so, or about to be. */
  predicate ToldDone(proc: Proc, ticket: nat, change: Change) {
    || (Answers(proc.at) && proc.at.answer.Done? && proc.job == Job(ticket, Modify(change)))
    || (ticket in proc.settled && proc.settled[ticket].Done?
          && ticket < |proc.asked| && proc.asked[ticket] == Modify(change))
  }

  /** A change just renamed has its commit. */
  ghost predicate RenamedLanded(s: State, p: Pid, proc: Proc) {
    proc.at.Restamping? ==> Landed(s, p, proc.job.ticket, proc.at.change)
  }

  /** Work under the lock that changes nothing comes from a change that leaves the file as it is. */
  lemma WorkTellsDone(s: State, p: Pid, proc: Proc, ticket: nat, change: Change)
    requires proc.cache.file == OnDisk(s) && InLock(proc.at) && InTurn(proc)
    requires ToldDone(Work(proc), ticket, change) && !ToldDone(proc, ticket, change)
    ensures proc.job == Job(ticket, Modify(change)) && Decide(change, OnDisk(s)).Unchanged?
  {
  }

  lemma LockedStatTells(s: State, p: Pid, ticket: nat, change: Change)
    requires p in s.procs && s.procs[p].at.LockedStat? && s.holder == Some(p)
    requires InTurn(s.procs[p]) && ProcSound(s.versions, s.procs[p]) && !ToldDone(s.procs[p], ticket, change)
    requires ToldDone(OnLockedStat(s.procs[p], |s.versions|), ticket, change)
    ensures HoldsUnchanged(s, p, ticket, change)
  {
    var proc := s.procs[p];
    if proc.cache.stamp == |s.versions| {
      CurrentStampCurrentFile(s.versions, proc.cache);
      WorkTellsDone(s, p, proc, ticket, change);
    }
  }

  lemma LockedReadTells(s: State, p: Pid, ticket: nat, change: Change)
    requires p in s.procs && s.procs[p].at.LockedRead? && s.holder == Some(p)
    requires InTurn(s.procs[p]) && !ToldDone(s.procs[p], ticket, change)
    requires ToldDone(OnLockedRead(s.procs[p], s.procs[p].at.seen, OnDisk(s)), ticket, change)
    ensures HoldsUnchanged(s, p, ticket, change)
  {
    var proc := s.procs[p];
    WorkTellsDone(s, p, proc.(cache := Adopt(proc.cache, OnDisk(s), proc.at.seen)), ticket, change);
  }

  /** Nothing but the work's own end tells a change as done. */
  lemma OtherStagesTellNone(s: State, p: Pid, ticket: nat, change: Change)
    requires Live(s, p) && Orderly(s.procs[p]) && !s.procs[p].at.LockedStat? && !s.procs[p].at.LockedRead?
    requires p in Step(s, p).procs && ToldDone(Step(s, p).procs[p], ticket, change)
             && !ToldDone(s.procs[p], ticket, change)
    ensures s.procs[p].at == Restamping(change) && s.procs[p].job.ticket == ticket
  {
  }

  lemma AdvanceTellsDone(s: State, p: Pid, ticket: nat, change: Change)
    requires Sound(s) && Live(s, p) && Orderly(s.procs[p]) && RenamedLanded(s, p, s.procs[p])
    requires p in Step(s, p).procs && ToldDone(Step(s, p).procs[p], ticket, change)
             && !ToldDone(s.procs[p], ticket, change)
    ensures Landed(s, p, ticket, change) || HoldsUnchanged(s, p, ticket, change)
  {
    var proc := s.procs[p];
    assert ProcSound(s.versions, proc);
    match proc.at
    case LockedStat => LockedStatTells(s, p, ticket, change);
    case LockedRead(seen) =>
      assert HolderSound(s.versions, proc);
      LockedReadTells(s, p, ticket, change);
    case _ => OtherStagesTellNone(s, p, ticket, change);
  }

  lemma OthersTellNone(s: State, e: Event, ticket: nat, change: Change)
    requires Live(s, e.p) && Orderly(s.procs[e.p]) && !e.Advance?
    requires e.p in Apply(s, e).procs && ToldDone(Apply(s, e).procs[e.p], ticket, change)
    ensures ToldDone(s.procs[e.p], ticket, change)
  {
    var proc := s.procs[e.p];
    match e
    case AskIdentity(_, _) => AskingTellsNone(proc, Reload, ticket, change);
    case AskFor(_, task) => AskingTellsNone(proc, task, ticket, change);
    case Resume(_, call, agentId) =>
      AskingTellsNone(proc, MakeId(agentId), ticket, change);
      ResumingAsks(proc, call, agentId, ticket, change);
    case _ =>
  }

  /** A new ticket is not settled yet. */
  lemma AskingTellsNone(proc: Proc, task: Task, ticket: nat, change: Change)
    requires InTurn(proc)
    ensures ToldDone(Enqueue(proc, task), ticket, change) <==> ToldDone(proc, ticket, change)
  {
  }

  lemma ResumingAsks(proc: Proc, call: CallId, agentId: string, ticket: nat, change: Change)
    ensures ToldDone(Resumed(proc, call, agentId), ticket, change)
            ==> ToldDone(proc, ticket, change) || ToldDone(Enqueue(proc, MakeId(agentId)), ticket, change)
  {
  }

  // Every run

  ghost predicate EachRenamedLanded(s: State) {
    forall p :: p in s.procs ==> RenamedLanded(s, p, s.procs[p])
  }

  lemma LandedStays(s: State, e: Event, p: Pid, ticket: nat, change: Change)
    requires Landed(s, p, ticket, change)
    ensures Landed(Apply(s, e), p, ticket, change)
  {
    if Live(s, e.p) { WritesOrNot(s, e); }
    var i :| 0 <= i < |s.commits| && IsCommitOf(s.commits[i], p, ticket, change);
    assert IsCommitOf(Apply(s, e).commits[i], p, ticket, change);
  }

  lemma RenamingLands(s: State, p: Pid)
    requires Live(s, p) && s.procs[p].at.Renaming?
    ensures Landed(Step(s, p), p, s.procs[p].job.ticket, s.procs[p].at.change)
  {
    assert IsCommitOf(Step(s, p).commits[|s.commits|], p, s.procs[p].job.ticket, s.procs[p].at.change);
  }

  /** A process is at its restamping only by its own rename. */
  lemma RestampingComesFrom(s: State, e: Event)
    requires Live(s, e.p) && e.p in Apply(s, e).procs && Apply(s, e).procs[e.p].at.Restamping?
    ensures var proc, after := s.procs[e.p], Apply(s, e).procs[e.p];
      && after.job == proc.job
      && if Writes(s, e) then after.at.change == proc.at.change else after.at == proc.at
  {
    match e
    case Advance(p) => AdvanceToRestamping(s, p);
    case Throw(_) =>
    case Begin(_) =>
    case GiveUp(_) =>
    case Crash(_) =>
    case _ => AskingKeepsWork(s, e);
  }

  lemma AdvanceToRestamping(s: State, p: Pid)
    requires Live(s, p) && p in Step(s, p).procs && Step(s, p).procs[p].at.Restamping?
    ensures s.procs[p].at.Renaming? && Step(s, p).procs[p].job == s.procs[p].job
    ensures Step(s, p).procs[p].at.change == s.procs[p].at.change
  {
  }

  lemma StepKeepsRenamedLanded(s: State, e: Event)
    requires LockSound(s) && EachRenamedLanded(s)
    ensures EachRenamedLanded(Apply(s, e))
  {
    if Live(s, e.p) {
      var s' := Apply(s, e);
      ApplyFrame(s, e);
      forall q | q in s'.procs && s'.procs[q].at.Restamping? ensures RenamedLanded(s', q, s'.procs[q]) {
        if q == e.p {
          RestampingComesFrom(s, e);
          if Writes(s, e) {
            RenamingLands(s, q);
          } else {
            LandedStays(s, e, q, s.procs[q].job.ticket, s.procs[q].at.change);
          }
        } else {
          LandedStays(s, e, q, s.procs[q].job.ticket, s.procs[q].at.change);
        }
      }
    }
  }

  lemma {:induction false} RenamedHaveLanded(s: State, es: seq<Event>)
    requires Init(s)
    ensures EachRenamedLanded(Execute(s, es))
    decreases |es|
  {
    if es != [] {
      RenamedHaveLanded(s, es[..|es| - 1]);
      RunsStaySound(s, es[..|es| - 1]);
      StepKeepsRenamedLanded(Execute(s, es[..|es| - 1]), es[|es| - 1]);
    }
  }

  lemma KeptStays(s: State, es: seq<Event>, p: Pid, ticket: nat, change: Change)
    requires es != [] && Kept(s, es[..|es| - 1], p, ticket, change)
    ensures Kept(s, es, p, ticket, change)
  {
    var earlier := es[..|es| - 1];
    if Landed(Execute(s, earlier), p, ticket, change) {
      LandedStays(Execute(s, earlier), es[|es| - 1], p, ticket, change);
    } else {
      var i: nat :| i <= |earlier| && HoldsUnchanged(Execute(s, earlier[..i]), p, ticket, change);
      assert es[..i] == earlier[..i];
    }
  }

  lemma HeldIsKept(s: State, es: seq<Event>, p: Pid, ticket: nat, change: Change)
    requires HoldsUnchanged(Execute(s, es), p, ticket, change)
    ensures Kept(s, es, p, ticket, change)
  {
    assert es[..|es|] == es;
  }

  /** A process that did not move tells what it told. */
  lemma NewlyTold(s: State, e: Event, p: Pid, ticket: nat, change: Change)
    requires Sound(s) && AllOrderly(s) && EachRenamedLanded(s)
    requires p in Apply(s, e).procs && ToldDone(Apply(s, e).procs[p], ticket, change)
    ensures p in s.procs
    ensures ToldDone(s.procs[p], ticket, change) || Landed(s, p, ticket, change) || HoldsUnchanged(s, p, ticket, change)
  {
    StepKeepsProcs(s, e);
    if Live(s, e.p) {
      ApplyFrame(s, e);
      if p == e.p && !ToldDone(s.procs[p], ticket, change) {
        assert Orderly(s.procs[p]) && RenamedLanded(s, p, s.procs[p]);
        if e.Advance? { AdvanceTellsDone(s, p, ticket, change); } else { OthersTellNone(s, e, ticket, change); }
      }
    }
  }

  /**
   No change that was told as done is lost: it reached the disk under its ticket, or it left the file on disk as it was
   while its process held the lock for it.
   */
  lemma {:induction false} NoDoneChangeIsLost(s: State, es: seq<Event>, p: Pid, ticket: nat, change: Change)
    requires Init(s) && p in Execute(s, es).procs && ToldDone(Execute(s, es).procs[p], ticket, change)
    ensures Kept(s, es, p, ticket, change)
    decreases |es|
  {
    if es != [] {
      var earlier, e := es[..|es| - 1], es[|es| - 1];
      var before := Execute(s, earlier);
      RunsStaySound(s, earlier);
      WorkIsInTurn(s, earlier);
      RenamedHaveLanded(s, earlier);
      NewlyTold(before, e, p, ticket, change);
      if ToldDone(before.procs[p], ticket, change) {
        NoDoneChangeIsLost(s, earlier, p, ticket, change);
      } else if HoldsUnchanged(before, p, ticket, change) {
        HeldIsKept(s, earlier, p, ticket, change);
      }
      KeptStays(s, es, p, ticket, change);
    }
  }
}
