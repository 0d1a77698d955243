/**
 What a call of `lock()` and its release come to: a process left alone takes a free lock, gives back its own, waits for
 a young one until its deadline, and undoes a move it did not mean; and in every run a release takes its own lock away.
 */
module LockProgress {
  import opened Wrappers
  import opened LockProtocol
  import opened LockSafety

  /** After `n` steps of `p`, nothing else happening. */
  function Alone(s: State, p: Pid, n: nat): State {
    if n == 0 then s else Apply(Alone(s, p, n - 1), Advance(p, 0))
  }

  /** Left alone, the process comes to this state. */
  ghost predicate ComesTo(s: State, p: Pid, s': State) {
    exists n: nat :: Alone(s, p, n) == s'
  }

  lemma {:induction false} AloneTwice(s: State, p: Pid, m: nat, n: nat)
    ensures Alone(s, p, m + n) == Alone(Alone(s, p, m), p, n)
  {
    if n > 0 { AloneTwice(s, p, m, n - 1); }
  }

  lemma Then(s: State, p: Pid, a: State, b: State)
    requires ComesTo(s, p, a) && ComesTo(a, p, b)
    ensures ComesTo(s, p, b)
  {
    var m: nat :| Alone(s, p, m) == a;
    var n: nat :| Alone(a, p, n) == b;
    AloneTwice(s, p, m, n);
  }

  lemma OneStep(s: State, p: Pid, s': State)
    requires Live(s, p) && WellFormedProc(s, s.procs[p]) && s' == Step(s, p, 0)
    ensures ComesTo(s, p, s')
  {
    var n: nat := 0;
    assert Alone(s, p, n) == s && Alone(s, p, n + 1) == s';
  }

  // Taking and giving back

  /** A process that finds no lock makes one and holds it. */
  lemma FreeLockIsTaken(s: State, p: Pid) returns (s': State)
    requires Sound(s) && Live(s, p) && s.procs[p].Idle? && s.path.None?
    ensures ComesTo(s, p, s')
    ensures var t := s.nextToken;
      && p in s'.procs && s'.procs[p] == Holding(t) && s'.path == Some(t)
      && t !in s.files && t in s'.files && s'.files[t].written
      && (forall f :: f in s.files ==> f in s'.files && s'.files[f] == s.files[f])
      && (forall q :: q in s.procs && q != p ==> q in s'.procs && s'.procs[q] == s.procs[q])
  {
    var t := s.nextToken;
    var s1 := SetProc(s.(nextToken := t + 1), p, Opening(t, s.now + s.timeoutMs));
    OneStep(s, p, s1);
    var s2 := SetProc(s1.(path := Some(t), files := s.files[t := LockFile(Stat(0, s.now), false)]), p, Writing(t));
    OneStep(s1, p, s2);
    Then(s, p, s1, s2);
    s' := SetProc(s2.(files := s2.files[t := LockFile(Stat(0, s.now), true)]), p, Holding(t));
    OneStep(s2, p, s');
    Then(s, p, s2, s');
  }

  lemma MovesOwnAside(s: State, p: Pid, t: Token)
    requires Live(s, p) && s.procs[p] == Holding(t) && s.path == Some(t) && t in s.files
    ensures ComesTo(s, p, SetProc(s.(path := None), p, Moved(t, Release, t)))
  {
    var s1 := SetProc(s, p, Releasing(t));
    var s2 := SetProc(s.(path := None), p, Moved(t, Release, t));
    OneStep(s, p, s1);
    OneStep(s1, p, s2);
    Then(s, p, s1, s2);
  }

  lemma KnowsOwn(s: State, p: Pid, t: Token)
    requires Live(s, p) && s.procs[p] == Moved(t, Release, t) && s.path.None? && t in s.files && s.files[t].written
    ensures ComesTo(s, p, SetProc(s, p, Dropping(t, Release, t)))
  {
    var s1 := SetProc(s, p, Examining(t, Release, t, s.files[t].stat));
    var s2 := SetProc(s, p, Dropping(t, Release, t));
    OneStep(s, p, s1);
    OneStep(s1, p, s2);
    Then(s, p, s1, s2);
  }

  lemma DropsMoved(s: State, p: Pid)
    requires Live(s, p) && s.procs[p].Dropping?
             && s.procs[p].file in s.files && (s.path.Some? ==> s.path.value in s.files)
    ensures ComesTo(s, p, SetProc(s, p, AfterMove(s.procs[p].token, s.procs[p].why)))
  {
    OneStep(s, p, SetProc(s, p, AfterMove(s.procs[p].token, s.procs[p].why)));
  }

  /** A holder whose lock is on the path takes it away for good and is done. */
  lemma OwnLockIsReleased(s: State, p: Pid, t: Token) returns (s': State)
    requires Sound(s) && Live(s, p) && s.procs[p] == Holding(t) && s.path == Some(t)
    ensures ComesTo(s, p, s')
    ensures p in s'.procs && s'.procs[p].Idle? && s'.path.None? && Gone(s', t) && s'.files == s.files
    ensures forall q :: q in s.procs && q != p ==> q in s'.procs && s'.procs[q] == s.procs[q]
  {
    assert SoundProc(s, s.procs[p]);
    var moved := SetProc(s.(path := None), p, Moved(t, Release, t));
    var known := SetProc(s.(path := None), p, Dropping(t, Release, t));
    s' := SetProc(s.(path := None), p, Idle);
    MovesOwnAside(s, p, t);
    KnowsOwn(moved, p, t);
    assert SetProc(moved, p, Dropping(t, Release, t)) == known;
    Then(s, p, moved, known);
    DropsMoved(known, p);
    assert SetProc(known, p, Idle) == s';
    Then(s, p, known, s');
  }

  // Waiting and giving up

  /** One that finds a lock that is not stale leaves it, and goes on trying until its deadline and not past it. */
  lemma YoungLockIsLeft(s: State, p: Pid, f: Token)
    requires Live(s, p) && s.procs[p].Looking? && s.path == Some(f) && f in s.files
    requires s.now - s.files[f].stat.mtime <= s.staleMs
    ensures ComesTo(s, p, Retries(s, p, s.procs[p].token, s.procs[p].deadline))
  {
    var token, deadline := s.procs[p].token, s.procs[p].deadline;
    var stat := s.files[f].stat;
    var s1 := SetProc(s, p, Peeking(token, deadline, stat));
    OneStep(s, p, s1);
    var s2 := SetProc(s, p, Judging(token, deadline, Some(Seen(stat, Content(s, f)))));
    OneStep(s1, p, s2);
    Then(s, p, s1, s2);
    OneStep(s2, p, Retries(s, p, token, deadline));
    Then(s, p, s2, Retries(s, p, token, deadline));
  }

  /** Back at `open` before its deadline, out of `lock()` without a lock after it. */
  function Retries(s: State, p: Pid, token: Token, deadline: int): State {
    SetProc(s, p, if s.now < deadline then Opening(token, deadline) else Idle)
  }

  /** It looks at all only where there is a lock. */
  lemma LookingAtLock(s: State, p: Pid)
    requires Live(s, p) && s.procs[p].Opening? && s.path.Some? && s.path.value in s.files
    ensures ComesTo(s, p, SetProc(s, p, Looking(s.procs[p].token, s.procs[p].deadline)))
  {
    OneStep(s, p, Step(s, p, 0));
  }

  /** Nothing to see is nothing to take over. */
  lemma VanishedLockIsLeft(s: State, p: Pid)
    requires Live(s, p) && (s.procs[p].Looking? || s.procs[p].Peeking?) && s.path.None?
    ensures ComesTo(s, p, Retries(s, p, s.procs[p].token, s.procs[p].deadline))
  {
    var token, deadline := s.procs[p].token, s.procs[p].deadline;
    var s1 := SetProc(s, p, Judging(token, deadline, None));
    OneStep(s, p, s1);
    OneStep(s1, p, Retries(s, p, token, deadline));
    Then(s, p, s1, Retries(s, p, token, deadline));
  }

  /** Nor does one take over a lock that is gone, or another one, by the time it has judged it. */
  lemma ReplacedLockIsLeft(s: State, p: Pid)
    requires Live(s, p) && s.procs[p].Checking? && (s.path.Some? ==> s.path.value in s.files)
    requires s.path.Some? ==> s.files[s.path.value].stat != s.procs[p].judged.stat
    ensures Apply(s, Advance(p, 0)) == SetProc(s, p, Opening(s.procs[p].token, s.procs[p].deadline))
  {
  }

  // Undoing

  /** A lock moved by mistake is put back where nobody made another, and its mover goes back to where it came from. */
  lemma MistakenMoveIsUndone(s: State, p: Pid) returns (s': State)
    requires Sound(s) && Live(s, p) && s.procs[p].Moved? && Mistaken(s, s.procs[p])
    ensures ComesTo(s, p, s')
    ensures s'.path == (if s.path.None? then Some(s.procs[p].file) else s.path) && s'.files == s.files
    ensures var token, why := s.procs[p].token, s.procs[p].why;
      s'.procs == s.procs[p := if why.Takeover? then Opening(token, why.deadline) else Idle]
  {
    var token, why, file := s.procs[p].token, s.procs[p].why, s.procs[p].file;
    var back := if s.path.None? then s.(path := Some(file)) else s;
    var s2, s3 := SetProc(s, p, PuttingBack(token, why, file)), SetProc(back, p, Dropping(token, why, file));
    s' := SetProc(back, p, AfterMove(token, why));
    FindsOutMistake(s, p);
    PutsBack(s2, p);
    assert SetProc(if s2.path.None? then s2.(path := Some(file)) else s2, p, Dropping(token, why, file)) == s3;
    Then(s, p, s2, s3);
    DropsMoved(s3, p);
    assert SetProc(s3, p, AfterMove(token, why)) == s';
    Then(s, p, s3, s');
  }

  lemma PutsBack(s: State, p: Pid)
    requires Live(s, p) && s.procs[p].PuttingBack? && s.procs[p].file in s.files
    requires s.path.Some? ==> s.path.value in s.files
    ensures ComesTo(s, p, SetProc(if s.path.None? then s.(path := Some(s.procs[p].file)) else s, p,
                                  Dropping(s.procs[p].token, s.procs[p].why, s.procs[p].file)))
  {
    OneStep(s, p, Step(s, p, 0));
  }

  lemma FindsOutMistake(s: State, p: Pid)
    requires Sound(s) && Live(s, p) && s.procs[p].Moved? && Mistaken(s, s.procs[p])
    ensures ComesTo(s, p, SetProc(s, p, PuttingBack(s.procs[p].token, s.procs[p].why, s.procs[p].file)))
  {
    var token, why, file := s.procs[p].token, s.procs[p].why, s.procs[p].file;
    var s1 := SetProc(s, p, Examining(token, why, file, s.files[file].stat));
    OneStep(s, p, s1);
    var s2 := SetProc(s, p, PuttingBack(token, why, file));
    OneStep(s1, p, s2);
    Then(s, p, s1, s2);
  }

  // Every run: a release takes its own lock away

  /** Some other process had moved the lock aside by then. */
  ghost predicate MovedByOther(s: State, es: seq<Event>, p: Pid, t: Token) {
    exists j: nat, q :: j <= |es| && HeldAsideBy(Execute(s, es[..j]), q, p, t)
  }

  predicate HeldAsideBy(s: State, q: Pid, p: Pid, t: Token) {
    q != p && q in s.procs && HoldsAside(s.procs[q], t)
  }

  /** What a process has done with its own lock: it is where it was made, in the process's own hands, or gone. */
  predicate OwnLockSeen(s: State, proc: Proc) {
    && (InSection(proc) ==> s.path == Some(proc.token))
    && (IsMover(proc) && proc.why.Release? ==>
          proc.file == proc.token && !proc.PuttingBack? && s.path != Some(proc.token))
  }

  lemma MovedStays(s: State, es: seq<Event>, p: Pid, t: Token)
    requires es != [] && MovedByOther(s, es[..|es| - 1], p, t)
    ensures MovedByOther(s, es, p, t)
  {
    var earlier := es[..|es| - 1];
    var j: nat, q :| j <= |earlier| && HeldAsideBy(Execute(s, earlier[..j]), q, p, t);
    assert es[..j] == earlier[..j];
  }

  lemma HeldIsMoved(s: State, es: seq<Event>, p: Pid, t: Token, q: Pid)
    requires HeldAsideBy(Execute(s, es), q, p, t)
    ensures MovedByOther(s, es, p, t)
  {
    assert es[..|es|] == es;
  }

  lemma SectionStepKeeps(u: State, p: Pid, ino: int)
    requires Live(u, p) && Enabled(u, Advance(p, ino)) && OwnLockSeen(u, u.procs[p]) && InSection(u.procs[p])
    ensures var u' := Apply(u, Advance(p, ino));
      && p in u'.procs && OwnLockSeen(u', u'.procs[p]) && !u'.procs[p].Dropping?
      && !u'.procs[p].Idle? && u'.procs[p].token == u.procs[p].token
  {
  }

  lemma OwnMoveKeeps(u: State, p: Pid, ino: int)
    requires Sound(u) && Live(u, p) && OwnLockSeen(u, u.procs[p])
    requires IsMover(u.procs[p]) && u.procs[p].why.Release? && !u.procs[p].Dropping?
    ensures var u' := Apply(u, Advance(p, ino));
      && p in u'.procs && OwnLockSeen(u', u'.procs[p])
      && (u'.procs[p].Dropping? ==> Gone(u', u'.procs[p].token))
      && !u'.procs[p].Idle? && u'.procs[p].token == u.procs[p].token
  {
    assert SoundProc(u, u.procs[p]);
    if u.procs[p].Examining? { OwnRemovalIsGone(u, p, ino); }
  }

  lemma OwnStepKeeps(u: State, p: Pid, ino: int)
    requires Sound(u) && Live(u, p) && OwnLockSeen(u, u.procs[p])
    requires InSection(u.procs[p]) || (IsMover(u.procs[p]) && u.procs[p].why.Release?)
    requires u.procs[p].Dropping? ==> Gone(u, u.procs[p].token)
    ensures var u' := Apply(u, Advance(p, ino));
      && p in u'.procs && OwnLockSeen(u', u'.procs[p])
      && (u'.procs[p].Dropping? ==> Gone(u', u'.procs[p].token))
      && ((u'.procs[p].Idle? && Gone(u', u.procs[p].token))
          || (!u'.procs[p].Idle? && u'.procs[p].token == u.procs[p].token))
  {
    AdvanceFrame(u, p, ino);
    if InSection(u.procs[p]) {
      SectionStepKeeps(u, p, ino);
    } else if u.procs[p].Dropping? {
      GoneForGood(u, Advance(p, ino), u.procs[p].token);
    } else {
      OwnMoveKeeps(u, p, ino);
    }
  }

  lemma OwnRemovalIsGone(u: State, p: Pid, ino: int)
    requires Sound(u) && Live(u, p) && u.procs[p].Examining? && u.procs[p].why.Release? && OwnLockSeen(u, u.procs[p])
    ensures var u' := Apply(u, Advance(p, ino));
      p in u'.procs && u'.procs[p] == Dropping(u.procs[p].token, Release, u.procs[p].token)
        && Gone(u', u.procs[p].token)
  {
    assert SoundProc(u, u.procs[p]);
    RemovalIsMeant(u, Advance(p, ino), u.procs[p].token);
  }

  /** While others move, a process's lock stays where it is, or one of them holds it aside. */
  lemma OtherStepKeeps(u: State, p: Pid, e: Event)
    requires Sound(u) && p in u.procs && OwnLockSeen(u, u.procs[p]) && (e.Advance? ==> e.p != p)
    requires u.procs[p].Dropping? && u.procs[p].why.Release? ==> Gone(u, u.procs[p].token)
    ensures var u' := Apply(u, e);
      && p in u'.procs && u'.procs[p] == u.procs[p]
      && (u.procs[p].Dropping? && u.procs[p].why.Release? ==> Gone(u', u.procs[p].token))
      && (OwnLockSeen(u', u.procs[p])
          || (e.Advance? && !u.procs[p].Idle? && HeldAsideBy(u', e.p, p, u.procs[p].token)))
  {
    assert SoundProc(u, u.procs[p]);
    if e.Advance? && Live(u, e.p) {
      AdvanceFrame(u, e.p, e.ino);
      WhereFilesMove(u, e.p, e.ino);
      if InSection(u.procs[p]) { WhereFilesLeave(u, e.p, e.ino, u.procs[p].token); }
    }
    if u.procs[p].Dropping? && u.procs[p].why.Release? { GoneForGood(u, e, u.procs[p].token); }
  }

  // Over runs

  /** The process works with this token, which made a lock: it holds it or is taking it away. */
  predicate Has(s: State, p: Pid, t: Token) {
    p in s.procs && !s.procs[p].Idle? && s.procs[p].token == t && t in s.files
  }

  /** What a run comes to for a process's own lock: still in its hands as it should be, or another's doing. */
  ghost predicate Accounted(s: State, es: seq<Event>, p: Pid, t: Token) {
    var u := Execute(s, es);
    || MovedByOther(s, es, p, t)
    || (Has(u, p, t) && OwnLockSeen(u, u.procs[p])
        && (u.procs[p].Dropping? && u.procs[p].why.Release? ==> Gone(u, t)))
    || (!Has(u, p, t) && Gone(u, t))
  }

  lemma HasIsNoWaiter(s: State, p: Pid, t: Token)
    requires Sound(s) && Has(s, p, t)
    ensures InSection(s.procs[p]) || (IsMover(s.procs[p]) && s.procs[p].why.Release?)
  {
    assert SoundProc(s, s.procs[p]);
  }

  /** No call comes to work with the token of a lock that another made. */
  lemma TokensAreNotTaken(s: State, e: Event, p: Pid, t: Token)
    requires Sound(s) && t in s.files && !Has(s, p, t)
    ensures !Has(Apply(s, e), p, t)
  {
    if e.Advance? && Live(s, e.p) {
      AdvanceFrame(s, e.p, e.ino);
      if e.p == p && !Apply(s, e).procs[p].Idle? { MoverKeepsToken(s, p, e.ino); }
    }
  }

  lemma OwnStepAccounts(s: State, es: seq<Event>, p: Pid, t: Token)
    requires Init(s) && es != [] && Has(Execute(s, es[..|es| - 1]), p, t)
    requires es[|es| - 1].Advance? && es[|es| - 1].p == p && Live(Execute(s, es[..|es| - 1]), p)
    requires var u := Execute(s, es[..|es| - 1]);
      OwnLockSeen(u, u.procs[p]) && (u.procs[p].Dropping? && u.procs[p].why.Release? ==> Gone(u, t))
    ensures Accounted(s, es, p, t)
  {
    var u, e := Execute(s, es[..|es| - 1]), es[|es| - 1];
    RunsKeepSound(s, es[..|es| - 1]);
    HasIsNoWaiter(u, p, t);
    OwnStepKeeps(u, p, e.ino);
    AdvanceFrame(u, p, e.ino);
  }

  lemma OtherStepAccounts(s: State, es: seq<Event>, p: Pid, t: Token)
    requires Init(s) && es != [] && Has(Execute(s, es[..|es| - 1]), p, t)
    requires es[|es| - 1].Advance? ==> es[|es| - 1].p != p || !Live(Execute(s, es[..|es| - 1]), p)
    requires var u := Execute(s, es[..|es| - 1]);
      OwnLockSeen(u, u.procs[p]) && (u.procs[p].Dropping? && u.procs[p].why.Release? ==> Gone(u, t))
    ensures Accounted(s, es, p, t)
  {
    var u, e := Execute(s, es[..|es| - 1]), es[|es| - 1];
    RunsKeepSound(s, es[..|es| - 1]);
    if e.Advance? && e.p == p {
      assert Execute(s, es) == u;
    } else {
      OtherStepKeeps(u, p, e);
      if e.Advance? && Live(u, e.p) { AdvanceFrame(u, e.p, e.ino); }
      if e.Advance? && HeldAsideBy(Execute(s, es), e.p, p, t) { HeldIsMoved(s, es, p, t, e.p); }
    }
  }

  lemma StillAccounted(s: State, es: seq<Event>, p: Pid, t: Token)
    requires Init(s) && es != [] && t in Execute(s, es[..|es| - 1]).files && Accounted(s, es[..|es| - 1], p, t)
    ensures Accounted(s, es, p, t) && t in Execute(s, es).files
  {
    var earlier, e := es[..|es| - 1], es[|es| - 1];
    var u := Execute(s, earlier);
    RunsKeepSound(s, earlier);
    if e.Advance? && Live(u, e.p) { AdvanceFrame(u, e.p, e.ino); }
    if MovedByOther(s, earlier, p, t) {
      MovedStays(s, es, p, t);
    } else if Has(u, p, t) {
      if e.Advance? && e.p == p && Live(u, p) { OwnStepAccounts(s, es, p, t); } else { OtherStepAccounts(s, es, p, t); }
    } else {
      TokensAreNotTaken(u, e, p, t);
      GoneForGood(u, e, t);
    }
  }

  /** A call's lock is where it was made to begin with. */
  lemma MadeOnThePath(s: State, e: Event, p: Pid, t: Token)
    requires Sound(s) && t !in s.files && Has(Apply(s, e), p, t)
    ensures OwnLockSeen(Apply(s, e), Apply(s, e).procs[p]) && InSection(Apply(s, e).procs[p])
  {
    if e.Advance? && Live(s, e.p) {
      AdvanceFrame(s, e.p, e.ino);
      assert SoundProc(s, s.procs[e.p]);
    }
  }

  lemma {:induction false} LocksAreAccounted(s: State, es: seq<Event>, p: Pid, t: Token)
    requires Init(s) && Has(Execute(s, es), p, t)
    ensures Accounted(s, es, p, t)
    decreases |es|
  {
    if es != [] {
      var earlier, e := es[..|es| - 1], es[|es| - 1];
      RunsKeepSound(s, earlier);
      if t in Execute(s, earlier).files {
        if !Has(Execute(s, earlier), p, t) { TokensAreNotTaken(Execute(s, earlier), e, p, t); }
        LocksAreAccounted(s, earlier, p, t);
        StillAccounted(s, es, p, t);
      } else {
        MadeOnThePath(Execute(s, earlier), e, p, t);
      }
    }
  }

  lemma {:induction false} LocksStayAccounted(s: State, es: seq<Event>, i: nat, p: Pid, t: Token)
    requires Init(s) && i <= |es| && Has(Execute(s, es[..i]), p, t)
    ensures Accounted(s, es, p, t) && t in Execute(s, es).files
    decreases |es|
  {
    if i == |es| {
      assert es[..i] == es;
      LocksAreAccounted(s, es, p, t);
    } else {
      var earlier := es[..|es| - 1];
      assert earlier[..i] == es[..i];
      LocksStayAccounted(s, earlier, i, p, t);
      StillAccounted(s, es, p, t);
    }
  }

  /** A lock is made empty, and its age counts from when its token is written; nothing else changes it. */
  lemma AgeCountsFromToken(s: State, e: Event, t: Token)
    requires e.Advance? && Live(s, e.p) && WellFormedProc(s, s.procs[e.p])
    ensures var s' := Apply(s, e);
      && (t in s.files ==> t in s'.files)
      && (t !in s.files && t in s'.files ==> !s'.files[t].written && s'.files[t].stat == Stat(e.ino, s.now))
      && (t in s.files && s.procs[e.p] == Writing(t) ==>
            s'.files[t].written && s'.files[t].stat == Stat(s.files[t].stat.ino, s.now))
      && (t in s.files && s.procs[e.p] != Writing(t) && (s.procs[e.p].Opening? ==> s.procs[e.p].token != t) ==>
            s'.files[t] == s.files[t])
  {
  }

  /** In every run, a call that held a lock and is over leaves it gone, unless another process had moved it aside. */
  lemma ReleaseTakesOwnLock(s: State, es: seq<Event>, i: nat, p: Pid, t: Token)
    requires Init(s) && i <= |es| && p in Execute(s, es[..i]).procs && Execute(s, es[..i]).procs[p] == Holding(t)
    requires p in Execute(s, es).procs && (Execute(s, es).procs[p].Idle? || Execute(s, es).procs[p].token != t)
    ensures Gone(Execute(s, es), t) || MovedByOther(s, es, p, t)
  {
    RunsKeepSound(s, es[..i]);
    assert SoundProc(Execute(s, es[..i]), Execute(s, es[..i]).procs[p]);
    LocksStayAccounted(s, es, i, p, t);
  }

  // And a call gives up only once its time is over

  /** The call that got token `t` began when it was this time. */
  predicate Began(s: State, es: seq<Event>, k: nat, p: Pid, t: Token) {
    k < |es| && es[k].Advance? && es[k].p == p && Live(Execute(s, es[..k]), p)
    && Execute(s, es[..k]).procs[p].Idle? && Execute(s, es[..k]).nextToken == t
  }

  function DeadlineOf(proc: Proc): int
    requires Waiting(proc)
  {
    if IsMover(proc) then proc.why.deadline else proc.deadline
  }

  predicate WaitsUntil(u: State, p: Pid, t: Token, deadline: int) {
    p in u.procs && (Waiting(u.procs[p]) && u.procs[p].token == t ==> DeadlineOf(u.procs[p]) == deadline)
  }

  lemma StepKeepsDeadline(u: State, e: Event, p: Pid, t: Token, deadline: int)
    requires Sound(u) && WaitsUntil(u, p, t, deadline) && t < u.nextToken
    ensures WaitsUntil(Apply(u, e), p, t, deadline) && t < Apply(u, e).nextToken
  {
    if e.Advance? && Live(u, e.p) {
      AdvanceFrame(u, e.p, e.ino);
      if e.p == p { OwnStepKeepsDeadline(u, p, e.ino, t, deadline); }
    }
  }

  lemma OwnStepKeepsDeadline(u: State, p: Pid, ino: int, t: Token, deadline: int)
    requires Live(u, p) && Enabled(u, Advance(p, ino)) && WaitsUntil(u, p, t, deadline) && t < u.nextToken
    ensures WaitsUntil(Apply(u, Advance(p, ino)), p, t, deadline)
  {
  }

  lemma {:induction false} CallsKeepDeadline(s: State, es: seq<Event>, k: nat, p: Pid, t: Token)
    requires Init(s) && Began(s, es, k, p, t)
    ensures WaitsUntil(Execute(s, es), p, t, Execute(s, es[..k]).now + Execute(s, es[..k]).timeoutMs)
    ensures t < Execute(s, es).nextToken
    decreases |es|
  {
    var earlier, e := es[..|es| - 1], es[|es| - 1];
    RunsKeepSound(s, earlier);
    if k < |es| - 1 {
      assert earlier[..k] == es[..k] && earlier[k] == es[k];
      CallsKeepDeadline(s, earlier, k, p, t);
      StepKeepsDeadline(Execute(s, earlier), e, p, t, Execute(s, es[..k]).now + Execute(s, es[..k]).timeoutMs);
    } else {
      assert es[..k] == earlier;
    }
  }

  /** A waiting call ends without a lock only by giving up, and then no sooner than its timeout after it began. */
  lemma GivesUpAfterTimeout(s: State, es: seq<Event>, k: nat, e: Event, p: Pid)
    requires Init(s) && p in Execute(s, es).procs && Waiting(Execute(s, es).procs[p])
    requires Began(s, es, k, p, Execute(s, es).procs[p].token)
    requires p in Apply(Execute(s, es), e).procs && Apply(Execute(s, es), e).procs[p].Idle?
    ensures Execute(s, es).now >= Execute(s, es[..k]).now + Execute(s, es[..k]).timeoutMs
  {
    var u := Execute(s, es);
    CallsKeepDeadline(s, es, k, p, u.procs[p].token);
    RunsKeepSound(s, es);
    if e.Advance? && Live(u, e.p) {
      AdvanceFrame(u, e.p, e.ino);
      if e.p == p { OnlyJudgingGivesUp(u, p, e.ino); }
    }
  }

  lemma OnlyJudgingGivesUp(u: State, p: Pid, ino: int)
    requires Live(u, p) && Enabled(u, Advance(p, ino)) && Waiting(u.procs[p])
    requires Apply(u, Advance(p, ino)).procs[p].Idle?
    ensures u.procs[p].Judging? && u.now >= u.procs[p].deadline
  {
  }
}
