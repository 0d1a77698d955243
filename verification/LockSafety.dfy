/**
 What every run of the lock protocol keeps. `Sound` needs no assumption; `Exclusive` holds along runs that meet
 the two run hypotheses, and contains mutual exclusion.
 */
module LockSafety {
  import opened Wrappers
  import opened LockProtocol

  // ---------------------------------------------------------------------------------------------------------
  // What holds in every reachable state, whatever the processes and the clock do
  // ---------------------------------------------------------------------------------------------------------

  predicate Waiting(proc: Proc) {
    || proc.Opening? || proc.Looking? || proc.Peeking? || proc.Judging? || proc.Checking? || proc.Taking?
    || (IsMover(proc) && proc.why.Takeover?)
  }

  predicate IsMover(proc: Proc) {
    proc.Moved? || proc.Examining? || proc.PuttingBack? || proc.Dropping?
  }

  /** What was judged stale stays stale: time only moves on. */
  predicate JudgedStale(s: State, proc: Proc) {
    && (proc.Checking? || proc.Taking? ==> Stale(s, proc.judged.stat.mtime))
    && (IsMover(proc) && proc.why.Takeover? ==> Stale(s, proc.why.judged.stat.mtime))
  }

  predicate SoundProc(s: State, proc: Proc) {
    && (!proc.Idle? ==> proc.token < s.nextToken)
    && (Waiting(proc) ==> proc.token !in s.files)
    && (InSection(proc) ==> proc.token in s.files && (s.files[proc.token].written <==> !proc.Writing?))
    && (IsMover(proc) ==> proc.file in s.files)
    && (IsMover(proc) && proc.why.Release? ==> proc.token in s.files && s.files[proc.token].written)
    && (proc.Examining? && proc.file in s.files && !s.files[proc.file].written ==> proc.stat == s.files[proc.file].stat)
    && JudgedStale(s, proc)
  }

  ghost predicate Sound(s: State) {
    && (s.path.Some? ==> s.path.value in s.files)
    && (forall f :: f in s.files ==> f < s.nextToken && s.files[f].stat.mtime <= s.now)
    && (forall p :: p in s.procs ==> SoundProc(s, s.procs[p]))
    && (forall p, q :: p in s.procs && q in s.procs && p != q && !s.procs[p].Idle? && !s.procs[q].Idle?
                       ==> s.procs[p].token != s.procs[q].token)
    && AsideOnce(s)
  }

  /** A lock file is on the path, or one mover holds it aside, never both and never two movers. */
  ghost predicate AsideOnce(s: State) {
    && (forall q :: q in s.procs && s.path.Some? ==> !HoldsAside(s.procs[q], s.path.value))
    && (forall q, r, f :: q in s.procs && r in s.procs && HoldsAside(s.procs[q], f) && HoldsAside(s.procs[r], f) ==>
          q == r)
  }

  lemma InitSound(s: State)
    requires Init(s)
    ensures Sound(s)
  {
  }

  /** What one step of `p` may do to the rest: only the file named by its own token is made or written. */
  predicate StepFrame(s: State, p: Pid, s': State)
    requires p in s.procs
  {
    var proc := s.procs[p];
    && p in s'.procs && s'.procs == s.procs[p := s'.procs[p]]
    && s'.now == s.now && s'.staleMs == s.staleMs && s'.crashed == s.crashed && s'.nextToken >= s.nextToken
    && s.files.Keys <= s'.files.Keys
    && (forall f :: f in s'.files ==>
          || (f in s.files && s'.files[f] == s.files[f])
          || (proc.Opening? && f == proc.token && f !in s.files)
          || (proc.Writing? && f == proc.token && s'.files[f].written))
  }

  lemma AdvanceFrame(s: State, p: Pid, ino: int)
    requires Sound(s) && Live(s, p)
    ensures Enabled(s, Advance(p, ino)) && StepFrame(s, p, Apply(s, Advance(p, ino)))
  {
    assert SoundProc(s, s.procs[p]);
    if s.procs[p].Opening? || s.procs[p].Writing? { MakerFrame(s, p, ino); } else { OthersKeepFiles(s, p, ino); }
  }

  lemma MakerFrame(s: State, p: Pid, ino: int)
    requires Enabled(s, Advance(p, ino)) && (s.procs[p].Opening? || s.procs[p].Writing?)
    requires s.procs[p].Opening? ==> s.procs[p].token !in s.files
    ensures StepFrame(s, p, Apply(s, Advance(p, ino)))
  {
  }

  lemma OthersKeepFiles(s: State, p: Pid, ino: int)
    requires Enabled(s, Advance(p, ino)) && !s.procs[p].Opening? && !s.procs[p].Writing?
    ensures StepFrame(s, p, Apply(s, Advance(p, ino))) && Apply(s, Advance(p, ino)).files == s.files
  {
  }

  lemma OtherStaysSound(s: State, p: Pid, q: Pid, s': State)
    requires Sound(s) && p in s.procs && q in s.procs && q != p && StepFrame(s, p, s')
    ensures SoundProc(s', s'.procs[q])
  {
    assert SoundProc(s, s.procs[q]) && SoundProc(s, s.procs[p]);
    assert s'.procs[q] == s.procs[q];
  }

  lemma MoverStaysSound(s: State, p: Pid, ino: int)
    requires Live(s, p) && SoundProc(s, s.procs[p])
    requires s.path.Some? ==> s.path.value in s.files
    requires forall f :: f in s.files ==> f < s.nextToken
    ensures var s' := Apply(s, Advance(p, ino)); p in s'.procs && SoundProc(s', s'.procs[p])
  {
    assert Enabled(s, Advance(p, ino));
    if IsMover(s.procs[p]) { MoverGoesOn(s, p, ino); } else { CallerGoesOn(s, p, ino); }
  }

  lemma MoverGoesOn(s: State, p: Pid, ino: int)
    requires Enabled(s, Advance(p, ino)) && SoundProc(s, s.procs[p]) && IsMover(s.procs[p])
    ensures var s' := Apply(s, Advance(p, ino)); p in s'.procs && SoundProc(s', s'.procs[p])
  {
  }

  lemma CallerGoesOn(s: State, p: Pid, ino: int)
    requires Enabled(s, Advance(p, ino)) && SoundProc(s, s.procs[p]) && !IsMover(s.procs[p])
    requires forall f :: f in s.files ==> f < s.nextToken
    ensures var s' := Apply(s, Advance(p, ino)); p in s'.procs && SoundProc(s', s'.procs[p])
  {
  }

  lemma AdvanceKeepsProcs(s: State, p: Pid, ino: int)
    requires Sound(s) && Live(s, p)
    ensures var s' := Apply(s, Advance(p, ino)); forall q :: q in s'.procs ==> SoundProc(s', s'.procs[q])
  {
    var s' := Apply(s, Advance(p, ino));
    AdvanceFrame(s, p, ino);
    MoverStaysSound(s, p, ino);
    forall q | q in s'.procs && q != p ensures SoundProc(s', s'.procs[q]) {
      OtherStaysSound(s, p, q, s');
    }
  }

  lemma AdvanceKeepsFiles(s: State, p: Pid, ino: int)
    requires Sound(s) && Live(s, p)
    ensures var s' := Apply(s, Advance(p, ino));
      && (s'.path.Some? ==> s'.path.value in s'.files)
      && (forall f :: f in s'.files ==> f < s'.nextToken && s'.files[f].stat.mtime <= s'.now)
  {
    assert SoundProc(s, s.procs[p]);
  }

  lemma AdvanceKeepsTokens(s: State, p: Pid, ino: int)
    requires Sound(s) && Live(s, p)
    ensures var s' := Apply(s, Advance(p, ino));
      forall q, r :: q in s'.procs && r in s'.procs && q != r && !s'.procs[q].Idle? && !s'.procs[r].Idle?
                     ==> s'.procs[q].token != s'.procs[r].token
  {
    var s' := Apply(s, Advance(p, ino));
    AdvanceFrame(s, p, ino);
    if !s'.procs[p].Idle? { MoverKeepsToken(s, p, ino); }
    forall q | q in s.procs && q != p && !s.procs[q].Idle? && !s'.procs[p].Idle?
      ensures s'.procs[q].token != s'.procs[p].token
    {
      assert SoundProc(s, s.procs[q]);
    }
  }

  /** A process keeps the token of its call, and a new call has a token never given before. */
  lemma MoverKeepsToken(s: State, p: Pid, ino: int)
    requires Live(s, p) && Enabled(s, Advance(p, ino)) && !Apply(s, Advance(p, ino)).procs[p].Idle?
    ensures var token := Apply(s, Advance(p, ino)).procs[p].token;
      if s.procs[p].Idle? then token == s.nextToken else token == s.procs[p].token
  {
  }

  /** A file comes aside only from the path, and comes onto the path only when made or from its mover's hands. */
  lemma WhereFilesMove(s: State, p: Pid, ino: int)
    requires Sound(s) && Live(s, p)
    ensures var s' := Apply(s, Advance(p, ino));
      && p in s'.procs
      && (forall f: Token :: HoldsAside(s'.procs[p], f) ==>
            HoldsAside(s.procs[p], f) || (s.path == Some(f) && s'.path == None))
      && (forall f: Token :: s'.path == Some(f) && s.path != Some(f) ==>
            f !in s.files || (HoldsAside(s.procs[p], f) && !HoldsAside(s'.procs[p], f)))
      && (forall f: Token :: s'.path == Some(f) && s.path == Some(f) && HoldsAside(s'.procs[p], f) ==>
            HoldsAside(s.procs[p], f))
  {
    assert SoundProc(s, s.procs[p]);
  }

  lemma AdvanceKeepsAsideOnce(s: State, p: Pid, ino: int)
    requires Sound(s) && Live(s, p)
    ensures AsideOnce(Apply(s, Advance(p, ino)))
  {
    var s' := Apply(s, Advance(p, ino));
    AdvanceFrame(s, p, ino);
    WhereFilesMove(s, p, ino);
    forall q | q in s.procs ensures SoundProc(s, s.procs[q]) {}
  }

  lemma StepKeepsSound(s: State, e: Event)
    requires Sound(s)
    ensures Sound(Apply(s, e))
  {
    if e.Advance? && Live(s, e.p) {
      AdvanceKeepsProcs(s, e.p, e.ino);
      AdvanceKeepsFiles(s, e.p, e.ino);
      AdvanceKeepsTokens(s, e.p, e.ino);
      AdvanceKeepsAsideOnce(s, e.p, e.ino);
    } else {
      var s' := Apply(s, e);
      forall q | q in s'.procs ensures SoundProc(s', s'.procs[q]) {
        assert SoundProc(s, s.procs[q]);
      }
    }
  }

  lemma {:induction false} RunsKeepSound(s: State, es: seq<Event>)
    requires Init(s)
    ensures Sound(Execute(s, es))
    decreases |es|
  {
    if es == [] {
      InitSound(s);
    } else {
      RunsKeepSound(s, es[..|es| - 1]);
      StepKeepsSound(Execute(s, es[..|es| - 1]), es[|es| - 1]);
    }
  }

  // ---------------------------------------------------------------------------------------------------------
  // What happens to a lock that was moved aside, with no assumption
  // ---------------------------------------------------------------------------------------------------------

  /** The step decides that the moved file `f` is the lock meant, and so removes it. */
  predicate Removes(s: State, e: Event, f: Token) {
    && e.Advance? && Enabled(s, e) && s.procs[e.p].Examining? && s.procs[e.p].file == f && f in s.files
    && Meant(s.procs[e.p].why, s.procs[e.p].token, Seen(s.procs[e.p].stat, Content(s, f)))
  }

  /** No lock any process can meet: neither on the path nor waiting to be put back. */
  ghost predicate Gone(s: State, f: Token) {
    && f in s.files && s.path != Some(f)
    && forall q :: q in s.procs ==> !HoldsAside(s.procs[q], f)
  }

  lemma GoneForGood(s: State, e: Event, f: Token)
    requires Sound(s) && Gone(s, f)
    ensures Gone(Apply(s, e), f)
  {
    if e.Advance? && Live(s, e.p) {
      AdvanceFrame(s, e.p, e.ino);
      WhereFilesMove(s, e.p, e.ino);
    }
  }

  lemma {:induction false} GoneInEveryLaterState(s: State, es: seq<Event>, i: nat, f: Token)
    requires Init(s) && i <= |es| && Gone(Execute(s, es[..i]), f)
    ensures Gone(Execute(s, es), f)
    decreases |es|
  {
    if i == |es| {
      assert es[..i] == es;
    } else {
      var before := es[..|es| - 1];
      assert before[..i] == es[..i];
      GoneInEveryLaterState(s, before, i, f);
      RunsKeepSound(s, before);
      GoneForGood(Execute(s, before), es[|es| - 1], f);
    }
  }

  /**
   A removed lock is its remover's own, or showed its remover the stat and content it had judged stale: one whose token
   is written is then the very lock judged, and another is itself past the limit.
   */
  lemma RemovalIsMeant(s: State, e: Event, f: Token)
    requires Sound(s) && Removes(s, e, f)
    ensures Gone(Apply(s, e), f)
    ensures s.procs[e.p].why.Release? ==> f == s.procs[e.p].token
    ensures s.procs[e.p].why.Takeover? ==>
              && Stale(s, s.procs[e.p].stat.mtime)
              && s.procs[e.p].why.judged == Seen(s.procs[e.p].stat, Content(s, f))
              && if s.files[f].written then s.procs[e.p].why.judged.token == Some(f)
                 else Stale(s, s.files[f].stat.mtime)
  {
    assert SoundProc(s, s.procs[e.p]);
    AdvanceFrame(s, e.p, e.ino);
    WhereFilesMove(s, e.p, e.ino);
  }

  /** Of all the takers and holders in a run, at most one removes a given lock, and it does so once. */
  lemma RemovedAtMostOnce(s: State, es: seq<Event>, i: nat, j: nat, f: Token)
    requires Init(s) && i < |es| && j < |es|
    requires Removes(Execute(s, es[..i]), es[i], f) && Removes(Execute(s, es[..j]), es[j], f)
    ensures i == j
  {
    if i != j {
      var a, b := if i < j then i else j, if i < j then j else i;
      RunsKeepSound(s, es[..a]);
      RemovalIsMeant(Execute(s, es[..a]), es[a], f);
      assert es[..a + 1][..a] == es[..a] && es[..b][..a + 1] == es[..a + 1];
      GoneInEveryLaterState(s, es[..b], a + 1, f);
    }
  }

  predicate LinkFails(s: State, e: Event, f: Token) {
    && e.Advance? && Enabled(s, e) && s.procs[e.p].PuttingBack? && s.procs[e.p].file == f
    && s.path.Some? && s.path.value != f
  }

  lemma WhereFilesLeave(s: State, p: Pid, ino: int, f: Token)
    requires Sound(s) && Live(s, p)
    ensures var s' := Apply(s, Advance(p, ino));
      && p in s'.procs
      && (s.path == Some(f) ==> s'.path == Some(f) || HoldsAside(s'.procs[p], f))
      && (HoldsAside(s.procs[p], f) ==>
            || HoldsAside(s'.procs[p], f) || s'.path == Some(f)
            || Removes(s, Advance(p, ino), f) || LinkFails(s, Advance(p, ino), f))
  {
    assert SoundProc(s, s.procs[p]);
    assert HoldsAside(s.procs[p], f) && s.path.Some? ==> s.path.value != f;
  }

  /** A lock disappears only by being removed as the one meant, or when putting it back finds another lock there. */
  lemma HowLocksVanish(s: State, e: Event, f: Token)
    requires Sound(s) && f in s.files && !Gone(s, f)
    ensures Gone(Apply(s, e), f) ==> Removes(s, e, f) || LinkFails(s, e, f)
  {
    if e.Advance? && Live(s, e.p) {
      AdvanceFrame(s, e.p, e.ino);
      WhereFilesLeave(s, e.p, e.ino, f);
      if s.path != Some(f) {
        var q :| q in s.procs && HoldsAside(s.procs[q], f);
        assert q != e.p ==> HoldsAside(Apply(s, e).procs[q], f);
      }
    }
  }

  // ---------------------------------------------------------------------------------------------------------
  // Mutual exclusion, along runs that meet both run hypotheses
  // ---------------------------------------------------------------------------------------------------------

  /** The lock of a live holder is on the path, or held aside by a mover that will find it is not the one it meant. */
  ghost predicate HolderSafe(s: State, p: Pid)
    requires LiveInSection(s, p)
  {
    var token := s.procs[p].token;
    && (s.path == Some(token) || exists q :: q in s.procs && HoldsAside(s.procs[q], token))
    && (forall q :: q in s.procs && HoldsAside(s.procs[q], token) ==> Mistaken(s, s.procs[q]))
  }

  ghost predicate Exclusive(s: State) {
    && MutualExclusion(s)
    && (forall p :: LiveInSection(s, p) ==> HolderSafe(s, p))
    && (forall q :: WindowOpen(s, q) ==> s.path.None?)
    && (forall q, r :: WindowOpen(s, q) && WindowOpen(s, r) ==> q == r)
  }

  /** Whether a mover is mistaken about a file does not change while other processes move. */
  lemma MistakenStable(s: State, p: Pid, ino: int, q: Pid)
    requires Sound(s) && HoldersFresh(s) && Live(s, p) && q in s.procs && q != p
    requires LiveInSection(s, p) ==> HolderSafe(s, p)
    ensures var s' := Apply(s, Advance(p, ino));
      q in s'.procs && (Mistaken(s', s'.procs[q]) <==> Mistaken(s, s.procs[q]))
  {
    var s' := Apply(s, Advance(p, ino));
    AdvanceFrame(s, p, ino);
    assert SoundProc(s, s.procs[p]) && SoundProc(s, s.procs[q]);
    var proc := s.procs[q];
    assert s'.procs[q] == proc;
    if (proc.Moved? || proc.Examining?) && s'.files[proc.file] != s.files[proc.file] {
      assert s.procs[p] == Writing(proc.file);
      assert HoldsAside(proc, proc.file);
    }
  }

  lemma OtherHoldersStaySafe(s: State, p: Pid, ino: int, r: Pid)
    requires Sound(s) && Exclusive(s) && HoldersFresh(s) && Live(s, p)
    requires CreatesOutsideWindows(s, Advance(p, ino))
    requires r != p && LiveInSection(s, r)
    ensures var s' := Apply(s, Advance(p, ino)); LiveInSection(s', r) && HolderSafe(s', r)
  {
    var s' := Apply(s, Advance(p, ino));
    AdvanceFrame(s, p, ino);
    WhereFilesMove(s, p, ino);
    var token := s.procs[r].token;
    WhereFilesLeave(s, p, ino, token);
    assert s'.procs[r] == s.procs[r];
    assert SoundProc(s, s.procs[p]) && SoundProc(s, s.procs[r]);
    if s.path != Some(token) {
      var q :| q in s.procs && HoldsAside(s.procs[q], token);
      assert WindowOpen(s, q);
      assert q != p ==> HoldsAside(s'.procs[q], token);
      assert q == p ==> s'.path == Some(token) || HoldsAside(s'.procs[p], token);
    }
    forall q | q in s'.procs && HoldsAside(s'.procs[q], token) ensures Mistaken(s', s'.procs[q]) {
      if q != p {
        MistakenStable(s, p, ino, q);
      } else {
        MoverOfHeldIsMistaken(s, p, ino, token);
      }
    }
  }

  /** A mover that holds a live holder's lock aside after its step is mistaken about it. */
  lemma MoverOfHeldIsMistaken(s: State, p: Pid, ino: int, held: Token)
    requires Live(s, p) && SoundProc(s, s.procs[p]) && WellFormedProc(s, s.procs[p])
    requires held in s.files && !Stale(s, s.files[held].stat.mtime)
    requires !s.procs[p].Idle? ==> s.procs[p].token != held
    requires HoldsAside(s.procs[p], held) ==> Mistaken(s, s.procs[p])
    ensures var s' := Step(s, p, ino);
      p in s'.procs && (HoldsAside(s'.procs[p], held) ==> Mistaken(s', s'.procs[p]))
  {
  }

  /** A process that creates its lock does so when no live process holds one. */
  lemma CreatorIsAlone(s: State, p: Pid, ino: int, r: Pid)
    requires Sound(s) && Exclusive(s) && Creates(s, Advance(p, ino)) && CreatesOutsideWindows(s, Advance(p, ino))
    ensures !LiveInSection(s, r)
  {
    if LiveInSection(s, r) {
      var q :| q in s.procs && HoldsAside(s.procs[q], s.procs[r].token);
      assert WindowOpen(s, q);
    }
  }

  /** A process enters its section only by creating its lock, and keeps that lock's token until it leaves. */
  lemma EntersByCreating(s: State, p: Pid, ino: int)
    requires Sound(s) && Live(s, p)
    ensures var s' := Apply(s, Advance(p, ino));
      && (LiveInSection(s', p) && !LiveInSection(s, p) ==>
            Creates(s, Advance(p, ino)) && s'.path == Some(s'.procs[p].token) && s'.procs[p].token !in s.files)
      && (LiveInSection(s', p) && LiveInSection(s, p) ==> s'.procs[p].token == s.procs[p].token && s'.path == s.path)
  {
    assert SoundProc(s, s.procs[p]);
  }

  lemma NewLockIsSafe(s: State, p: Pid, ino: int)
    requires Sound(s) && Live(s, p) && !LiveInSection(s, p) && LiveInSection(Apply(s, Advance(p, ino)), p)
    ensures HolderSafe(Apply(s, Advance(p, ino)), p)
  {
    var s' := Apply(s, Advance(p, ino));
    AdvanceFrame(s, p, ino);
    EntersByCreating(s, p, ino);
    forall q | q in s'.procs ensures !HoldsAside(s'.procs[q], s'.procs[p].token) {
      assert q != p ==> s'.procs[q] == s.procs[q] && SoundProc(s, s.procs[q]);
    }
  }

  lemma OwnLockStaysSafe(s: State, p: Pid, ino: int)
    requires Sound(s) && Exclusive(s) && HoldersFresh(s) && LiveInSection(s, p)
    requires LiveInSection(Apply(s, Advance(p, ino)), p)
    ensures HolderSafe(Apply(s, Advance(p, ino)), p)
  {
    var s' := Apply(s, Advance(p, ino));
    AdvanceFrame(s, p, ino);
    EntersByCreating(s, p, ino);
    var token := s'.procs[p].token;
    forall q | q in s'.procs && HoldsAside(s'.procs[q], token) ensures Mistaken(s', s'.procs[q]) {
      MistakenStable(s, p, ino, q);
    }
    if s.path != Some(token) {
      var q :| q in s.procs && HoldsAside(s.procs[q], token);
      assert HoldsAside(s'.procs[q], token);
    }
  }

  /** A window of another process that is open after the step was open before it. */
  lemma WindowsOnlyClose(s: State, p: Pid, ino: int, q: Pid)
    requires Sound(s) && Exclusive(s) && HoldersFresh(s) && Live(s, p) && q != p
    ensures WindowOpen(Apply(s, Advance(p, ino)), q) ==> WindowOpen(s, q)
  {
    var s' := Apply(s, Advance(p, ino));
    AdvanceFrame(s, p, ino);
    if WindowOpen(s', q) {
      MistakenStable(s, p, ino, q);
      var f := s.procs[q].file;
      assert SoundProc(s, s.procs[q]) && SoundProc(s, s.procs[p]);
      if q in s.crashed {
        var r :| LiveInSection(s', r) && s'.procs[r].token == f;
        assert LiveInSection(s, r) && s.procs[r].token == f;
      }
    }
  }

  /**
   The path stays empty while a window is open: the only steps that fill it are a creation and the window's own `link`.
   */
  lemma WindowsKeepPathEmpty(s: State, p: Pid, ino: int, q: Pid)
    requires Sound(s) && Exclusive(s) && HoldersFresh(s) && Live(s, p)
    requires CreatesOutsideWindows(s, Advance(p, ino))
    ensures WindowOpen(Apply(s, Advance(p, ino)), q) ==> Apply(s, Advance(p, ino)).path.None?
  {
    var s' := Apply(s, Advance(p, ino));
    AdvanceFrame(s, p, ino);
    assert SoundProc(s, s.procs[p]);
    if WindowOpen(s', q) && q != p {
      WindowsOnlyClose(s, p, ino, q);
      assert s.procs[p].PuttingBack? ==> WindowOpen(s, p);
    } else if WindowOpen(s', q) {
      OwnWindow(s, p, ino);
    }
  }

  /** A window of the moving process opens with its rename, which empties the path, or was open already. */
  lemma OwnWindow(s: State, p: Pid, ino: int)
    requires Sound(s) && Exclusive(s) && Live(s, p) && WindowOpen(Apply(s, Advance(p, ino)), p)
    ensures Apply(s, Advance(p, ino)).path.None?
    ensures WindowOpen(s, p) || s.path.Some?
  {
    assert SoundProc(s, s.procs[p]);
    AdvanceFrame(s, p, ino);
    match s.procs[p]
    case Examining(_, _, f, _) => assert WindowOpen(s, p);
    case Moved(_, _, f) => assert WindowOpen(s, p);
    case _ =>
  }

  lemma OneWindow(s: State, p: Pid, ino: int, q: Pid, r: Pid)
    requires Sound(s) && Exclusive(s) && HoldersFresh(s) && Live(s, p)
    requires var s' := Apply(s, Advance(p, ino)); WindowOpen(s', q) && WindowOpen(s', r)
    ensures q == r
  {
    if q != p { WindowsOnlyClose(s, p, ino, q); } else { OwnWindow(s, p, ino); }
    if r != p { WindowsOnlyClose(s, p, ino, r); } else { OwnWindow(s, p, ino); }
  }

  lemma AdvanceKeepsExclusive(s: State, p: Pid, ino: int)
    requires Sound(s) && Exclusive(s) && HoldersFresh(s) && Live(s, p)
    requires CreatesOutsideWindows(s, Advance(p, ino))
    ensures Exclusive(Apply(s, Advance(p, ino)))
  {
    var s' := Apply(s, Advance(p, ino));
    AdvanceFrame(s, p, ino);
    assert SoundProc(s, s.procs[p]);
    EntersByCreating(s, p, ino);
    forall r ensures LiveInSection(s', r) ==> LiveInSection(s, r) || (r == p && Creates(s, Advance(p, ino))) {}
    forall r | LiveInSection(s', r) ensures HolderSafe(s', r) {
      if r != p {
        OtherHoldersStaySafe(s, p, ino, r);
      } else if LiveInSection(s, p) {
        OwnLockStaysSafe(s, p, ino);
      } else {
        NewLockIsSafe(s, p, ino);
      }
    }
    forall q | WindowOpen(s', q) ensures s'.path.None? { WindowsKeepPathEmpty(s, p, ino, q); }
    forall q, r | WindowOpen(s', q) && WindowOpen(s', r) ensures q == r { OneWindow(s, p, ino, q, r); }
    forall q, r | LiveInSection(s', q) && LiveInSection(s', r) ensures q == r {
      if Creates(s, Advance(p, ino)) {
        if q != p { CreatorIsAlone(s, p, ino, q); }
        if r != p { CreatorIsAlone(s, p, ino, r); }
      }
    }
  }

  lemma EnvironmentKeepsExclusive(s: State, e: Event)
    requires Sound(s) && Exclusive(s) && !e.Advance?
    ensures Exclusive(Apply(s, e))
  {
    var s' := Apply(s, e);
    assert s'.procs == s.procs && s'.files == s.files && s'.path == s.path;
    forall q ensures WindowOpen(s', q) ==> WindowOpen(s, q) {
      if WindowOpen(s', q) && q in s.crashed {
        var r :| LiveInSection(s', r) && s'.procs[r].token == s.procs[q].file;
        assert LiveInSection(s, r);
      }
    }
    forall p ensures LiveInSection(s', p) ==> LiveInSection(s, p) && HolderSafe(s', p) {
      if LiveInSection(s', p) {
        assert LiveInSection(s, p);
      }
    }
    forall p, q | LiveInSection(s', p) && LiveInSection(s', q) ensures p == q {
      assert LiveInSection(s, p) && LiveInSection(s, q);
    }
  }

  lemma {:induction false} RunsStayExclusive(s: State, es: seq<Event>)
    requires Init(s) && FreshRun(s, es) && OrderlyRun(s, es)
    ensures Exclusive(Execute(s, es))
    decreases |es|
  {
    if es != [] {
      var before, e := es[..|es| - 1], es[|es| - 1];
      RunsStayExclusive(s, before);
      RunsKeepSound(s, before);
      var t := Execute(s, before);
      assert HoldersFresh(t);
      if e.Advance? && Live(t, e.p) {
        AdvanceKeepsExclusive(t, e.p, e.ino);
      } else if !e.Advance? {
        EnvironmentKeepsExclusive(t, e);
      }
    }
  }

  /**
   At most one live process is between `lock()` returning and its release, in every state of a run that meets both
   hypotheses.
   */
  lemma LockExcludes(s: State, es: seq<Event>)
    requires Init(s) && FreshRun(s, es) && OrderlyRun(s, es)
    ensures MutualExclusion(Execute(s, es))
  {
    RunsStayExclusive(s, es);
  }

  /** With no hypothesis at all: the one step that breaks exclusion is making a lock while a live process has one. */
  lemma OnlyCreationBreaksExclusion(s: State, e: Event)
    requires Sound(s) && MutualExclusion(s)
    ensures MutualExclusion(Apply(s, e)) <==> !(Creates(s, e) && Live(s, e.p) && exists r :: LiveInSection(s, r))
  {
    var s' := Apply(s, e);
    if e.Advance? && Live(s, e.p) {
      AdvanceFrame(s, e.p, e.ino);
      EntersByCreating(s, e.p, e.ino);
      assert forall r :: r != e.p ==> (LiveInSection(s', r) <==> LiveInSection(s, r));
      assert Creates(s, e) ==> LiveInSection(s', e.p) && !LiveInSection(s, e.p);
    } else {
      forall p, q | LiveInSection(s', p) && LiveInSection(s', q) ensures p == q {
        assert LiveInSection(s, p) && LiveInSection(s, q);
      }
    }
  }
}
