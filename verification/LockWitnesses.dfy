/**
 Runs of the lock protocol: a stale lock is taken over by a process running alone, and neither run hypothesis of
 mutual exclusion can be dropped.
 */
module LockWitnesses {
  import opened Wrappers
  import opened LockProtocol

  /** Which of the two run hypotheses a run is to meet. */
  datatype Discipline = Discipline(young: bool, orderly: bool)

  ghost predicate IsRun(s0: State, es: seq<Event>, d: Discipline, s: State) {
    && Execute(s0, es) == s
    && (d.young ==> FreshRun(s0, es))
    && (d.orderly ==> OrderlyRun(s0, es))
  }

  ghost predicate Reaches(s0: State, d: Discipline, s: State) {
    exists es :: IsRun(s0, es, d, s)
  }

  ghost predicate Allowed(d: Discipline, s: State, e: Event) {
    && (d.young ==> HoldersFresh(Apply(s, e)))
    && (d.orderly ==> CreatesOutsideWindows(s, e))
  }

  lemma Go(s0: State, d: Discipline, s: State, e: Event, s': State)
    requires Reaches(s0, d, s) && Allowed(d, s, e) && s' == Apply(s, e)
    ensures Reaches(s0, d, s')
  {
    var es :| IsRun(s0, es, d, s);
    assert (es + [e])[..|es + [e]| - 1] == es;
    assert IsRun(s0, es + [e], d, s');
  }

  /** One step of `p` that creates nothing and leaves it outside its section. */
  lemma Quietly(s0: State, d: Discipline, s: State, p: Pid, s': State)
    requires Reaches(s0, d, s) && (d.young ==> HoldersFresh(s))
    requires Live(s, p) && !Creates(s, Advance(p, 0)) && !InSection(s.procs[p])
    requires s' == Apply(s, Advance(p, 0)) && Live(s', p) && !InSection(s'.procs[p])
    requires s'.files == s.files && s'.now == s.now && s'.staleMs == s.staleMs && s'.crashed == s.crashed
    requires s'.procs == s.procs[p := s'.procs[p]]
    ensures Reaches(s0, d, s') && (d.young ==> HoldersFresh(s'))
  {
    assert forall q :: LiveInSection(s', q) ==> LiveInSection(s, q) && s'.procs[q] == s.procs[q];
    Go(s0, d, s, Advance(p, 0), s');
  }

  lemma SetTwice(s: State, p: Pid, a: Proc, b: Proc)
    ensures SetProc(SetProc(s, p, a), p, b) == SetProc(s, p, b)
  {
  }

  ghost predicate Ready(s: State, p: Pid, f: Token) {
    Live(s, p) && s.path == Some(f) && f in s.files && s.now - s.files[f].stat.mtime > s.staleMs
  }

  /** Running alone, a process that finds a lock sees it as it is. */
  lemma SeesLock(s0: State, d: Discipline, s: State, p: Pid, f: Token) returns (s': State)
    requires Reaches(s0, d, s) && (d.young ==> HoldersFresh(s))
    requires Ready(s, p, f) && s.procs[p].Opening?
    ensures Reaches(s0, d, s') && (d.young ==> HoldersFresh(s'))
    ensures var seen := Seen(s.files[f].stat, Content(s, f));
      s' == SetProc(s, p, Judging(s.procs[p].token, s.procs[p].deadline, Some(seen)))
  {
    var token, deadline := s.procs[p].token, s.procs[p].deadline;
    var s1 := SetProc(s, p, Looking(token, deadline));
    Quietly(s0, d, s, p, s1);
    var s2 := SetProc(s, p, Peeking(token, deadline, s.files[f].stat));
    SetTwice(s, p, s1.procs[p], s2.procs[p]);
    Quietly(s0, d, s1, p, s2);
    s' := SetProc(s, p, Judging(token, deadline, Some(Seen(s.files[f].stat, Content(s, f)))));
    SetTwice(s, p, s2.procs[p], s'.procs[p]);
    Quietly(s0, d, s2, p, s');
  }

  /** And if that lock is stale, it gets as far as moving it aside. */
  lemma JudgesStale(s0: State, d: Discipline, s: State, p: Pid, f: Token) returns (s': State)
    requires Reaches(s0, d, s) && (d.young ==> HoldersFresh(s))
    requires Ready(s, p, f) && s.procs[p].Opening?
    ensures Reaches(s0, d, s') && (d.young ==> HoldersFresh(s'))
    ensures s' == SetProc(s, p, Taking(s.procs[p].token, s.procs[p].deadline, Seen(s.files[f].stat, Content(s, f))))
  {
    var token, deadline, judged := s.procs[p].token, s.procs[p].deadline, Seen(s.files[f].stat, Content(s, f));
    var s1 := SeesLock(s0, d, s, p, f);
    var s2 := SetProc(s, p, Checking(token, deadline, judged));
    SetTwice(s, p, s1.procs[p], s2.procs[p]);
    Quietly(s0, d, s1, p, s2);
    s' := SetProc(s, p, Taking(token, deadline, judged));
    SetTwice(s, p, s2.procs[p], s'.procs[p]);
    Quietly(s0, d, s2, p, s');
  }

  /** Still alone, it removes the lock it judged and is about to make its own. */
  lemma TakesStale(s0: State, d: Discipline, s: State, p: Pid, f: Token) returns (s': State)
    requires Reaches(s0, d, s) && (d.young ==> HoldersFresh(s))
    requires Ready(s, p, f) && s.procs[p].Taking? && s.procs[p].judged == Seen(s.files[f].stat, Content(s, f))
    ensures Reaches(s0, d, s') && (d.young ==> HoldersFresh(s'))
    ensures s' == SetProc(s.(path := None), p, Opening(s.procs[p].token, s.procs[p].deadline))
  {
    var token, deadline, judged := s.procs[p].token, s.procs[p].deadline, s.procs[p].judged;
    var why, empty := Takeover(judged, deadline), s.(path := None);
    var s1 := SetProc(empty, p, Moved(token, why, f));
    Quietly(s0, d, s, p, s1);
    var s2 := SetProc(empty, p, Examining(token, why, f, judged.stat));
    SetTwice(empty, p, s1.procs[p], s2.procs[p]);
    Quietly(s0, d, s1, p, s2);
    var s3 := SetProc(empty, p, Dropping(token, why, f));
    SetTwice(empty, p, s2.procs[p], s3.procs[p]);
    Quietly(s0, d, s2, p, s3);
    s' := SetProc(empty, p, Opening(token, deadline));
    SetTwice(empty, p, s3.procs[p], s'.procs[p]);
    Quietly(s0, d, s3, p, s');
  }

  /** A stale lock never blocks for good: a process that runs alone from `open` takes it over and makes its own. */
  lemma StaleLockIsTakenOver(s: State, p: Pid, f: Token) returns (s': State)
    requires Ready(s, p, f) && s.procs[p].Opening?
    ensures Reaches(s, Discipline(false, false), s')
    ensures p in s'.procs && s'.procs[p] == Writing(s.procs[p].token) && s'.path == Some(s.procs[p].token)
    ensures forall q :: q in s.procs && q != p ==> q in s'.procs && s'.procs[q] == s.procs[q]
  {
    var d := Discipline(false, false);
    assert IsRun(s, [], d, s);
    var s1 := JudgesStale(s, d, s, p, f);
    var s2 := TakesStale(s, d, s1, p, f);
    s' := Apply(s2, Advance(p, 0));
    Go(s, d, s2, Advance(p, 0), s');
  }

  /** Four idle processes; a lock is stale after one millisecond. */
  function Start(): State {
    State(0, 10, 0, None, map[], map[0 := Idle, 1 := Idle, 2 := Idle, 3 := Idle], {}, 0)
  }

  lemma LockMade(d: Discipline) returns (s: State)
    ensures Init(Start()) && Reaches(Start(), d, s)
    ensures s == State(0, 10, 0, Some(0), map[0 := LockFile(Stat(0, 0), false)],
                       map[0 := Writing(0), 1 := Idle, 2 := Idle, 3 := Idle], {}, 1)
  {
    var s0 := Start();
    assert IsRun(s0, [], d, s0);
    var s1 := Apply(s0, Advance(0, 0));
    Go(s0, d, s0, Advance(0, 0), s1);
    s := Apply(s1, Advance(0, 0));
    assert s.procs == map[0 := Writing(0), 1 := Idle, 2 := Idle, 3 := Idle];
    Go(s0, d, s1, Advance(0, 0), s);
  }

  lemma LockAged(d: Discipline, dead: bool) returns (s: State)
    requires d.young ==> dead
    ensures Reaches(Start(), d, s)
    ensures s == State(0, 10, 1, Some(0), map[0 := LockFile(Stat(0, 0), false)],
                       map[0 := Writing(0), 1 := Idle, 2 := Idle, 3 := Idle], if dead then {0} else {}, 1)
  {
    var s0 := Start();
    var s2 := LockMade(d);
    var s3 := if dead then Apply(s2, Crash(0)) else s2;
    if dead { Go(s0, d, s2, Crash(0), s3); }
    s := Apply(s3, Tick(1));
    Go(s0, d, s3, Tick(1), s);
  }

  /** Process 0 makes a lock, and a millisecond later process 1 has asked for it; in the second case 0 has died. */
  lemma StaleLockAwaited(d: Discipline, dead: bool) returns (s: State)
    requires d.young ==> dead
    ensures Init(Start()) && Reaches(Start(), d, s) && (d.young ==> HoldersFresh(s))
    ensures s == State(0, 10, 1, Some(0), map[0 := LockFile(Stat(0, 0), false)],
                       map[0 := Writing(0), 1 := Opening(1, 11), 2 := Idle, 3 := Idle], if dead then {0} else {}, 2)
  {
    var s0 := Start();
    var s4 := LockAged(d, dead);
    s := Apply(s4, Advance(1, 0));
    assert s.procs == map[0 := Writing(0), 1 := Opening(1, 11), 2 := Idle, 3 := Idle];
    Go(s0, d, s4, Advance(1, 0), s);
  }

  /** A live holder that keeps its lock past the stale age loses it: another makes a lock while it is still live. */
  lemma FreshHoldersNeeded()
    ensures exists s, es :: Init(s) && OrderlyRun(s, es) && !MutualExclusion(Execute(s, es))
  {
    var d := Discipline(false, true);
    var s1 := StaleLockAwaited(d, false);
    var s2 := JudgesStale(Start(), d, s1, 1, 0);
    var s3 := TakesStale(Start(), d, s2, 1, 0);
    var s4 := Apply(s3, Advance(1, 0));
    Go(Start(), d, s3, Advance(1, 0), s4);
    assert LiveInSection(s4, 0) && LiveInSection(s4, 1);
    var es :| IsRun(Start(), es, d, s4);
    assert OrderlyRun(Start(), es) && !MutualExclusion(Execute(Start(), es));
  }

  /** Processes 1 and 2 judge the same dead lock. */
  lemma BothJudgeStale(d: Discipline) returns (s: State)
    requires d == Discipline(true, false)
    ensures Reaches(Start(), d, s) && HoldersFresh(s) && Ready(s, 2, 0)
    ensures s.procs.Keys == {0, 1, 2, 3} && s.procs[1].Taking? && s.procs[2].Taking? && s.procs[3].Idle?
    ensures s.procs[2].judged == Seen(s.files[0].stat, Content(s, 0)) && s.procs[1].judged == s.procs[2].judged
    ensures s.procs[0].Writing? && s.crashed == {0}
            && s.nextToken == 3 && s.procs[2].token == 2 && s.procs[1].token == 1
  {
    var s0 := Start();
    var s1 := StaleLockAwaited(d, true);
    var s2 := JudgesStale(s0, d, s1, 1, 0);
    var s3 := Apply(s2, Advance(2, 0));
    Go(s0, d, s2, Advance(2, 0), s3);
    s := JudgesStale(s0, d, s3, 2, 0);
  }

  /** Processes 1 and 2 judge the same dead lock; 2 takes it over, and 1 then moves 2's young lock aside. */
  lemma YoungLockMovedAside(d: Discipline) returns (s: State)
    requires d == Discipline(true, false)
    ensures Reaches(Start(), d, s) && HoldersFresh(s) && s.path.None? && s.nextToken == 3
    ensures LiveInSection(s, 2) && Live(s, 3) && s.procs[3].Idle?
  {
    var s0 := Start();
    var s4 := BothJudgeStale(d);
    var s5 := TakesStale(s0, d, s4, 2, 0);
    var s6 := Apply(s5, Advance(2, 0));
    Go(s0, d, s5, Advance(2, 0), s6);
    s := Apply(s6, Advance(1, 0));
    Go(s0, d, s6, Advance(1, 0), s);
  }

  /** A lock made while a young one is waiting to be put back is a second lock. */
  lemma OrderlyCreationsNeeded()
    ensures exists s, es :: Init(s) && FreshRun(s, es) && !MutualExclusion(Execute(s, es))
  {
    var s0, d := Start(), Discipline(true, false);
    var s1 := YoungLockMovedAside(d);
    var s2 := Apply(s1, Advance(3, 0));
    Go(s0, d, s1, Advance(3, 0), s2);
    var s3 := Apply(s2, Advance(3, 0));
    Go(s0, d, s2, Advance(3, 0), s3);
    assert LiveInSection(s3, 2) && LiveInSection(s3, 3);
    var es :| IsRun(s0, es, d, s3);
    assert FreshRun(s0, es) && !MutualExclusion(Execute(s0, es));
  }
}
