/**
 The cross-process lock file of `packages/agent/src/pairings.ts`, as a state machine. Everything a process does
 between two `await`s is one step; the steps of any number of processes interleave freely, processes crash
 between any two of them, and time passes in between.

 A lock file is named by the token of the `lock()` call that made it: a token is a fresh random id per call, and
 one call makes at most one file. What a file shows (inode, mtime, content) is kept apart from that name, since a
 new file may reuse a freed inode and a file is empty until its token is written.
 */
module LockProtocol {
  import opened Wrappers

  type Pid = nat
  type Token = nat

  /** What `stat` tells of a lock file; device and inode are one number here. */
  datatype Stat = Stat(ino: int, mtime: int)

  /** A lock as one taker saw it; `None` is the content of a file whose creator has not written its token. */
  datatype Seen = Seen(stat: Stat, token: Option<Token>)

  datatype LockFile = LockFile(stat: Stat, written: bool)

  /** Why a lock is moved aside: as the stale lock `judged`, or as the mover's own lock being released. */
  datatype Why = Takeover(judged: Seen, deadline: int) | Release

  /** Where a process is; each constructor is the `await` it is about to start. */
  datatype Proc =
    | Idle
    | Opening(token: Token, deadline: int)                        // open(lockPath, 'wx')
    | Writing(token: Token)                                       // handle.writeFile(token)
    | Holding(token: Token)                                       // lock() returned
    | Releasing(token: Token)                                     // handle closed; rename(lockPath, aside)
    | Looking(token: Token, deadline: int)                        // see: stat(lockPath)
    | Peeking(token: Token, deadline: int, stat: Stat)            // see: readFile(lockPath)
    | Judging(token: Token, deadline: int, held: Option<Seen>)    // is what was seen stale?
    | Checking(token: Token, deadline: int, judged: Seen)         // takeOver: stat(lockPath)
    | Taking(token: Token, deadline: int, judged: Seen)           // takeOver: rename(lockPath, aside)
    | Moved(token: Token, why: Why, file: Token)                  // moveAside: stat(aside)
    | Examining(token: Token, why: Why, file: Token, stat: Stat)  // moveAside: readFile(aside)
    | PuttingBack(token: Token, why: Why, file: Token)            // moveAside: link(aside, lockPath)
    | Dropping(token: Token, why: Why, file: Token)               // moveAside: unlink(aside)

  datatype State = State(
    staleMs: nat,
    timeoutMs: nat,
    now: int,
    path: Option<Token>,           // the file at lockPath
    files: map<Token, LockFile>,   // every lock file ever made, wherever its names are
    procs: map<Pid, Proc>,
    crashed: set<Pid>,
    nextToken: Token)

  /** `Advance` runs the process's next step; `ino` is the inode a file it creates gets. */
  datatype Event = Tick(ms: nat) | Crash(p: Pid) | Advance(p: Pid, ino: int)

  function Content(s: State, f: Token): Option<Token>
    requires f in s.files
  {
    if s.files[f].written then Some(f) else None
  }

  predicate Stale(s: State, mtime: int) {
    s.now - mtime > s.staleMs
  }

  /** The `keep` of a `moveAside`: whether the moved file is the lock the mover meant. */
  predicate Meant(why: Why, token: Token, moved: Seen) {
    match why
    case Takeover(judged, _) => moved == judged
    case Release => moved.token == Some(token)
  }

  /** Where a mover goes once `moveAside` is done: back to `open`, or out of `lock`. */
  function AfterMove(token: Token, why: Why): Proc {
    match why
    case Takeover(_, deadline) => Opening(token, deadline)
    case Release => Idle
  }

  predicate Live(s: State, p: Pid) {
    p in s.procs && p !in s.crashed
  }

  predicate Enabled(s: State, e: Event) {
    match e
    case Tick(_) => true
    case Crash(p) => Live(s, p)
    case Advance(p, _) => Live(s, p) && WellFormedProc(s, s.procs[p])
  }

  /** The files a process is working on exist. */
  predicate WellFormedProc(s: State, proc: Proc) {
    && (proc.Writing? ==> proc.token in s.files)
    && (proc.Moved? || proc.Examining? || proc.PuttingBack? || proc.Dropping? ==> proc.file in s.files)
    && (s.path.Some? ==> s.path.value in s.files)
  }

  function SetProc(s: State, p: Pid, proc: Proc): State {
    s.(procs := s.procs[p := proc])
  }

  /** An event that is not enabled (a crashed process moving) changes nothing. */
  function Apply(s: State, e: Event): State {
    if !Enabled(s, e) then s
    else
      match e
      case Tick(ms) => s.(now := s.now + ms)
      case Crash(p) => s.(crashed := s.crashed + {p})
      case Advance(p, ino) => Step(s, p, ino)
  }

  function Step(s: State, p: Pid, ino: int): State
    requires Live(s, p) && WellFormedProc(s, s.procs[p])
  {
    match s.procs[p]
    case Idle =>
      SetProc(s.(nextToken := s.nextToken + 1), p, Opening(s.nextToken, s.now + s.timeoutMs))
    case Opening(token, deadline) =>
      if s.path.None? then
        var made := LockFile(Stat(ino, s.now), false);
        SetProc(s.(path := Some(token), files := s.files[token := made]), p, Writing(token))
      else
        SetProc(s, p, Looking(token, deadline))
    case Writing(token) =>
      SetProc(s.(files := s.files[token := LockFile(s.files[token].stat.(mtime := s.now), true)]), p, Holding(token))
    case Holding(token) =>
      SetProc(s, p, Releasing(token))
    case Releasing(token) =>
      if s.path.None? then SetProc(s, p, Idle)
      else SetProc(s.(path := None), p, Moved(token, Release, s.path.value))
    case Looking(token, deadline) =>
      if s.path.None? then SetProc(s, p, Judging(token, deadline, None))
      else SetProc(s, p, Peeking(token, deadline, s.files[s.path.value].stat))
    case Peeking(token, deadline, stat) =>
      if s.path.None? then SetProc(s, p, Judging(token, deadline, None))
      else SetProc(s, p, Judging(token, deadline, Some(Seen(stat, Content(s, s.path.value)))))
    case Judging(token, deadline, held) =>
      if held.Some? && Stale(s, held.value.stat.mtime) then SetProc(s, p, Checking(token, deadline, held.value))
      else if s.now >= deadline then SetProc(s, p, Idle)
      else SetProc(s, p, Opening(token, deadline))
    case Checking(token, deadline, judged) =>
      if s.path.Some? && s.files[s.path.value].stat == judged.stat then SetProc(s, p, Taking(token, deadline, judged))
      else SetProc(s, p, Opening(token, deadline))
    case Taking(token, deadline, judged) =>
      if s.path.None? then SetProc(s, p, Opening(token, deadline))
      else SetProc(s.(path := None), p, Moved(token, Takeover(judged, deadline), s.path.value))
    case Moved(token, why, file) =>
      SetProc(s, p, Examining(token, why, file, s.files[file].stat))
    case Examining(token, why, file, stat) =>
      if Meant(why, token, Seen(stat, Content(s, file))) then SetProc(s, p, Dropping(token, why, file))
      else SetProc(s, p, PuttingBack(token, why, file))
    case PuttingBack(token, why, file) =>
      // `link` never replaces a lock someone made meanwhile.
      SetProc(if s.path.None? then s.(path := Some(file)) else s, p, Dropping(token, why, file))
    case Dropping(token, why, file) =>
      SetProc(s, p, AfterMove(token, why))
  }

  /** No lock file and no process inside `lock`; any processes, any ages, any clock. */
  ghost predicate Init(s: State) {
    && s.path == None && s.files == map[] && s.crashed == {} && s.nextToken == 0
    && forall p :: p in s.procs ==> s.procs[p] == Idle
  }

  /** Between creating its lock file and renaming it away again: it includes all of `lock()` returning to `release`. */
  predicate InSection(proc: Proc) {
    proc.Writing? || proc.Holding? || proc.Releasing?
  }

  predicate LiveInSection(s: State, p: Pid) {
    Live(s, p) && InSection(s.procs[p])
  }

  /** At most one live process holds the lock. */
  ghost predicate MutualExclusion(s: State) {
    forall p, q :: LiveInSection(s, p) && LiveInSection(s, q) ==> p == q
  }

  /** The mover has taken `f` off the path and has neither dropped it nor put it back. */
  predicate HoldsAside(proc: Proc, f: Token) {
    (proc.Moved? || proc.Examining? || proc.PuttingBack?) && proc.file == f
  }

  /** The file a mover took off the path is not the one it meant (a mover that is putting it back has found out). */
  predicate Mistaken(s: State, proc: Proc) {
    match proc
    case Moved(token, why, file) => file in s.files && !Meant(why, token, Seen(s.files[file].stat, Content(s, file)))
    case Examining(token, why, file, stat) => file in s.files && !Meant(why, token, Seen(stat, Content(s, file)))
    case PuttingBack(_, _, _) => true
    case _ => false
  }

  /** `f` is the lock of a live process that is still in its section. */
  ghost predicate HeldByLive(s: State, f: Token) {
    exists p :: LiveInSection(s, p) && s.procs[p].token == f
  }

  /**
   `q` is between a mistaken rename-aside and the `link` that puts the lock back. A mover that died there never
   puts it back; its window stays open for as long as the lock's holder is live.
   */
  ghost predicate WindowOpen(s: State, q: Pid) {
    && q in s.procs && Mistaken(s, s.procs[q])
    && (q in s.crashed ==> HeldByLive(s, s.procs[q].file))
  }

  /** The step makes a new lock file. */
  predicate Creates(s: State, e: Event) {
    e.Advance? && e.p in s.procs && s.procs[e.p].Opening? && s.path.None?
  }

  /** First run hypothesis: no live holder keeps its lock past the stale age. */
  ghost predicate HoldersFresh(s: State) {
    forall p :: LiveInSection(s, p) && s.procs[p].token in s.files ==> !Stale(s, s.files[s.procs[p].token].stat.mtime)
  }

  /** Second run hypothesis: no lock is created while a mistakenly moved one is waiting to be put back. */
  ghost predicate CreatesOutsideWindows(s: State, e: Event) {
    Creates(s, e) ==> forall q :: !WindowOpen(s, q)
  }

  /** The state a run ends in. */
  function Execute(s: State, es: seq<Event>): State
    decreases |es|
  {
    if es == [] then s else Apply(Execute(s, es[..|es| - 1]), es[|es| - 1])
  }

  /** The first run hypothesis holds in every state of the run. */
  ghost predicate FreshRun(s: State, es: seq<Event>)
    decreases |es|
  {
    HoldersFresh(Execute(s, es)) && (es != [] ==> FreshRun(s, es[..|es| - 1]))
  }

  /** The second run hypothesis holds at every step of the run. */
  ghost predicate OrderlyRun(s: State, es: seq<Event>)
    decreases |es|
  {
    es != [] ==> OrderlyRun(s, es[..|es| - 1]) && CreatesOutsideWindows(Execute(s, es[..|es| - 1]), es[|es| - 1])
  }
}
