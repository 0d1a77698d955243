/**
 The pairing store of `packages/agent/src/pairings.ts`: any number of processes, each with any number of calls at
 once, that keep a cache of one file and change it under its lock, each step being what runs between two `await`s.
 What a process is asked for queues up and is done one piece at a time, in the order asked; the `identity()` calls of
 a process that knows none share one piece of work that makes it. The lock is taken as exclusive here (`LockSafety`
 says when it is), each version of the file has its own stamp, and the file is not deleted.
 */
module PairingStore {
  import opened Wrappers
  import opened Pairings

  type Pid = nat
  type CallId = nat

  /** A piece of work: a lock-free reload, making the identity if there still is none, or one of the changes. */
  datatype Task = Reload | MakeId(agentId: string) | Modify(change: Change)

  /** A ticket is the place of its task among all that was asked. */
  datatype Job = Job(ticket: nat, task: Task)

  /** How a piece of work ended; `Got` is an identity it answers with. */
  datatype Answer = Done | Got(agentId: string) | Failed

  /** Where the work at hand is; each constructor is the `await` it is about to start. */
  datatype Stage =
    | Resting                               // no work at hand
    | QuietStat                             // stat, without the lock
    | QuietRead(seen: nat)                  // read, the stamp seen before it
    | Locking                               // waiting for the lock
    | LockedStat                            // the lock is held from here
    | LockedRead(seen: nat)
    | Renaming(change: Change, next: File)  // the temporary file is written
    | Restamping(change: Change)            // renamed; the new stamp not read yet
    | Unlocking(answer: Answer)             // the work is done, the lock about to be given back
    | Leaving(answer: Answer)               // nobody's lock any more; the release is not over

  /** An `identity()` call: it waits for a reload, then maybe for the identity to be made. */
  datatype Call = Reloading(ticket: nat) | AwaitingId(ticket: nat) | Returned(agentId: string) | Threw

  /** Stamp 0 is "no file"; the n-th version of the file has stamp n. */
  datatype Cache = Cache(file: Option<File>, identity: Option<string>, stamp: nat, failed: Option<nat>)

  /** One process: its cache, its work, and its `identity()` calls. `making` is the work they share, while it lasts. */
  datatype Proc = Proc(
    cache: Cache,
    queue: seq<Job>,
    job: Job,                     // the work at hand, unless resting
    at: Stage,
    making: Option<nat>,
    settled: map<nat, Answer>,    // the work that ended, by ticket
    calls: map<CallId, Call>,
    asked: seq<Task>)             // all the work ever asked for

  /** A change that reached the disk: whose it was, when it was asked, and under which grant of the lock. */
  datatype Commit = Commit(p: Pid, ticket: nat, grant: nat, change: Change)

  datatype State = State(
    versions: seq<File>,           // every file the path has named, the last one being on disk
    holder: Option<Pid>,
    grants: nat,
    procs: map<Pid, Proc>,
    crashed: set<Pid>,
    commits: seq<Commit>)

  /** Version `n` of the file; version 0 is that there is none. */
  function Version(versions: seq<File>, n: nat): Option<File>
    requires n <= |versions|
  {
    if n == 0 then None else Some(versions[n - 1])
  }

  function OnDisk(s: State): Option<File> {
    Version(s.versions, |s.versions|)
  }

  /** `Throw` is any failure: an unreadable file, no secret store, a write that fails before the rename. */
  datatype Event =
    | AskIdentity(p: Pid, call: CallId)
    | AskFor(p: Pid, task: Task)                              // a refresh or a change
    | Begin(p: Pid)                                           // the next work in the queue
    | Advance(p: Pid)
    | Throw(p: Pid)
    | GiveUp(p: Pid)
    | Resume(p: Pid, call: CallId, agentId: string)           // a call whose work ended goes on
    | Unshare(p: Pid)                                         // the work that made an identity is over
    | Crash(p: Pid)

  predicate Live(s: State, p: Pid) {
    p in s.procs && p !in s.crashed
  }

  function Put(s: State, p: Pid, proc: Proc): State {
    s.(procs := s.procs[p := proc])
  }

  /** `adopt`: the file read becomes the cache, and its identity this process's. */
  function Adopt(cache: Cache, next: Option<File>, seen: nat): Cache {
    Cache(next, if next.None? then None else Some(next.value.agentId), seen, None)
  }

  // Asking, and going on

  /** What a caller may ask for by itself: plain names only, which are looked at at once, and never an identity. */
  predicate Offered(task: Task) {
    match task
    case Reload => true
    case MakeId(_) => false
    case Modify(change) =>
      && !change.MakeIdentity?
      && (change.SetAllowed? ==> forall i :: 0 <= i < |change.names| ==> SystemName(change.names[i]))
  }

  function Enqueue(proc: Proc, task: Task): Proc {
    proc.(queue := proc.queue + [Job(|proc.asked|, task)], asked := proc.asked + [task])
  }

  function Taken(proc: Proc): Proc
    requires proc.queue != []
  {
    proc.(
      job := proc.queue[0], queue := proc.queue[1..],
      at := if proc.queue[0].task.Reload? then QuietStat else Locking)
  }

  /**
   A call whose reload ended: it returns what is known, or joins the making of an identity, starting it if need be.
   */
  function AfterReload(proc: Proc, call: CallId, failed: bool, agentId: string): Proc {
    if proc.cache.identity.Some? then proc.(calls := proc.calls[call := Returned(proc.cache.identity.value)])
    else if failed then proc.(calls := proc.calls[call := Threw])
    else if proc.making.Some? then proc.(calls := proc.calls[call := AwaitingId(proc.making.value)])
    else
      var ticket := |proc.asked|;
      Enqueue(proc, MakeId(agentId)).(making := Some(ticket), calls := proc.calls[call := AwaitingId(ticket)])
  }

  /** One whose identity was made gets it, and one whose making failed throws. */
  function AfterMaking(proc: Proc, call: CallId, answer: Answer): Proc {
    proc.(calls := proc.calls[call := if answer.Got? then Returned(answer.agentId) else Threw])
  }

  function Resumed(proc: Proc, call: CallId, agentId: string): Proc {
    if call !in proc.calls then proc
    else
      match proc.calls[call]
      case Reloading(ticket) =>
        if ticket in proc.settled then AfterReload(proc, call, proc.settled[ticket].Failed?, agentId) else proc
      case AwaitingId(ticket) =>
        if ticket in proc.settled && proc.making != Some(ticket) then AfterMaking(proc, call, proc.settled[ticket])
        else proc
      case _ => proc
  }

  function Unshared(proc: Proc): Proc {
    if proc.making.Some? && proc.making.value in proc.settled then proc.(making := None) else proc
  }

  // The work at hand

  function Settle(proc: Proc, answer: Answer): Proc {
    proc.(at := Resting, settled := proc.settled[proc.job.ticket := answer])
  }

  /** Under the lock, the cache being what was on disk. */
  function Work(proc: Proc): Proc {
    match proc.job.task
    case Reload => proc.(at := Unlocking(Done))
    case MakeId(agentId) =>
      if proc.cache.identity.Some? then proc.(at := Unlocking(Got(proc.cache.identity.value)))
      else proc.(at := Renaming(MakeIdentity(agentId), File(agentId, [], [])))
    case Modify(change) =>
      var outcome := Decide(change, proc.cache.file);
      proc.(at := if outcome.Written? then Renaming(change, outcome.file)
                  else Unlocking(if outcome.Refused? then Failed else Done))
  }

  /** A reload without the lock reads only when the stamp moved and its last failure was another stamp's. */
  function OnQuietStat(proc: Proc, disk: nat): Proc {
    if disk == proc.cache.stamp || proc.cache.failed == Some(disk) then Settle(proc, Done)
    else proc.(at := QuietRead(disk))
  }

  function OnQuietRead(proc: Proc, seen: nat, file: Option<File>): Proc {
    Settle(proc.(cache := Adopt(proc.cache, file, seen)), Done)
  }

  function OnLockedStat(proc: Proc, disk: nat): Proc {
    if disk == proc.cache.stamp then Work(proc) else proc.(at := LockedRead(disk))
  }

  function OnLockedRead(proc: Proc, seen: nat, file: Option<File>): Proc {
    Work(proc.(cache := Adopt(proc.cache, file, seen)))
  }

  function OnRename(proc: Proc, change: Change, next: File): Proc {
    proc.(cache := proc.cache.(file := Some(next)), at := Restamping(change))
  }

  function OnRestamp(proc: Proc, change: Change, disk: nat): Proc {
    if change.MakeIdentity? then
      proc.(cache := proc.cache.(stamp := disk, identity := Some(change.agentId)), at := Unlocking(Got(change.agentId)))
    else proc.(cache := proc.cache.(stamp := disk), at := Unlocking(Done))
  }

  function Step(s: State, p: Pid): State
    requires p in s.procs
  {
    var proc := s.procs[p];
    match proc.at
    case Resting => s
    case QuietStat => Put(s, p, OnQuietStat(proc, |s.versions|))
    case QuietRead(seen) => Put(s, p, OnQuietRead(proc, seen, OnDisk(s)))
    case Locking =>
      if s.holder.Some? then s
      else Put(s.(holder := Some(p), grants := s.grants + 1), p, proc.(at := LockedStat))
    case LockedStat => Put(s, p, OnLockedStat(proc, |s.versions|))
    case LockedRead(seen) => Put(s, p, OnLockedRead(proc, seen, OnDisk(s)))
    case Renaming(change, next) =>
      Put(s.(versions := s.versions + [next], commits := s.commits + [Commit(p, proc.job.ticket, s.grants, change)]), p,
          OnRename(proc, change, next))
    case Restamping(change) => Put(s, p, OnRestamp(proc, change, |s.versions|))
    case Unlocking(answer) => Put(s.(holder := None), p, proc.(at := Leaving(answer)))
    case Leaving(answer) => Put(s, p, Settle(proc, answer))
  }

  /** A failure: an unlocked read leaves the cache as it was; under the lock the work ends and the lock goes. */
  function OnThrow(proc: Proc): Proc {
    match proc.at
    case QuietStat => Settle(proc, Failed)
    case QuietRead(seen) => Settle(proc.(cache := proc.cache.(failed := Some(seen))), Failed)
    case LockedRead(seen) => proc.(cache := proc.cache.(failed := Some(seen)), at := Unlocking(Failed))
    case LockedStat => proc.(at := Unlocking(Failed))
    case Renaming(_, _) => proc.(at := Unlocking(Failed))
    case _ => proc
  }

  /** An event a process is not there for changes nothing. A crashed holder's lock is taken over. */
  function Apply(s: State, e: Event): State {
    if !Live(s, e.p) then s
    else
      var proc := s.procs[e.p];
      match e
      case AskIdentity(p, call) =>
        if call in proc.calls then s
        else Put(s, p, Enqueue(proc, Reload).(calls := proc.calls[call := Reloading(|proc.asked|)]))
      case AskFor(p, task) => if Offered(task) then Put(s, p, Enqueue(proc, task)) else s
      case Begin(p) => if proc.at.Resting? && proc.queue != [] then Put(s, p, Taken(proc)) else s
      case Advance(p) => Step(s, p)
      case Throw(p) => Put(s, p, OnThrow(proc))
      case GiveUp(p) => if proc.at.Locking? then Put(s, p, Settle(proc, Failed)) else s
      case Resume(p, call, agentId) => Put(s, p, Resumed(proc, call, agentId))
      case Unshare(p) => Put(s, p, Unshared(proc))
      case Crash(p) => s.(crashed := s.crashed + {p}, holder := if s.holder == Some(p) then None else s.holder)
  }

  function Execute(s: State, es: seq<Event>): State
    decreases |es|
  {
    if es == [] then s else Apply(Execute(s, es[..|es| - 1]), es[|es| - 1])
  }

  /** The file the committed changes make of `base`, one after the other. */
  function Fold(base: Option<File>, commits: seq<Commit>): Option<File>
    decreases |commits|
  {
    if commits == [] then base
    else
      var before := Fold(base, commits[..|commits| - 1]);
      var outcome := Decide(commits[|commits| - 1].change, before);
      if outcome.Written? then Some(outcome.file) else before
  }
}
