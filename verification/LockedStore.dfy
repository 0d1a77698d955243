/**
 The pairing store under its own lock file: a process takes the lock when its `lock()` returns and gives it back when
 its release begins. Under the lock's two run hypotheses this is the store of `PairingStore`, whose lock excludes.
 */
module LockedStore {
  import opened Wrappers
  import opened Pairings
  import Lock = LockProtocol
  import LockSafety
  import Store = PairingStore
  import StoreTheorems
  import StoreCalls

  type Pid = nat

  datatype State = State(lock: Lock.State, store: Store.State)

  /** A step of the lock, of the store's own work, or the end of a process. */
  datatype Event = OfLock(lock: Lock.Event) | OfStore(store: Store.Event) | Dies(p: Pid)

  /** A process is inside `lock()` while its work waits for it, and in a release once its work is over. */
  predicate LockMay(s: State, e: Lock.Event) {
    match e
    case Tick(_) => true
    case Crash(_) => false
    case Advance(p, _) =>
      p in s.lock.procs && p in s.store.procs
      && (s.lock.procs[p].Idle? ==> s.store.procs[p].at.Locking?)
      && (s.lock.procs[p].Holding? ==> s.store.procs[p].at.Leaving?)
  }

  /** The store waits for `lock()` to return, or to give up, and for a release to be over. */
  predicate StoreMay(s: State, e: Store.Event) {
    match e
    case Crash(_) => false
    case Advance(p) =>
      p in s.lock.procs && p in s.store.procs
      && (s.store.procs[p].at.Locking? ==> s.lock.procs[p].Holding?)
      && (s.store.procs[p].at.Leaving? ==> s.lock.procs[p].Idle?)
    case GiveUp(p) => p in s.lock.procs && s.lock.procs[p].Idle?
    case _ => true
  }

  /** The store's step, except that a process whose `lock()` returned goes on, whoever else is under the lock. */
  function StoreStep(s: Store.State, e: Store.Event): Store.State {
    if e.Advance? && Store.Live(s, e.p) && s.procs[e.p].at.Locking? then
      Store.Put(s.(holder := Some(e.p), grants := s.grants + 1), e.p, s.procs[e.p].(at := Store.LockedStat))
    else Store.Apply(s, e)
  }

  function Step(s: State, e: Event): State {
    match e
    case OfLock(e) => if LockMay(s, e) then s.(lock := Lock.Apply(s.lock, e)) else s
    case OfStore(e) => if StoreMay(s, e) then s.(store := StoreStep(s.store, e)) else s
    case Dies(p) => State(Lock.Apply(s.lock, Lock.Crash(p)), Store.Apply(s.store, Store.Crash(p)))
  }

  function Execute(s: State, es: seq<Event>): State
    decreases |es|
  {
    if es == [] then s else Step(Execute(s, es[..|es| - 1]), es[|es| - 1])
  }

  /** What the lock does in a run. */
  function LockRun(s: State, es: seq<Event>): seq<Lock.Event>
    decreases |es|
  {
    if es == [] then []
    else
      var earlier, e := es[..|es| - 1], es[|es| - 1];
      match e
      case OfLock(e) => if LockMay(Execute(s, earlier), e) then LockRun(s, earlier) + [e] else LockRun(s, earlier)
      case OfStore(_) => LockRun(s, earlier)
      case Dies(p) => LockRun(s, earlier) + [Lock.Crash(p)]
  }

  /** And what the store does. */
  function StoreRun(s: State, es: seq<Event>): seq<Store.Event>
    decreases |es|
  {
    if es == [] then []
    else
      var earlier, e := es[..|es| - 1], es[|es| - 1];
      match e
      case OfLock(_) => StoreRun(s, earlier)
      case OfStore(e) => if StoreMay(Execute(s, earlier), e) then StoreRun(s, earlier) + [e] else StoreRun(s, earlier)
      case Dies(p) => StoreRun(s, earlier) + [Store.Crash(p)]
  }

  ghost predicate Init(s: State) {
    Lock.Init(s.lock) && StoreTheorems.Init(s.store) && s.lock.procs.Keys == s.store.procs.Keys
  }

  // The lock runs as a lock

  lemma LockExtends(s: Lock.State, es: seq<Lock.Event>, e: Lock.Event)
    ensures Lock.Execute(s, es + [e]) == Lock.Apply(Lock.Execute(s, es), e)
    ensures Lock.FreshRun(s, es + [e]) ==> Lock.FreshRun(s, es)
    ensures Lock.OrderlyRun(s, es + [e]) ==> Lock.OrderlyRun(s, es)
  {
    assert (es + [e])[..|es + [e]| - 1] == es;
  }

  lemma StoreExtends(s: Store.State, es: seq<Store.Event>, e: Store.Event)
    ensures Store.Execute(s, es + [e]) == Store.Apply(Store.Execute(s, es), e)
  {
    assert (es + [e])[..|es + [e]| - 1] == es;
  }

  lemma {:induction false} LockRunsAlone(s: State, es: seq<Event>)
    ensures Execute(s, es).lock == Lock.Execute(s.lock, LockRun(s, es))
    decreases |es|
  {
    if es != [] {
      var earlier, e := es[..|es| - 1], es[|es| - 1];
      LockRunsAlone(s, earlier);
      match e
      case OfLock(e) => if LockMay(Execute(s, earlier), e) { LockExtends(s.lock, LockRun(s, earlier), e); }
      case OfStore(_) =>
      case Dies(p) => LockExtends(s.lock, LockRun(s, earlier), Lock.Crash(p));
    }
  }

  // A process under the lock holds it

  predicate Together(s: State) {
    && s.lock.procs.Keys == s.store.procs.Keys && s.lock.crashed == s.store.crashed
  }

  predicate HoldsFor(s: State, p: Pid) {
    Store.Live(s.store, p) && StoreTheorems.InLock(s.store.procs[p].at) ==>
      p in s.lock.procs && s.lock.procs[p].Holding?
  }

  ghost predicate AllHold(s: State) {
    Together(s) && forall p :: p in s.store.procs ==> HoldsFor(s, p)
  }

  lemma LockStepMoves(s: Lock.State, e: Lock.Event)
    requires !e.Crash?
    ensures Lock.Apply(s, e).procs.Keys == s.procs.Keys && Lock.Apply(s, e).crashed == s.crashed
    ensures forall p :: p in s.procs && (e.Advance? ==> p != e.p) ==> Lock.Apply(s, e).procs[p] == s.procs[p]
  {
  }

  lemma LockKeepsHold(s: State, e: Lock.Event)
    requires AllHold(s) && LockMay(s, e)
    ensures AllHold(s.(lock := Lock.Apply(s.lock, e)))
  {
    LockStepMoves(s.lock, e);
  }

  lemma StoreStepMoves(s: Store.State, e: Store.Event)
    requires StoreTheorems.LockSound(s) && !e.Crash?
    ensures StoreStep(s, e).procs.Keys == s.procs.Keys && StoreStep(s, e).crashed == s.crashed
    ensures forall p :: p in s.procs && p != e.p ==> StoreStep(s, e).procs[p] == s.procs[p]
    ensures e.p in s.procs && StoreTheorems.InLock(StoreStep(s, e).procs[e.p].at)
            ==> StoreTheorems.InLock(s.procs[e.p].at) || (e.Advance? && s.procs[e.p].at.Locking?)
  {
    if Store.Live(s, e.p) {
      if e.Advance? {
        StoreTheorems.AdvanceFrame(s, e.p);
        AdvanceEnters(s, e.p);
      } else {
        StoreTheorems.ApplyFrame(s, e);
        OthersEnterNot(s, e);
      }
    }
  }

  lemma AdvanceEnters(s: Store.State, p: Pid)
    requires Store.Live(s, p)
    ensures p in Store.Step(s, p).procs && Store.Step(s, p).crashed == s.crashed
    ensures StoreTheorems.InLock(Store.Step(s, p).procs[p].at) ==>
            StoreTheorems.InLock(s.procs[p].at) || s.procs[p].at.Locking?
  {
  }

  lemma OthersEnterNot(s: Store.State, e: Store.Event)
    requires Store.Live(s, e.p) && !e.Advance? && !e.Crash?
    ensures e.p in Store.Apply(s, e).procs && Store.Apply(s, e).crashed == s.crashed
    ensures StoreTheorems.InLock(Store.Apply(s, e).procs[e.p].at) ==> StoreTheorems.InLock(s.procs[e.p].at)
  {
    if !e.Throw? && !e.Begin? && !e.GiveUp? { StoreTheorems.AskingKeepsWork(s, e); }
  }

  lemma StoreKeepsHold(s: State, e: Store.Event)
    requires AllHold(s) && StoreTheorems.LockSound(s.store) && StoreMay(s, e)
    ensures AllHold(s.(store := StoreStep(s.store, e)))
  {
    var t := s.(store := StoreStep(s.store, e));
    StoreStepMoves(s.store, e);
    forall p | p in t.store.procs ensures HoldsFor(t, p) { assert HoldsFor(s, p); }
  }

  lemma DyingKeepsHold(s: State, p: Pid)
    requires AllHold(s)
    ensures AllHold(Step(s, Dies(p)))
  {
    var t := Step(s, Dies(p));
    assert t.store.procs == s.store.procs && t.lock.procs == s.lock.procs;
    forall q | q in t.store.procs ensures HoldsFor(t, q) { assert HoldsFor(s, q); }
  }

  /** So where the lock excludes, a process whose `lock()` returned finds nobody under the lock. */
  lemma NobodyUnder(s: State, p: Pid)
    requires AllHold(s) && StoreTheorems.LockSound(s.store) && Lock.MutualExclusion(s.lock)
    requires Store.Live(s.store, p) && s.store.procs[p].at.Locking? && s.lock.procs[p].Holding?
    ensures s.store.holder.None?
  {
    if s.store.holder.Some? {
      var h := s.store.holder.value;
      assert HoldsFor(s, h);
      assert Lock.LiveInSection(s.lock, h) && Lock.LiveInSection(s.lock, p);
    }
  }

  lemma StoreStepIsStep(s: State, e: Store.Event)
    requires AllHold(s) && StoreTheorems.LockSound(s.store) && Lock.MutualExclusion(s.lock) && StoreMay(s, e)
    ensures StoreStep(s.store, e) == Store.Apply(s.store, e)
  {
    if e.Advance? && Store.Live(s.store, e.p) && s.store.procs[e.p].at.Locking? { NobodyUnder(s, e.p); }
  }

  // Runs

  ghost predicate Disciplined(s: State, es: seq<Event>) {
    Lock.FreshRun(s.lock, LockRun(s, es)) && Lock.OrderlyRun(s.lock, LockRun(s, es))
  }

  lemma EarlierDisciplined(s: State, es: seq<Event>)
    requires es != [] && Disciplined(s, es)
    ensures Disciplined(s, es[..|es| - 1])
  {
    var earlier, e := es[..|es| - 1], es[|es| - 1];
    match e
    case OfLock(e) => if LockMay(Execute(s, earlier), e) { LockExtends(s.lock, LockRun(s, earlier), e); }
    case OfStore(_) =>
    case Dies(p) => LockExtends(s.lock, LockRun(s, earlier), Lock.Crash(p));
  }

  lemma StepIsStoreStep(s: State, es: seq<Event>)
    requires es != [] && Execute(s, es[..|es| - 1]).store == Store.Execute(s.store, StoreRun(s, es[..|es| - 1]))
    requires AllHold(Execute(s, es[..|es| - 1])) && StoreTheorems.LockSound(Execute(s, es[..|es| - 1]).store)
    requires Lock.MutualExclusion(Execute(s, es[..|es| - 1]).lock)
    ensures Execute(s, es).store == Store.Execute(s.store, StoreRun(s, es)) && AllHold(Execute(s, es))
  {
    var earlier, e := es[..|es| - 1], es[|es| - 1];
    var before := Execute(s, earlier);
    match e
    case OfLock(e) => if LockMay(before, e) { LockKeepsHold(before, e); }
    case OfStore(e) =>
      if StoreMay(before, e) {
        StoreStepIsStep(before, e);
        StoreKeepsHold(before, e);
        StoreExtends(s.store, StoreRun(s, earlier), e);
      }
    case Dies(p) =>
      DyingKeepsHold(before, p);
      StoreExtends(s.store, StoreRun(s, earlier), Store.Crash(p));
  }

  /**
   In every run in which the lock meets its two hypotheses, the store does what the store whose lock excludes does: no
   process goes on under the lock while another does.
   */
  lemma {:induction false} LockedStoreIsStore(s: State, es: seq<Event>)
    requires Init(s) && Disciplined(s, es)
    ensures Execute(s, es).store == Store.Execute(s.store, StoreRun(s, es)) && AllHold(Execute(s, es))
    decreases |es|
  {
    if es == [] {
      forall p | p in s.store.procs ensures HoldsFor(s, p) {}
    } else {
      var earlier := es[..|es| - 1];
      EarlierDisciplined(s, es);
      LockedStoreIsStore(s, earlier);
      StoreTheorems.RunsStaySound(s.store, StoreRun(s, earlier));
      LockRunsAlone(s, earlier);
      LockSafety.LockExcludes(s.lock, LockRun(s, earlier));
      StepIsStoreStep(s, es);
    }
  }

  /** So under those two hypotheses alone no update is lost, and there is one identity. */
  lemma LockedStoreLosesNothing(s: State, es: seq<Event>)
    requires Init(s) && Disciplined(s, es)
    ensures var t := Execute(s, es).store;
      && Store.OnDisk(t) == Store.Fold(Store.OnDisk(s.store), t.commits)
      && StoreTheorems.InLockOrder(t.commits) && StoreCalls.InOrderAsked(t.commits)
      && StoreTheorems.IdsKept(t) && StoreCalls.OneAgent(t)
  {
    LockedStoreIsStore(s, es);
    StoreTheorems.NoLostUpdates(s.store, StoreRun(s, es));
    StoreCalls.CommitsInOrderAsked(s.store, StoreRun(s, es));
    StoreTheorems.PairingIdsStayPinned(s.store, StoreRun(s, es));
    StoreCalls.OneIdentity(s.store, StoreRun(s, es));
  }
}
