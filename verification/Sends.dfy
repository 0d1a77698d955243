/**
 The agent's sends (`packages/agent/src/send.ts`): which are let run beside each other, what a cancel reaches, and what
 a finished send takes away. A call is one run of the send handler; its steps are the stretches between its `await`s.
 */
module Sends {
  import opened Wrappers

  const MAX_SENDS_PER_ORIGIN: nat := 4

  type CallId = nat
  type Directory = string

  /** The pairing a tab called for. */
  datatype Caller = Caller(pairingId: string, origin: string)
  datatype Phase = Running | Ending | Done
  datatype Call = Call(caller: Caller, sendId: string, dir: Option<Directory>, aborted: bool, phase: Phase)
  /** What the registry keeps of a running send; `call` stands for the abort controller it holds. */
  datatype Entry = Entry(origin: string, call: CallId)

  datatype State = State(running: map<string, Entry>, calls: map<CallId, Call>, dirs: set<Directory>)

  datatype Event =
    | Start(call: CallId, caller: Caller, sendId: string)
    | MakeDir(call: CallId, dir: Directory)
    | End(call: CallId)                        // it returned or threw, wherever it was
    | RemoveDir(call: CallId)
    | Cancel(tab: Caller, sendId: string)

  datatype StartAnswer = Malformed | Exists | Busy | Started

  predicate IdChar(c: char) {
    'A' <= c <= 'Z' || 'a' <= c <= 'z' || '0' <= c <= '9' || c == '_' || c == '-'
  }

  /** A send id is a plain name: a request with another one is refused before the registry is looked at. */
  predicate IsSendId(id: string) {
    1 <= |id| <= 128 && forall i :: 0 <= i < |id| ==> IdChar(id[i])
  }

  function Key(pairingId: string, sendId: string): string {
    pairingId + "\n" + sendId
  }

  function KeysFor(running: map<string, Entry>, origin: string): set<string> {
    set k | k in running && running[k].origin == origin
  }

  function StartAnswerOf(s: State, caller: Caller, sendId: string): StartAnswer {
    if !IsSendId(sendId) then Malformed
    else if Key(caller.pairingId, sendId) in s.running then Exists
    else if |KeysFor(s.running, caller.origin)| >= MAX_SENDS_PER_ORIGIN then Busy
    else Started
  }

  /** A cancel reaches the entry under the caller's key, unless it is being stopped already. */
  function Reached(s: State, tab: Caller, sendId: string): Option<CallId> {
    var k := Key(tab.pairingId, sendId);
    if !IsSendId(sendId) || k !in s.running then None
    else if s.running[k].call !in s.calls || s.calls[s.running[k].call].aborted then None
    else Some(s.running[k].call)
  }

  function KeyOf(c: Call): string {
    Key(c.caller.pairingId, c.sendId)
  }

  function Ended(s: State, call: CallId): State
    requires call in s.calls
  {
    var c := s.calls[call];
    s.(running := s.running - {KeyOf(c)}, calls := s.calls[call := c.(phase := Ending)])
  }

  function Step(s: State, e: Event): State {
    match e
    case Start(call, caller, sendId) =>
      if call in s.calls || !StartAnswerOf(s, caller, sendId).Started? then s
      else
        s.(running := s.running[Key(caller.pairingId, sendId) := Entry(caller.origin, call)],
           calls := s.calls[call := Call(caller, sendId, None, false, Running)])
    case MakeDir(call, dir) =>
      if call !in s.calls || !s.calls[call].phase.Running? || s.calls[call].dir.Some? then s
      else if dir in s.dirs then Ended(s, call)  // it must be new: the send fails, and leaves the other's alone
      else s.(calls := s.calls[call := s.calls[call].(dir := Some(dir))], dirs := s.dirs + {dir})
    case End(call) => if call in s.calls && s.calls[call].phase.Running? then Ended(s, call) else s
    case RemoveDir(call) =>
      if call !in s.calls || !s.calls[call].phase.Ending? then s
      else
        var c := s.calls[call];
        s.(calls := s.calls[call := c.(phase := Done)], dirs := if c.dir.Some? then s.dirs - {c.dir.value} else s.dirs)
    case Cancel(tab, sendId) =>
      var found := Reached(s, tab, sendId);
      if found.None? then s else s.(calls := s.calls[found.value := s.calls[found.value].(aborted := true)])
  }

  function Execute(s: State, es: seq<Event>): State {
    if es == [] then s else Step(Execute(s, es[..|es| - 1]), es[|es| - 1])
  }

  // What every run keeps

  predicate IsRunning(s: State, call: CallId) {
    call in s.calls && s.calls[call].phase.Running?
  }

  /** The registry holds exactly the running calls, each under its own key. */
  ghost predicate Registered(s: State) {
    && (forall call :: IsRunning(s, call) ==>
          IsSendId(s.calls[call].sendId) && KeyOf(s.calls[call]) in s.running
            && s.running[KeyOf(s.calls[call])] == Entry(s.calls[call].caller.origin, call))
    && (forall k :: k in s.running ==> IsRunning(s, s.running[k].call) && KeyOf(s.calls[s.running[k].call]) == k)
  }

  /** Each directory that is there belongs to one call, which has not removed it yet. */
  ghost predicate DirsOwned(s: State) {
    forall a :: a in s.calls && s.calls[a].dir.Some? && !s.calls[a].phase.Done? ==>
      s.calls[a].dir.value in s.dirs
      && forall b :: b in s.calls && b != a && !s.calls[b].phase.Done? ==> s.calls[b].dir != s.calls[a].dir
  }

  function RunningFor(s: State, origin: string): set<CallId> {
    set call | call in s.calls && s.calls[call].phase.Running? && s.calls[call].caller.origin == origin
  }

  ghost predicate FewPerOrigin(s: State) {
    forall origin :: |KeysFor(s.running, origin)| <= MAX_SENDS_PER_ORIGIN
  }

  ghost predicate Sound(s: State) {
    Registered(s) && DirsOwned(s) && FewPerOrigin(s)
  }

  lemma StartKeepsRegistered(s: State, e: Event)
    requires Registered(s) && e.Start?
    ensures Registered(Step(s, e))
  {
  }

  lemma EndedKeepsRegistered(s: State, call: CallId)
    requires Registered(s) && IsRunning(s, call)
    ensures Registered(Ended(s, call))
  {
  }

  lemma StepKeepsRegistered(s: State, e: Event)
    requires Registered(s)
    ensures Registered(Step(s, e))
  {
    match e
    case Start(_, _, _) => StartKeepsRegistered(s, e);
    case MakeDir(call, _) => if IsRunning(s, call) { EndedKeepsRegistered(s, call); }
    case End(call) => if IsRunning(s, call) { EndedKeepsRegistered(s, call); }
    case _ =>
  }

  lemma StepKeepsDirs(s: State, e: Event)
    requires DirsOwned(s)
    ensures DirsOwned(Step(s, e))
  {
  }

  lemma {:induction false} FewerKeys(a: set<string>, b: set<string>)
    requires a <= b
    ensures |a| <= |b|
  {
    if a != {} {
      var k :| k in a;
      FewerKeys(a - {k}, b - {k});
    }
  }

  lemma OneMoreKey(running: map<string, Entry>, k: string, entry: Entry, origin: string)
    requires k !in running
    ensures |KeysFor(running[k := entry], origin)|
            == |KeysFor(running, origin)| + if entry.origin == origin then 1 else 0
  {
    assert KeysFor(running[k := entry], origin)
           == KeysFor(running, origin) + if entry.origin == origin then {k} else {};
  }

  lemma StartKeepsFew(s: State, e: Event, origin: string)
    requires e.Start? && FewPerOrigin(s)
    ensures |KeysFor(Step(s, e).running, origin)| <= MAX_SENDS_PER_ORIGIN
  {
    if StartAnswerOf(s, e.caller, e.sendId).Started? {
      OneMoreKey(s.running, Key(e.caller.pairingId, e.sendId), Entry(e.caller.origin, e.call), origin);
    }
  }

  lemma OthersAddNoKeys(s: State, e: Event, origin: string)
    requires !e.Start?
    ensures KeysFor(Step(s, e).running, origin) <= KeysFor(s.running, origin)
  {
  }

  lemma StepKeepsFew(s: State, e: Event)
    requires FewPerOrigin(s)
    ensures FewPerOrigin(Step(s, e))
  {
    forall origin ensures |KeysFor(Step(s, e).running, origin)| <= MAX_SENDS_PER_ORIGIN {
      if e.Start? {
        StartKeepsFew(s, e, origin);
      } else {
        OthersAddNoKeys(s, e, origin);
        FewerKeys(KeysFor(Step(s, e).running, origin), KeysFor(s.running, origin));
      }
    }
  }

  /** As many calls run for an origin as the registry has entries of it. */
  lemma {:induction false} CountsAgree(s: State, origin: string, calls: set<CallId>, keys: set<string>)
    requires Registered(s) && calls <= RunningFor(s, origin)
    requires keys == set call | call in calls :: KeyOf(s.calls[call])
    ensures |calls| == |keys|
    decreases |calls|
  {
    if calls != {} {
      var call :| call in calls;
      var k := KeyOf(s.calls[call]);
      var fewer := set other | other in calls - {call} :: KeyOf(s.calls[other]);
      assert fewer == keys - {k} by {
        forall other | other in calls && other != call ensures KeyOf(s.calls[other]) != k {
          assert IsRunning(s, other) && IsRunning(s, call);
        }
      }
      CountsAgree(s, origin, calls - {call}, fewer);
    }
  }

  /** The registry counts the sends that run, by origin. */
  lemma EntriesAreRunning(s: State, origin: string)
    requires Registered(s)
    ensures |KeysFor(s.running, origin)| == |RunningFor(s, origin)|
  {
    var calls := RunningFor(s, origin);
    var keys := set call | call in calls :: KeyOf(s.calls[call]);
    CountsAgree(s, origin, calls, keys);
    forall k ensures k in keys <==> k in KeysFor(s.running, origin) {
      if k in keys {
        var call :| call in calls && KeyOf(s.calls[call]) == k;
        assert IsRunning(s, call);
      }
      if k in KeysFor(s.running, origin) {
        assert IsRunning(s, s.running[k].call);
        assert s.running[k].call in calls;
      }
    }
    assert keys == KeysFor(s.running, origin);
  }

  /** Over any run at most four sends run per origin, however many pairings share it. */
  lemma AtMostFourRun(s: State, origin: string)
    requires Sound(s)
    ensures |RunningFor(s, origin)| <= MAX_SENDS_PER_ORIGIN
  {
    EntriesAreRunning(s, origin);
  }

  lemma {:induction false} RunsStaySound(s: State, es: seq<Event>)
    requires s.running == map[] && s.calls == map[]
    ensures Sound(Execute(s, es))
    decreases |es|
  {
    if es == [] {
      assert forall origin :: KeysFor(s.running, origin) == {};
    } else {
      var before, e := Execute(s, es[..|es| - 1]), es[|es| - 1];
      RunsStaySound(s, es[..|es| - 1]);
      StepKeepsRegistered(before, e);
      StepKeepsDirs(before, e);
      StepKeepsFew(before, e);
    }
  }

  // One send id of one pairing

  /** A key's last newline is the one put before the send id, whatever the pairing id holds. */
  lemma LastNewline(k: string, p: string, a: string)
    requires IsSendId(a) && k == Key(p, a)
    ensures |p| < |k| && k[|p|] == '\n' && forall i :: |p| < i < |k| ==> k[i] != '\n'
    ensures k[..|p|] == p && k[|p| + 1..] == a
  {
    assert forall i :: |p| < i < |k| ==> k[i] == a[i - |p| - 1];
  }

  /** Keys tell any two pairing ids, and any two send ids, apart. */
  lemma KeysTellApart(p: string, a: string, q: string, b: string)
    requires IsSendId(a) && IsSendId(b)
    ensures Key(p, a) == Key(q, b) <==> p == q && a == b
  {
    if Key(p, a) == Key(q, b) {
      LastNewline(Key(p, a), p, a);
      LastNewline(Key(p, a), q, b);
    }
  }

  /** At most one send runs per pairing and send id. */
  lemma OneRunsPerId(s: State, a: CallId, b: CallId)
    requires Registered(s) && IsRunning(s, a) && IsRunning(s, b)
    requires s.calls[a].caller.pairingId == s.calls[b].caller.pairingId && s.calls[a].sendId == s.calls[b].sendId
    ensures a == b
  {
  }

  predicate RunsFor(s: State, call: CallId, pairingId: string, sendId: string) {
    IsRunning(s, call) && s.calls[call].caller.pairingId == pairingId && s.calls[call].sendId == sendId
  }

  /** A send is refused for its id exactly when the same pairing runs one of that id. */
  lemma WhenIdIsTaken(s: State, caller: Caller, sendId: string)
    requires Registered(s)
    ensures StartAnswerOf(s, caller, sendId).Exists?
            <==> exists call :: RunsFor(s, call, caller.pairingId, sendId)
  {
    var k := Key(caller.pairingId, sendId);
    if IsSendId(sendId) && k in s.running {
      var c := s.calls[s.running[k].call];
      KeysTellApart(c.caller.pairingId, c.sendId, caller.pairingId, sendId);
      assert RunsFor(s, s.running[k].call, caller.pairingId, sendId);
    }
  }

  /**
   A new call runs exactly if its id is plain, its pairing runs no send of that id, and fewer than four run for its
   origin; then nothing else changes, and otherwise nothing does.
   */
  lemma WhenSendRuns(s: State, call: CallId, caller: Caller, sendId: string)
    requires Registered(s) && call !in s.calls
    ensures var t := Step(s, Start(call, caller, sendId));
      && (RunsFor(t, call, caller.pairingId, sendId)
          <==> IsSendId(sendId) && (forall other :: !RunsFor(s, other, caller.pairingId, sendId))
               && |RunningFor(s, caller.origin)| < 4)
      && (call in t.calls ==> t.calls[call] == Call(caller, sendId, None, false, Running))
      && t.dirs == s.dirs && (forall other :: other in s.calls ==> other in t.calls && t.calls[other] == s.calls[other])
      && t.calls.Keys <= s.calls.Keys + {call} && (call !in t.calls ==> t == s)
  {
    WhenIdIsTaken(s, caller, sendId);
    EntriesAreRunning(s, caller.origin);
  }

  /** A refused start is answered by its reason: the id first, then its pairing's own send, then the origin's count. */
  lemma WhyRefused(s: State, caller: Caller, sendId: string)
    requires Registered(s)
    ensures var answer := StartAnswerOf(s, caller, sendId);
      && (answer.Malformed? <==> !IsSendId(sendId))
      && (answer.Busy? <==> IsSendId(sendId) && (forall call :: !RunsFor(s, call, caller.pairingId, sendId))
                            && |RunningFor(s, caller.origin)| >= 4)
  {
    WhenIdIsTaken(s, caller, sendId);
    EntriesAreRunning(s, caller.origin);
  }

  /**
   A directory that is not there is made the send's; at one that is there the send ends, and it stays whose it was.
   */
  lemma WhenDirIsMade(s: State, call: CallId, dir: Directory)
    requires IsRunning(s, call) && s.calls[call].dir.None?
    ensures var t := Step(s, MakeDir(call, dir));
      && call in t.calls && t.dirs == s.dirs + {dir}
      && (dir !in s.dirs ==> IsRunning(t, call) && t.calls[call].dir == Some(dir))
      && (dir in s.dirs ==> t.calls[call].phase.Ending? && t.calls[call].dir.None?)
      && (forall other :: other in s.calls && other != call ==> other in t.calls && t.calls[other] == s.calls[other])
  {
  }

  /** A cancel stops at most one send: a running one of the caller's own pairing, of the id it names. */
  lemma CancelReachesOwn(s: State, tab: Caller, sendId: string)
    requires Registered(s)
    ensures var t := Step(s, Cancel(tab, sendId));
      && t.running == s.running && t.dirs == s.dirs && t.calls.Keys == s.calls.Keys
      && (forall call :: call in s.calls && t.calls[call] != s.calls[call] ==>
            RunsFor(s, call, tab.pairingId, sendId) && t.calls[call] == s.calls[call].(aborted := true))
      && (forall call :: RunsFor(s, call, tab.pairingId, sendId) ==> t.calls[call].aborted)
    ensures Reached(s, tab, sendId).Some?
            <==> exists call :: RunsFor(s, call, tab.pairingId, sendId) && !s.calls[call].aborted
  {
    var k := Key(tab.pairingId, sendId);
    if IsSendId(sendId) && k in s.running {
      var call := s.running[k].call;
      KeysTellApart(s.calls[call].caller.pairingId, s.calls[call].sendId, tab.pairingId, sendId);
      assert RunsFor(s, call, tab.pairingId, sendId);
    }
  }

  /** A call that ends takes its own entry away and no other. */
  lemma EndTakesOwn(s: State, call: CallId)
    requires Registered(s) && IsRunning(s, call)
    ensures var t := Step(s, End(call));
      && t.running == s.running - {KeyOf(s.calls[call])} && s.running[KeyOf(s.calls[call])].call == call
      && (forall k :: k in s.running && s.running[k].call != call ==> k in t.running && t.running[k] == s.running[k])
  {
    var t := Step(s, End(call));
    forall k | k in s.running && s.running[k].call != call ensures k in t.running && t.running[k] == s.running[k] {
      assert KeyOf(s.calls[s.running[k].call]) == k;
    }
  }

  /** And then the directory it made, and no other: one it did not make stays. */
  lemma RemovalTakesOwn(s: State, call: CallId)
    requires DirsOwned(s) && call in s.calls && s.calls[call].phase.Ending?
    ensures var t := Step(s, RemoveDir(call));
      && (s.calls[call].dir.Some? ==> s.calls[call].dir.value in s.dirs && t.dirs == s.dirs - {s.calls[call].dir.value})
      && (s.calls[call].dir.None? ==> t.dirs == s.dirs)
      && (forall other :: other in s.calls && other != call && !s.calls[other].phase.Done? && s.calls[other].dir.Some?
            ==> s.calls[other].dir.value in t.dirs)
  {
  }

  // The registry as it runs

  class Registry {
    var running: map<string, Entry>
    var calls: map<CallId, Call>
    var dirs: set<Directory>

    function Model(): State
      reads this
    {
      State(running, calls, dirs)
    }

    constructor (dirs: set<Directory>)
      ensures Model() == State(map[], map[], dirs) && Sound(Model())
    {
      running, calls, this.dirs := map[], map[], dirs;
      new;
      RunsStaySound(Model(), []);
    }

    method CountFor(origin: string) returns (n: nat)
      ensures n == |KeysFor(running, origin)|
    {
      n := 0;
      var left := running.Keys;
      ghost var counted: set<string> := {};
      while left != {}
        invariant left <= running.Keys && n == |counted|
        invariant counted == set k | k in running && k !in left && running[k].origin == origin
        decreases left
      {
        var k :| k in left;
        left := left - {k};
        if running[k].origin == origin {
          n := n + 1;
          counted := counted + {k};
        }
      }
      assert counted == KeysFor(running, origin);
    }

    method Begin(call: CallId, caller: Caller, sendId: string) returns (answer: StartAnswer)
      requires call !in calls
      modifies this`running, this`calls
      ensures answer == StartAnswerOf(old(Model()), caller, sendId)
      ensures Model() == Step(old(Model()), Start(call, caller, sendId))
    {
      if !IsSendId(sendId) {
        return Malformed;
      }
      if Key(caller.pairingId, sendId) in running {
        return Exists;
      }
      var n := CountFor(caller.origin);
      if n >= MAX_SENDS_PER_ORIGIN {
        return Busy;
      }
      running := running[Key(caller.pairingId, sendId) := Entry(caller.origin, call)];
      calls := calls[call := Call(caller, sendId, None, false, Running)];
      answer := Started;
    }

    method Leave(call: CallId)
      requires call in calls
      modifies this`running, this`calls
      ensures Model() == Ended(old(Model()), call)
    {
      running := running - {Key(calls[call].caller.pairingId, calls[call].sendId)};
      calls := calls[call := calls[call].(phase := Ending)];
    }

    method MakeDirectory(call: CallId, dir: Directory)
      requires IsRunning(Model(), call) && calls[call].dir.None?
      modifies this
      ensures Model() == Step(old(Model()), MakeDir(call, dir))
    {
      if dir in dirs {
        Leave(call);
      } else {
        dirs := dirs + {dir};
        calls := calls[call := calls[call].(dir := Some(dir))];
      }
    }

    /** What a send does last: its entry goes, and then its directory. */
    method Finish(call: CallId)
      requires IsRunning(Model(), call)
      modifies this
      ensures Model() == Step(Step(old(Model()), End(call)), RemoveDir(call))
    {
      Leave(call);
      if calls[call].dir.Some? {
        dirs := dirs - {calls[call].dir.value};
      }
      calls := calls[call := calls[call].(phase := Done)];
    }

    method Stop(tab: Caller, sendId: string) returns (cancelled: bool)
      requires Registered(Model())
      modifies this`calls
      ensures cancelled == Reached(old(Model()), tab, sendId).Some?
      ensures Model() == Step(old(Model()), Cancel(tab, sendId))
    {
      var k := Key(tab.pairingId, sendId);
      if !IsSendId(sendId) || k !in running {
        return false;
      }
      var call := running[k].call;
      assert IsRunning(Model(), call);
      if calls[call].aborted {
        return false;
      }
      calls := calls[call := calls[call].(aborted := true)];
      cancelled := true;
    }
  }
}
