/**
 Whether a packed app's `node_modules` is exactly what the app needs (`scripts/check-desktop-asar.ts`). The packed tree
 is given as its manifests, by folder, and the names of the packages at its top.
 */
module AsarCheck {
  import opened Wrappers
  import opened Reachability
  import opened Sorting

  const NOT_LOADED := "kerberos"

  /** The names of a manifest's dependencies, in order. */
  datatype Manifest = Manifest(dependencies: seq<string>, optional: seq<string>, peer: seq<string>)
  datatype Packed = Packed(app: Option<Manifest>, packages: map<string, Manifest>, top: seq<string>)

  datatype Job = Job(name: string, from: string, wantedFor: string)
  datatype Problem = NoManifest | Missing(name: string, wantedFor: string) | Ships(name: string)

  /** A dependency's folder: the one nested where it is asked for, else the one at the top. */
  function Resolve(p: Packed, name: string, from: string): Option<string> {
    var nested, top := from + "node_modules/" + name, "node_modules/" + name;
    if nested in p.packages then Some(nested) else if top in p.packages then Some(top) else None
  }

  function Present(p: Packed, names: seq<string>, from: string): seq<string> {
    if names == [] then []
    else
      var last := names[|names| - 1];
      Present(p, names[..|names| - 1], from) + if Resolve(p, last, from).Some? then [last] else []
  }

  /**
   What is followed from a package: what it requires, and of its optional and peer dependencies those that are there.
   */
  function Followed(p: Packed, dir: string): seq<string>
    requires dir in p.packages
  {
    var m := p.packages[dir];
    m.dependencies + Present(p, m.optional, dir + "/") + Present(p, m.peer, dir + "/")
  }

  /** The folders these names resolve to, leaving out what is not loaded and what is missing. */
  function Targets(p: Packed, names: seq<string>, from: string): seq<string> {
    if names == [] then []
    else
      var last := names[|names| - 1];
      var dir := Resolve(p, last, from);
      Targets(p, names[..|names| - 1], from) + if last == NOT_LOADED || dir.None? then [] else [dir.value]
  }

  function Graph(p: Packed): map<string, seq<string>> {
    map dir | dir in p.packages :: Targets(p, Followed(p, dir), dir + "/")
  }

  function Roots(p: Packed): seq<string> {
    if p.app.None? then [] else Targets(p, p.app.value.dependencies, "")
  }

  /** The folders of the packages the app needs. */
  ghost predicate IsNeeded(p: Packed, dir: string) {
    Reachable(Graph(p), Roots(p), dir)
  }

  /** The app, or a package it needs, requires this name, and nothing is there for it. */
  ghost predicate IsMissing(p: Packed, name: string) {
    name != NOT_LOADED && p.app.Some?
    && ((name in p.app.value.dependencies && Resolve(p, name, "").None?)
        || exists dir :: dir in p.packages && IsNeeded(p, dir)
              && name in p.packages[dir].dependencies && Resolve(p, name, dir + "/").None?)
  }

  // The worklist

  function Jobs(names: seq<string>, from: string, wantedFor: string): seq<Job> {
    seq(|names|, i requires 0 <= i < |names| => Job(names[i], from, wantedFor))
  }

  function TargetOf(p: Packed, j: Job): Option<string> {
    if j.name == NOT_LOADED then None else Resolve(p, j.name, j.from)
  }

  /** The folders the waiting jobs lead to. */
  function Waiting(p: Packed, queue: seq<Job>): seq<string> {
    if queue == [] then []
    else if TargetOf(p, queue[0]).None? then Waiting(p, queue[1..])
    else [TargetOf(p, queue[0]).value] + Waiting(p, queue[1..])
  }

  lemma Regroup<T>(a: seq<T>, b: seq<T>, c: seq<T>)
    ensures a + (b + c) == (a + b) + c
  {
  }

  lemma HeadsOf<T>(a: seq<T>, b: seq<T>)
    requires a != []
    ensures (a + b)[0] == a[0] && (a + b)[1..] == a[1..] + b
  {
  }

  lemma {:induction false} WaitingTogether(p: Packed, a: seq<Job>, b: seq<Job>)
    ensures Waiting(p, a + b) == Waiting(p, a) + Waiting(p, b)
  {
    if a == [] {
      assert a + b == b;
    } else {
      WaitingTogether(p, a[1..], b);
      HeadsOf(a, b);
      if TargetOf(p, a[0]).Some? { Regroup([TargetOf(p, a[0]).value], Waiting(p, a[1..]), Waiting(p, b)); }
    }
  }

  lemma {:induction false} JobsWait(p: Packed, names: seq<string>, from: string, wantedFor: string)
    ensures Waiting(p, Jobs(names, from, wantedFor)) == Targets(p, names, from)
  {
    if names != [] {
      var front, last := names[..|names| - 1], names[|names| - 1];
      JobsWait(p, front, from, wantedFor);
      assert Jobs(names, from, wantedFor) == Jobs(front, from, wantedFor) + [Job(last, from, wantedFor)];
      WaitingTogether(p, Jobs(front, from, wantedFor), [Job(last, from, wantedFor)]);
    }
  }

  lemma {:induction false} TargetsArePackages(p: Packed, names: seq<string>, from: string)
    ensures forall dir :: dir in Targets(p, names, from) ==> dir in p.packages
  {
    if names != [] { TargetsArePackages(p, names[..|names| - 1], from); }
  }

  lemma {:induction false} PresentAreThere(p: Packed, names: seq<string>, from: string)
    ensures forall name :: name in Present(p, names, from) <==> name in names && Resolve(p, name, from).Some?
  {
    if names != [] {
      PresentAreThere(p, names[..|names| - 1], from);
      assert names == names[..|names| - 1] + [names[|names| - 1]];
    }
  }

  predicate Asks(j: Job, from: string, name: string) {
    j.from == from && j.name == name
  }

  /**
   Every job comes from the app or from a package that was reached, and each of those has asked for all it follows.
   */
  ghost predicate Asked(p: Packed, reached: seq<string>, done: seq<Job>, queue: seq<Job>) {
    && p.app.Some?
    && (forall name :: name in p.app.value.dependencies ==> HasAsked(done, queue, "", name))
    && (forall dir, name :: dir in reached && dir in p.packages && name in Followed(p, dir) ==>
          HasAsked(done, queue, dir + "/", name))
    && (forall j :: j in done || j in queue ==> IsAsked(p, reached, j))
  }

  ghost predicate HasAsked(done: seq<Job>, queue: seq<Job>, from: string, name: string) {
    exists j :: (j in done || j in queue) && Asks(j, from, name)
  }

  ghost predicate IsAsked(p: Packed, reached: seq<string>, j: Job) {
    p.app.Some? && ((j.from == "" && j.name in p.app.value.dependencies)
                    || exists dir :: dir in reached && dir in p.packages
                          && j.from == dir + "/" && j.name in Followed(p, dir))
  }

  function MissingOf(p: Packed, done: seq<Job>): seq<Problem> {
    if done == [] then []
    else
      var j := done[|done| - 1];
      MissingOf(p, done[..|done| - 1])
      + if j.name != NOT_LOADED && Resolve(p, j.name, j.from).None? then [Missing(j.name, j.wantedFor)] else []
  }

  predicate IsUnmet(p: Packed, j: Job) {
    j.name != NOT_LOADED && Resolve(p, j.name, j.from).None?
  }

  ghost predicate Reports(problems: seq<Problem>, name: string) {
    exists x :: x in problems && x.Missing? && x.name == name
  }

  ghost predicate HasUnmet(p: Packed, done: seq<Job>, name: string) {
    exists j :: j in done && j.name == name && IsUnmet(p, j)
  }

  lemma {:induction false} WhatIsMissing(p: Packed, done: seq<Job>, name: string)
    ensures Reports(MissingOf(p, done), name) <==> HasUnmet(p, done, name)
    ensures forall x :: x in MissingOf(p, done) ==> x.Missing?
  {
    if done != [] {
      var front, last := done[..|done| - 1], done[|done| - 1];
      WhatIsMissing(p, front, name);
      UnmetOneMore(p, front, last, name);
      assert done == front + [last];
      if IsUnmet(p, last) { ReportsOneMore(MissingOf(p, front), Missing(last.name, last.wantedFor), name); }
    }
  }

  lemma UnmetOneMore(p: Packed, front: seq<Job>, last: Job, name: string)
    ensures HasUnmet(p, front + [last], name) <==> HasUnmet(p, front, name) || (last.name == name && IsUnmet(p, last))
  {
    if HasUnmet(p, front, name) {
      var j :| j in front && j.name == name && IsUnmet(p, j);
      assert j in front + [last];
    }
    assert last in front + [last];
  }

  lemma ReportsOneMore(problems: seq<Problem>, x: Problem, name: string)
    ensures Reports(problems + [x], name) <==> Reports(problems, name) || (x.Missing? && x.name == name)
  {
    if Reports(problems, name) {
      var y :| y in problems && y.Missing? && y.name == name;
      assert y in problems + [x];
    }
    assert x in problems + [x];
  }

  // The invariant, step by step

  ghost predicate Walked(p: Packed, reached: seq<string>, done: seq<Job>, queue: seq<Job>, unseen: set<string>) {
    Asked(p, reached, done, queue) && Walking(Graph(p), Roots(p), reached, Waiting(p, queue), unseen)
  }

  lemma StartsWalking(p: Packed)
    requires p.app.Some?
    ensures Walked(p, [], [], Jobs(p.app.value.dependencies, "", "the app"), Universe(Graph(p), Roots(p)))
  {
    var deps := p.app.value.dependencies;
    var queue := Jobs(deps, "", "the app");
    JobsWait(p, deps, "", "the app");
    WalkStarts(Graph(p), Roots(p));
    forall name | name in deps ensures HasAsked([], queue, "", name) {
      JobIsThere([], queue, deps, "", "the app", name);
    }
  }

  lemma JobIsThere(done: seq<Job>, queue: seq<Job>, names: seq<string>, from: string, wantedFor: string, name: string)
    requires name in names && forall j :: j in Jobs(names, from, wantedFor) ==> j in queue
    ensures HasAsked(done, queue, from, name)
  {
    var i :| 0 <= i < |names| && names[i] == name;
    assert Jobs(names, from, wantedFor)[i] in Jobs(names, from, wantedFor);
    assert Asks(Jobs(names, from, wantedFor)[i], from, name);
  }

  /** Moving the first job from waiting to done changes nothing of what was asked. */
  lemma ShiftKeepsAsked(p: Packed, reached: seq<string>, done: seq<Job>, queue: seq<Job>)
    requires Asked(p, reached, done, queue) && queue != []
    ensures Asked(p, reached, done + [queue[0]], queue[1..])
  {
    var done', queue' := done + [queue[0]], queue[1..];
    assert forall j :: j in done' || j in queue' <==> j in done || j in queue;
    forall from, name | HasAsked(done, queue, from, name) ensures HasAsked(done', queue', from, name) {
      var j :| (j in done || j in queue) && Asks(j, from, name);
      assert j in done' || j in queue';
    }
  }

  /** A package that is reached asks for all it follows. */
  lemma ReachKeepsAsked(p: Packed, reached: seq<string>, done: seq<Job>, queue: seq<Job>, dir: string,
                        wantedFor: string)
    requires Asked(p, reached, done, queue) && dir in p.packages
    ensures Asked(p, reached + [dir], done, queue + Jobs(Followed(p, dir), dir + "/", wantedFor))
  {
    var more := Jobs(Followed(p, dir), dir + "/", wantedFor);
    var queue' := queue + more;
    forall from, name | HasAsked(done, queue, from, name) ensures HasAsked(done, queue', from, name) {
      var j :| (j in done || j in queue) && Asks(j, from, name);
      assert j in done || j in queue';
    }
    forall name | name in Followed(p, dir) ensures HasAsked(done, queue', dir + "/", name) {
      JobIsThere(done, queue', Followed(p, dir), dir + "/", wantedFor, name);
    }
    forall j | j in done || j in queue' ensures IsAsked(p, reached + [dir], j) {
      if j in done || j in queue {
        assert IsAsked(p, reached, j);
      } else {
        assert j in more;
        assert dir in reached + [dir];
      }
    }
  }

  /** A job that leads nowhere, or where the walk has been. */
  lemma SkipKeepsWalked(p: Packed, reached: seq<string>, done: seq<Job>, queue: seq<Job>, unseen: set<string>)
    requires Walked(p, reached, done, queue, unseen) && queue != []
    requires TargetOf(p, queue[0]).None? || TargetOf(p, queue[0]).value in reached
    ensures Walked(p, reached, done + [queue[0]], queue[1..], unseen)
  {
    ShiftKeepsAsked(p, reached, done, queue);
    if TargetOf(p, queue[0]).Some? {
      WalkShifts(Graph(p), Roots(p), reached, Waiting(p, queue), unseen);
      assert Waiting(p, queue)[1..] == Waiting(p, queue[1..]);
    }
  }

  /** A job that leads to a package not reached before. */
  lemma ReachKeepsWalked(p: Packed, reached: seq<string>, done: seq<Job>, queue: seq<Job>, unseen: set<string>,
                         dir: string)
    requires Walked(p, reached, done, queue, unseen) && queue != []
    requires TargetOf(p, queue[0]) == Some(dir) && dir !in reached
    ensures dir in p.packages && unseen - {dir} < unseen
    ensures Walked(p, reached + [dir], done + [queue[0]], queue[1..]
            + Jobs(Followed(p, dir), dir + "/", queue[0].name), unseen - {dir})
  {
    ShiftKeepsAsked(p, reached, done, queue);
    ReachKeepsAsked(p, reached, done + [queue[0]], queue[1..], dir, queue[0].name);
    WalkShifts(Graph(p), Roots(p), reached, Waiting(p, queue), unseen);
    assert Waiting(p, queue)[1..] == Waiting(p, queue[1..]);
    JobsWait(p, Followed(p, dir), dir + "/", queue[0].name);
    WaitingTogether(p, queue[1..], Jobs(Followed(p, dir), dir + "/", queue[0].name));
  }

  /** In the end exactly the needed packages were reached, and what was asked in vain is what is missing. */
  lemma EndsWalking(p: Packed, reached: seq<string>, done: seq<Job>, unseen: set<string>, name: string)
    requires Walked(p, reached, done, [], unseen)
    ensures forall dir :: dir in reached <==> IsNeeded(p, dir)
    ensures Reports(MissingOf(p, done), name) <==> IsMissing(p, name)
  {
    WalkEnds(Graph(p), Roots(p), reached, unseen);
    WhatIsMissing(p, done, name);
    if HasUnmet(p, done, name) {
      var j :| j in done && j.name == name && IsUnmet(p, j);
      assert IsAsked(p, reached, j);
      UnmetIsMissing(p, reached, j);
    }
    if IsMissing(p, name) { MissingIsUnmet(p, reached, done, name); }
  }

  lemma UnmetIsMissing(p: Packed, reached: seq<string>, j: Job)
    requires IsAsked(p, reached, j) && IsUnmet(p, j)
    requires forall dir :: dir in reached <==> IsNeeded(p, dir)
    ensures IsMissing(p, j.name)
  {
    if !(j.from == "" && j.name in p.app.value.dependencies) {
      var dir :| dir in reached && dir in p.packages && j.from == dir + "/" && j.name in Followed(p, dir);
      PresentAreThere(p, p.packages[dir].optional, dir + "/");
      PresentAreThere(p, p.packages[dir].peer, dir + "/");
      assert j.name in p.packages[dir].dependencies;
    }
  }

  lemma MissingIsUnmet(p: Packed, reached: seq<string>, done: seq<Job>, name: string)
    requires Asked(p, reached, done, []) && IsMissing(p, name)
    requires forall dir :: dir in reached <==> IsNeeded(p, dir)
    ensures HasUnmet(p, done, name)
  {
    if name in p.app.value.dependencies && Resolve(p, name, "").None? {
      assert HasAsked(done, [], "", name);
      var j :| j in done && Asks(j, "", name);
      assert IsUnmet(p, j);
    } else {
      var dir :| dir in p.packages && IsNeeded(p, dir)
          && name in p.packages[dir].dependencies && Resolve(p, name, dir + "/").None?;
      assert dir in reached && name in Followed(p, dir);
      assert HasAsked(done, [], dir + "/", name);
      var j :| j in done && Asks(j, dir + "/", name);
      assert IsUnmet(p, j);
    }
  }

  // As it runs

  method PresentNames(p: Packed, names: seq<string>, from: string) returns (present: seq<string>)
    ensures present == Present(p, names, from)
  {
    present := [];
    for i := 0 to |names|
      invariant present == Present(p, names[..i], from)
    {
      assert names[..i + 1][..i] == names[..i];
      if Resolve(p, names[i], from).Some? {
        present := present + [names[i]];
      }
    }
    assert names[..|names|] == names;
  }

  method Follow(p: Packed, dir: string, wantedFor: string) returns (jobs: seq<Job>)
    requires dir in p.packages
    ensures jobs == Jobs(Followed(p, dir), dir + "/", wantedFor)
  {
    var found := p.packages[dir];
    var optional := PresentNames(p, found.optional, dir + "/");
    var peer := PresentNames(p, found.peer, dir + "/");
    jobs := Jobs(found.dependencies + optional + peer, dir + "/", wantedFor);
  }

  lemma WalkReports(p: Packed, reached: seq<string>, done: seq<Job>, unseen: set<string>)
    requires Walked(p, reached, done, [], unseen)
    ensures forall dir :: dir in reached <==> IsNeeded(p, dir)
    ensures forall name :: Reports(MissingOf(p, done), name) <==> IsMissing(p, name)
    ensures forall x :: x in MissingOf(p, done) ==> x.Missing?
  {
    forall name { EndsWalking(p, reached, done, unseen, name); }
    EndsWalking(p, reached, done, unseen, "");
    WhatIsMissing(p, done, "");
  }

  method Walk(p: Packed, app: Manifest) returns (reached: seq<string>, problems: seq<Problem>)
    requires p.app == Some(app)
    ensures forall dir :: dir in reached <==> IsNeeded(p, dir)
    ensures forall name :: Reports(problems, name) <==> IsMissing(p, name)
    ensures forall x :: x in problems ==> x.Missing?
  {
    reached, problems := [], [];
    var queue := Jobs(app.dependencies, "", "the app");
    ghost var done: seq<Job> := [];
    ghost var unseen := Universe(Graph(p), Roots(p));
    StartsWalking(p);
    while queue != []
      invariant Walked(p, reached, done, queue, unseen)
      invariant problems == MissingOf(p, done)
      decreases unseen, |queue|
    {
      var job := queue[0];
      assert (done + [job])[..|done|] == done;
      var dir := if job.name == NOT_LOADED then None else Resolve(p, job.name, job.from);
      if job.name != NOT_LOADED && dir.None? {
        problems := problems + [Missing(job.name, job.wantedFor)];
      }
      if dir.None? || dir.value in reached {
        SkipKeepsWalked(p, reached, done, queue, unseen);
        queue := queue[1..];
      } else {
        ReachKeepsWalked(p, reached, done, queue, unseen, dir.value);
        reached, unseen := reached + [dir.value], unseen - {dir.value};
        var jobs := Follow(p, dir.value, job.name);
        queue := queue[1..] + jobs;
      }
      done := done + [job];
    }
    WalkReports(p, reached, done, unseen);
  }

  /** The packages at the top that ship though the walk did not reach them, in order. */
  method Unreached(top: seq<string>, reached: seq<string>) returns (problems: seq<Problem>)
    ensures forall x :: x in problems <==> x.Ships? && x.name in top && "node_modules/" + x.name !in reached
  {
    var names := Sort(TextLess, top);
    TextIsOrdered();
    SortSorts(TextLess, top);
    problems := [];
    for i := 0 to |names|
      invariant forall x :: x in problems <==> x.Ships? && x.name in names[..i] && "node_modules/" + x.name !in reached
    {
      assert names[..i + 1] == names[..i] + [names[i]];
      if "node_modules/" + names[i] !in reached {
        problems := problems + [Ships(names[i])];
      }
    }
    assert names[..|names|] == names;
  }

  lemma TextIsOrdered()
    ensures StrictOrder(TextLess)
  {
    forall x, y, z | TextLess(x, y) && TextLess(y, z) ensures TextLess(x, z) { TextLessTransitive(x, y, z); }
    forall x, y ensures !TextLess(x, x) && (x != y ==> TextLess(x, y) || TextLess(y, x)) { TextLessTotal(x, y); }
  }

  /** A package ships that nothing the app loads depends on. */
  ghost predicate IsExtra(p: Packed, name: string) {
    name in p.top && !IsNeeded(p, "node_modules/" + name)
  }

  ghost predicate IsExact(p: Packed) {
    p.app.Some? && (forall name :: !IsMissing(p, name)) && (forall name :: !IsExtra(p, name))
  }

  /**
   The check: it reports exactly what is missing and what ships for nothing, and so nothing just when the tree is exact.
   */
  method Check(p: Packed) returns (problems: seq<Problem>)
    ensures p.app.None? ==> problems == [NoManifest]
    ensures p.app.Some? ==> forall name :: Reports(problems, name) <==> IsMissing(p, name)
    ensures p.app.Some? ==> forall name :: Ships(name) in problems <==> IsExtra(p, name)
    ensures problems == [] <==> IsExact(p)
  {
    if p.app.None? {
      return [NoManifest];
    }
    var reached, missing := Walk(p, p.app.value);
    var extra := Unreached(p.top, reached);
    problems := missing + extra;
    forall name ensures Reports(problems, name) <==> Reports(missing, name) {
      if Reports(missing, name) {
        var x :| x in missing && x.Missing? && x.name == name;
        assert x in problems;
      }
    }
    assert forall name :: Ships(name) in problems <==> Ships(name) in extra;
    if problems != [] {
      var x := problems[0];
      assert x in problems;
      if x.Missing? { assert Reports(problems, x.name); } else { assert IsExtra(p, x.name); }
    }
  }

  // What the needed packages are

  /** A package the app requires, or a needed one requires or finds as an optional or peer dependency, is needed. */
  lemma NeededFollows(p: Packed, name: string, dir: string, target: string)
    requires p.app.Some? && name != NOT_LOADED
    ensures name in p.app.value.dependencies && Resolve(p, name, "") == Some(target) ==> IsNeeded(p, target)
    ensures dir in p.packages && IsNeeded(p, dir) && Resolve(p, name, dir + "/") == Some(target)
            && (name in p.packages[dir].dependencies
                  || name in p.packages[dir].optional || name in p.packages[dir].peer)
            ==> IsNeeded(p, target)
  {
    if name in p.app.value.dependencies && Resolve(p, name, "") == Some(target) {
      TargetIsThere(p, p.app.value.dependencies, "", name);
      RootIsReachable(Graph(p), Roots(p), target);
    }
    if dir in p.packages && IsNeeded(p, dir) && Resolve(p, name, dir + "/") == Some(target)
       && (name in p.packages[dir].dependencies || name in p.packages[dir].optional || name in p.packages[dir].peer)
    {
      PresentAreThere(p, p.packages[dir].optional, dir + "/");
      PresentAreThere(p, p.packages[dir].peer, dir + "/");
      assert name in Followed(p, dir);
      TargetIsThere(p, Followed(p, dir), dir + "/", name);
      NextIsReachable(Graph(p), Roots(p), dir, target);
    }
  }

  lemma {:induction false} TargetIsThere(p: Packed, names: seq<string>, from: string, name: string)
    requires name in names && name != NOT_LOADED && Resolve(p, name, from).Some?
    ensures Resolve(p, name, from).value in Targets(p, names, from)
  {
    var front, last := names[..|names| - 1], names[|names| - 1];
    if name != last {
      assert names == front + [last];
      TargetIsThere(p, front, from, name);
    }
  }

  /**
   And they are the fewest: any folders that hold the app's dependencies, and what follows from each, hold them all.
   */
  lemma NeededIsLeast(p: Packed, dirs: seq<string>, dir: string)
    requires Closed(Graph(p), Roots(p), dirs) && IsNeeded(p, dir)
    ensures dir in dirs
  {
    ClosedHoldsAll(Graph(p), Roots(p), dirs, dir);
  }

  lemma {:induction false} SkippedLeadsNowhere(p: Packed, a: seq<string>, b: seq<string>, from: string)
    ensures Targets(p, a + [NOT_LOADED] + b, from) == Targets(p, a + b, from)
  {
    if b == [] {
      assert a + [NOT_LOADED] + b == a + [NOT_LOADED] && a + b == a;
      assert (a + [NOT_LOADED])[..|a|] == a;
    } else {
      var front, last := b[..|b| - 1], b[|b| - 1];
      SkippedLeadsNowhere(p, a, front, from);
      assert (a + [NOT_LOADED] + b)[..|a| + |b|] == a + [NOT_LOADED] + front;
      assert (a + b)[..|a| + |b| - 1] == a + front;
    }
  }

  /** Depending on `kerberos` makes nothing needed: neither it nor what it depends on. */
  lemma KerberosIsNotFollowed(p: Packed, q: Packed, a: seq<string>, b: seq<string>, dir: string)
    requires p.app.Some? && p.app.value.dependencies == a + [NOT_LOADED] + b
    requires q == p.(app := Some(p.app.value.(dependencies := a + b)))
    ensures IsNeeded(p, dir) <==> IsNeeded(q, dir)
  {
    SkippedLeadsNowhere(p, a, b, "");
    SameTargets(p, q, a + b, "");
    forall d | d in p.packages ensures Targets(p, Followed(p, d), d + "/") == Targets(q, Followed(q, d), d + "/") {
      SamePresent(p, q, p.packages[d].optional, d + "/");
      SamePresent(p, q, p.packages[d].peer, d + "/");
      SameTargets(p, q, Followed(p, d), d + "/");
    }
    assert Graph(p) == Graph(q);
  }

  lemma {:induction false} SameTargets(p: Packed, q: Packed, names: seq<string>, from: string)
    requires p.packages == q.packages
    ensures Targets(p, names, from) == Targets(q, names, from)
  {
    if names != [] { SameTargets(p, q, names[..|names| - 1], from); }
  }

  lemma {:induction false} SamePresent(p: Packed, q: Packed, names: seq<string>, from: string)
    requires p.packages == q.packages
    ensures Present(p, names, from) == Present(q, names, from)
  {
    if names != [] { SamePresent(p, q, names[..|names| - 1], from); }
  }

  // The same, said of folders and manifests

  /** What Node loads for a name: the package nested where it is asked for, else the one at the top; never kerberos. */
  predicate Loads(p: Packed, from: string, name: string, target: string) {
    && name != "kerberos" && target in p.packages
    && (target == from + "node_modules/" + name
        || (target == "node_modules/" + name && from + "node_modules/" + name !in p.packages))
  }

  predicate Names(m: Manifest, name: string) {
    name in m.dependencies || name in m.optional || name in m.peer
  }

  /** The folders hold all that the app requires, and all that each of them names and that is there. */
  ghost predicate HoldsAllLoaded(p: Packed, app: Manifest, dirs: set<string>) {
    && (forall name, target :: name in app.dependencies && Loads(p, "", name, target) ==> target in dirs)
    && (forall dir, name, target ::
          dir in dirs && dir in p.packages && Names(p.packages[dir], name) && Loads(p, dir + "/", name, target) ==>
            target in dirs)
  }

  ghost predicate IsLoadedBy(p: Packed, names: seq<string>, from: string, target: string) {
    exists name :: name in names && Loads(p, from, name, target)
  }

  lemma LoadsIsTarget(p: Packed, from: string, name: string, target: string)
    ensures Loads(p, from, name, target) <==> name != NOT_LOADED && Resolve(p, name, from) == Some(target)
  {
  }

  lemma {:induction false} TargetsAreLoaded(p: Packed, names: seq<string>, from: string, target: string)
    ensures target in Targets(p, names, from) <==> IsLoadedBy(p, names, from, target)
  {
    if names != [] {
      var front, last := names[..|names| - 1], names[|names| - 1];
      TargetsAreLoaded(p, front, from, target);
      LoadsIsTarget(p, from, last, target);
      assert names == front + [last];
      if IsLoadedBy(p, names, from, target) {
        var name :| name in names && Loads(p, from, name, target);
        assert name in front || name == last;
      }
      if IsLoadedBy(p, front, from, target) {
        var name :| name in front && Loads(p, from, name, target);
        assert name in names;
      }
      assert last in names;
    }
  }

  lemma NextIsLoaded(p: Packed, dir: string, target: string)
    requires dir in p.packages
    ensures target in Next(Graph(p), dir)
            <==> exists name :: Names(p.packages[dir], name) && Loads(p, dir + "/", name, target)
  {
    var m := p.packages[dir];
    TargetsAreLoaded(p, Followed(p, dir), dir + "/", target);
    PresentAreThere(p, m.optional, dir + "/");
    PresentAreThere(p, m.peer, dir + "/");
    if name :| Names(m, name) && Loads(p, dir + "/", name, target) { assert name in Followed(p, dir); }
  }

  lemma {:induction false} InSomeOrder(dirs: set<string>) returns (list: seq<string>)
    ensures forall dir :: dir in list <==> dir in dirs
  {
    list := [];
    if dirs != {} {
      var dir :| dir in dirs;
      var rest := InSomeOrder(dirs - {dir});
      list := [dir] + rest;
    }
  }

  lemma NeededIsInAll(p: Packed, app: Manifest, dirs: set<string>, dir: string)
    requires p.app == Some(app) && HoldsAllLoaded(p, app, dirs) && IsNeeded(p, dir)
    ensures dir in dirs
  {
    var list := InSomeOrder(dirs);
    forall d | d in Roots(p) ensures d in list { TargetsAreLoaded(p, app.dependencies, "", d); }
    forall d, next | d in list && next in Next(Graph(p), d) ensures next in list { NextIsLoaded(p, d, next); }
    ClosedHoldsAll(Graph(p), Roots(p), list, dir);
  }

  lemma NeededHoldsAll(p: Packed, app: Manifest, needed: set<string>)
    requires p.app == Some(app) && forall dir :: dir in needed <==> dir in p.packages && IsNeeded(p, dir)
    ensures HoldsAllLoaded(p, app, needed)
  {
    forall name, target | name in app.dependencies && Loads(p, "", name, target) ensures target in needed {
      TargetsAreLoaded(p, app.dependencies, "", target);
      RootIsReachable(Graph(p), Roots(p), target);
    }
    forall dir, name, target | dir in needed && dir in p.packages && Names(p.packages[dir], name)
                               && Loads(p, dir + "/", name, target)
      ensures target in needed
    {
      NextIsLoaded(p, dir, target);
      NextIsReachable(Graph(p), Roots(p), dir, target);
    }
  }

  /** The needed packages are the least set of folders that holds all that is loaded. */
  lemma NeededExactly(p: Packed, app: Manifest, dir: string)
    requires p.app == Some(app)
    ensures IsNeeded(p, dir) <==> forall dirs :: HoldsAllLoaded(p, app, dirs) ==> dir in dirs
  {
    forall dirs | IsNeeded(p, dir) && HoldsAllLoaded(p, app, dirs) ensures dir in dirs {
      NeededIsInAll(p, app, dirs, dir);
    }
    var needed := set d | d in p.packages && IsNeeded(p, d);
    NeededHoldsAll(p, app, needed);
  }

  /** Nothing is there for the name. */
  predicate IsAbsent(p: Packed, from: string, name: string) {
    name != "kerberos" && from + "node_modules/" + name !in p.packages && "node_modules/" + name !in p.packages
  }

  /** And what is missing is what the app, or a package that is needed and there, requires and has nothing for. */
  lemma MissingExactly(p: Packed, app: Manifest, name: string)
    requires p.app == Some(app)
    ensures IsMissing(p, name)
            <==> (name in app.dependencies && IsAbsent(p, "", name))
                 || exists dir :: dir in p.packages && IsNeeded(p, dir) && name in p.packages[dir].dependencies
                                  && IsAbsent(p, dir + "/", name)
  {
    assert "" + "node_modules/" + name == "node_modules/" + name;
    forall dir ensures IsAbsent(p, dir + "/", name) <==> name != NOT_LOADED && Resolve(p, name, dir + "/").None? { }
  }
}
