/** Which CI jobs a list of changed files calls for (`scripts/ci/changed-jobs.ts`). */
module ChangedJobs {
  import opened Wrappers
  import opened Reachability

  /** A folder's name ends in `/`; so does the folder of a workspace package. */
  datatype Package = Package(name: string, dir: string, deps: seq<string>)
  datatype Job = Job(name: string, roots: seq<string>, paths: seq<string>, excepted: seq<string>)

  const SERVER_TEST_ROLES := "scripts/ci/server-test-roles.sql"

  const JOBS: seq<Job> := [
    Job("server_integration", ["@wirebench/server"], [SERVER_TEST_ROLES], []),
    Job("tenancy_postgres", ["@wirebench/server"], [SERVER_TEST_ROLES], []),
    Job("hosted_e2e", ["@wirebench/server"], [SERVER_TEST_ROLES], []),
    Job("server_upgrade", ["@wirebench/server", "@wirebench/desktop"],
        [SERVER_TEST_ROLES, "scripts/check-browser-bundle.ts"], []),
    Job("browser_e2e", ["@wirebench/server", "@wirebench/desktop", "@wirebench/cli"],
        ["e2e/browser/", "e2e/package.json", "scripts/check-browser-bundle.ts"], []),
    Job("image_smoke", ["@wirebench/cli"], ["scripts/cli-smoke.ts"], []),
    Job("npm_smoke", ["@wirebench/cli"], ["scripts/cli-smoke.ts", "scripts/pack-check.ts"], []),
    Job("action_smoke", ["@wirebench/cli"], ["action/", "scripts/cli-smoke.ts", "scripts/pack-check.ts"], []),
    Job("kerberos_integration", ["@wirebench/engine"], ["scripts/ci/kerberos-kdc.sh"], []),
    Job("wss_xmlsec", ["@wirebench/engine"], ["scripts/wss-xmlsec-check.ts"], []),
    Job("e2e", ["@wirebench/desktop", "@wirebench/e2e"], ["scripts/fuses.ts"], ["e2e/browser/"])
  ]

  // Paths

  predicate EndsWith(text: string, suffix: string) {
    |suffix| <= |text| && text[|text| - |suffix|..] == suffix
  }

  predicate IsDocumentation(path: string) {
    "docs/" <= path || "docs-site/" <= path || "site/" <= path || EndsWith(path, ".md") || EndsWith(path, ".mdx")
  }

  predicate InPackages(path: string) {
    "packages/" <= path || "apps/" <= path
  }

  /** A file of some folder of `packages/` or `apps/`, or under `e2e/`, `scripts/` or `action/`. */
  predicate IsPlaced(path: string) {
    || ("packages/" <= path && HasFolder(path[|"packages/"|..]))
    || ("apps/" <= path && HasFolder(path[|"apps/"|..]))
    || "e2e/" <= path || "scripts/" <= path || "action/" <= path
  }

  predicate HasFolder(rest: string) {
    rest != "" && rest[0] != '/' && '/' in rest
  }

  /** `prefix` is a folder when it ends in `/`, else one file. */
  predicate Under(path: string, prefix: string) {
    if EndsWith(prefix, "/") then prefix <= path else path == prefix
  }

  predicate IsRelevant(file: string) {
    file != "" && !IsDocumentation(file)
  }

  // The workspace's graph

  /** As a JavaScript `Map` built from the packages: of two with one name the later counts. */
  function ByName(workspace: seq<Package>): map<string, Package> {
    if workspace == [] then map[]
    else
      var last := workspace[|workspace| - 1];
      ByName(workspace[..|workspace| - 1])[last.name := last]
  }

  function Graph(byName: map<string, Package>): map<string, seq<string>> {
    map name | name in byName :: byName[name].deps
  }

  /** A folder of a package that one of the roots depends on, directly or not, or is. */
  ghost predicate IsClosureDir(roots: seq<string>, workspace: seq<Package>, dir: string) {
    var byName := ByName(workspace);
    exists name :: name in byName && byName[name].dir == dir && Reachable(Graph(byName), roots, name)
  }

  // What is called for

  /** Nothing places the file, so it calls for everything. */
  predicate IsUnplaced(file: string, workspace: seq<Package>) {
    !IsPlaced(file) || (InPackages(file) && forall i :: 0 <= i < |workspace| ==> !(workspace[i].dir <= file))
  }

  ghost predicate IsInput(job: Job, workspace: seq<Package>, prefix: string) {
    prefix in job.paths || IsClosureDir(job.roots, workspace, prefix)
  }

  /** The file lies where the job looks, and not where it does not. */
  ghost predicate Concerns(file: string, job: Job, workspace: seq<Package>) {
    && (exists prefix :: IsInput(job, workspace, prefix) && Under(file, prefix))
    && !IsExcepted(file, job)
  }

  predicate IsExcepted(file: string, job: Job) {
    exists i :: 0 <= i < |job.excepted| && Under(file, job.excepted[i])
  }

  ghost predicate FileCalls(file: string, job: Job, workspace: seq<Package>) {
    IsRelevant(file) && (IsUnplaced(file, workspace) || Concerns(file, job, workspace))
  }

  ghost predicate IsCalled(files: seq<string>, job: Job, workspace: seq<Package>) {
    exists i :: 0 <= i < |files| && FileCalls(files[i], job, workspace)
  }

  predicate IsCode(files: seq<string>) {
    exists i :: 0 <= i < |files| && IsRelevant(files[i])
  }

  // As it runs

  method IndexByName(workspace: seq<Package>) returns (byName: map<string, Package>)
    ensures byName == ByName(workspace)
  {
    byName := map[];
    for i := 0 to |workspace|
      invariant byName == ByName(workspace[..i])
    {
      assert workspace[..i + 1][..i] == workspace[..i];
      byName := byName[workspace[i].name := workspace[i]];
    }
    assert workspace[..|workspace|] == workspace;
  }

  /** The names that the roots reach, each once. */
  method ReachedNames(roots: seq<string>, byName: map<string, Package>) returns (seen: seq<string>)
    ensures forall name :: name in seen <==> Reachable(Graph(byName), roots, name)
  {
    ghost var g := Graph(byName);
    seen := [];
    var queue := roots;
    ghost var unseen := Universe(g, roots);
    WalkStarts(g, roots);
    while queue != []
      invariant Walking(g, roots, seen, queue, unseen)
      decreases unseen, |queue|
    {
      WalkPops(g, roots, seen, queue, unseen);
      var name := queue[|queue| - 1];
      queue := queue[..|queue| - 1];
      if name !in seen {
        seen, unseen := seen + [name], unseen - {name};
        queue := queue + if name in byName then byName[name].deps else [];
      }
    }
    WalkEnds(g, roots, seen, unseen);
  }

  method ClosureDirs(roots: seq<string>, workspace: seq<Package>) returns (dirs: seq<string>)
    ensures forall dir :: dir in dirs <==> IsClosureDir(roots, workspace, dir)
  {
    var byName := IndexByName(workspace);
    var seen := ReachedNames(roots, byName);
    dirs := [];
    for i := 0 to |seen|
      invariant forall dir :: dir in dirs <==> exists j :: 0 <= j < i && seen[j] in byName && byName[seen[j]].dir == dir
    {
      if seen[i] in byName {
        dirs := dirs + [byName[seen[i]].dir];
      }
    }
  }

  method SomeUnder(file: string, prefixes: seq<string>) returns (some: bool)
    ensures some <==> exists i :: 0 <= i < |prefixes| && Under(file, prefixes[i])
  {
    for i := 0 to |prefixes|
      invariant forall j :: 0 <= j < i ==> !Under(file, prefixes[j])
    {
      if Under(file, prefixes[i]) {
        return true;
      }
    }
    some := false;
  }

  method JobIsCalled(relevant: seq<string>, everything: bool, job: Job, workspace: seq<Package>) returns (called: bool)
    ensures called <==> everything || exists i :: 0 <= i < |relevant| && Concerns(relevant[i], job, workspace)
  {
    if everything {
      return true;
    }
    var dirs := ClosureDirs(job.roots, workspace);
    var prefixes := dirs + job.paths;
    for i := 0 to |relevant|
      invariant forall j :: 0 <= j < i ==> !Concerns(relevant[j], job, workspace)
    {
      var inside := SomeUnder(relevant[i], prefixes);
      var excepted := SomeUnder(relevant[i], job.excepted);
      PrefixesAreInputs(relevant[i], job, workspace, dirs);
      if inside && !excepted {
        return true;
      }
    }
    called := false;
  }

  lemma PrefixesAreInputs(file: string, job: Job, workspace: seq<Package>, dirs: seq<string>)
    requires forall dir :: dir in dirs <==> IsClosureDir(job.roots, workspace, dir)
    ensures (exists i :: 0 <= i < |dirs + job.paths| && Under(file, (dirs + job.paths)[i]))
            <==> exists prefix :: IsInput(job, workspace, prefix) && Under(file, prefix)
  {
    var all := dirs + job.paths;
    forall prefix ensures prefix in all <==> IsInput(job, workspace, prefix) { }
    if i :| 0 <= i < |all| && Under(file, all[i]) {
      assert all[i] in all;
      assert IsInput(job, workspace, all[i]);
    }
    if prefix :| IsInput(job, workspace, prefix) && Under(file, prefix) {
      assert prefix in all;
      var i :| 0 <= i < |all| && all[i] == prefix;
      assert Under(file, all[i]);
    }
  }

  /** The relevant files, and whether one of them calls for everything. */
  method Sift(files: seq<string>, workspace: seq<Package>) returns (relevant: seq<string>, everything: bool)
    ensures forall file :: file in relevant <==> file in files && IsRelevant(file)
    ensures everything <==> exists i :: 0 <= i < |files| && IsRelevant(files[i]) && IsUnplaced(files[i], workspace)
  {
    relevant, everything := [], false;
    for i := 0 to |files|
      invariant forall file :: file in relevant <==> file in files[..i] && IsRelevant(file)
      invariant everything <==> exists j :: 0 <= j < i && IsRelevant(files[j]) && IsUnplaced(files[j], workspace)
    {
      assert files[..i + 1] == files[..i] + [files[i]];
      if IsRelevant(files[i]) {
        relevant := relevant + [files[i]];
        if IsUnplaced(files[i], workspace) {
          everything := true;
        }
      }
    }
    assert files[..|files|] == files;
  }

  /** For each job whether the files call for it, and for `code` whether anything but documentation changed. */
  method Called(files: seq<string>, workspace: seq<Package>, jobs: seq<Job>) returns (code: bool, called: seq<bool>)
    ensures code == IsCode(files)
    ensures |called| == |jobs| && forall k :: 0 <= k < |jobs| ==> called[k] == IsCalled(files, jobs[k], workspace)
  {
    var relevant, everything := Sift(files, workspace);
    code := |relevant| > 0;
    SiftedIsCode(files, relevant);
    called := [];
    for k := 0 to |jobs|
      invariant |called| == k && forall j :: 0 <= j < k ==> called[j] == IsCalled(files, jobs[j], workspace)
    {
      var one := JobIsCalled(relevant, everything, jobs[k], workspace);
      SiftedIsCalled(files, relevant, everything, jobs[k], workspace);
      called := called + [one];
    }
  }

  lemma SiftedIsCode(files: seq<string>, relevant: seq<string>)
    requires forall file :: file in relevant <==> file in files && IsRelevant(file)
    ensures |relevant| > 0 <==> IsCode(files)
  {
    if |relevant| > 0 { assert relevant[0] in files; }
    if i :| 0 <= i < |files| && IsRelevant(files[i]) { assert files[i] in relevant; }
  }

  lemma SiftedIsCalled(files: seq<string>, relevant: seq<string>, everything: bool, job: Job, workspace: seq<Package>)
    requires forall file :: file in relevant <==> file in files && IsRelevant(file)
    requires everything <==> exists i :: 0 <= i < |files| && IsRelevant(files[i]) && IsUnplaced(files[i], workspace)
    ensures IsCalled(files, job, workspace)
            <==> everything || exists i :: 0 <= i < |relevant| && Concerns(relevant[i], job, workspace)
  {
    if i :| 0 <= i < |relevant| && Concerns(relevant[i], job, workspace) {
      assert relevant[i] in files;
      var j :| 0 <= j < |files| && files[j] == relevant[i];
      assert relevant[i] in relevant;
      assert FileCalls(files[j], job, workspace);
    }
    if everything {
      var i :| 0 <= i < |files| && IsRelevant(files[i]) && IsUnplaced(files[i], workspace);
      assert FileCalls(files[i], job, workspace);
    }
    if IsCalled(files, job, workspace) {
      var j :| 0 <= j < |files| && FileCalls(files[j], job, workspace);
      assert files[j] in relevant;
    }
  }

  // What it promises

  /**
   A changed file, other than documentation, in the folder of a package a job reaches calls the job, unless excepted.
   */
  lemma ReachedFolderCalls(files: seq<string>, job: Job, workspace: seq<Package>, file: string, name: string,
                           path: seq<string>)
    requires file in files && IsRelevant(file) && !IsExcepted(file, job)
    requires Leads(Graph(ByName(workspace)), job.roots, name, path) && name in ByName(workspace)
    requires EndsWith(ByName(workspace)[name].dir, "/") && ByName(workspace)[name].dir <= file
    ensures IsCalled(files, job, workspace)
  {
    var dir := ByName(workspace)[name].dir;
    assert Reachable(Graph(ByName(workspace)), job.roots, name);
    assert IsClosureDir(job.roots, workspace, dir);
    assert IsInput(job, workspace, dir) && Under(file, dir);
    var i :| 0 <= i < |files| && files[i] == file;
    assert FileCalls(files[i], job, workspace);
  }

  /** Two lists of changes together call for what either calls for. */
  lemma TogetherIsEither(a: seq<string>, b: seq<string>, job: Job, workspace: seq<Package>)
    ensures IsCalled(a + b, job, workspace) <==> IsCalled(a, job, workspace) || IsCalled(b, job, workspace)
    ensures IsCode(a + b) <==> IsCode(a) || IsCode(b)
  {
    var all := a + b;
    if i :| 0 <= i < |a| && FileCalls(a[i], job, workspace) { assert FileCalls(all[i], job, workspace); }
    if i :| 0 <= i < |b| && FileCalls(b[i], job, workspace) { assert FileCalls(all[|a| + i], job, workspace); }
    if i :| 0 <= i < |a| && IsRelevant(a[i]) { assert IsRelevant(all[i]); }
    if i :| 0 <= i < |b| && IsRelevant(b[i]) { assert IsRelevant(all[|a| + i]); }
    if i :| 0 <= i < |all| && FileCalls(all[i], job, workspace) {
      if i < |a| { assert FileCalls(a[i], job, workspace); } else { assert FileCalls(b[i - |a|], job, workspace); }
    }
    if i :| 0 <= i < |all| && IsRelevant(all[i]) {
      if i < |a| { assert IsRelevant(a[i]); } else { assert IsRelevant(b[i - |a|]); }
    }
  }

  /** The same packages, each with the dependencies it had and maybe more. */
  ghost predicate AddsDeps(w: seq<Package>, v: seq<Package>) {
    |w| == |v| && forall i :: 0 <= i < |w| ==> AddsTo(w[i], v[i])
  }

  ghost predicate AddsTo(a: Package, b: Package) {
    b.name == a.name && b.dir == a.dir && forall dep :: dep in a.deps ==> dep in b.deps
  }

  lemma {:induction false} ByNameAdds(w: seq<Package>, v: seq<Package>, name: string)
    requires AddsDeps(w, v)
    ensures name in ByName(w) <==> name in ByName(v)
    ensures name in ByName(w) ==> AddsTo(ByName(w)[name], ByName(v)[name])
  {
    if w != [] {
      ByNameAdds(w[..|w| - 1], v[..|v| - 1], name);
      assert AddsTo(w[|w| - 1], v[|v| - 1]);
    }
  }

  lemma DirStaysInClosure(roots: seq<string>, w: seq<Package>, v: seq<Package>, dir: string)
    requires AddsDeps(w, v) && IsClosureDir(roots, w, dir)
    ensures IsClosureDir(roots, v, dir)
  {
    var g, h := Graph(ByName(w)), Graph(ByName(v));
    var name :| name in ByName(w) && ByName(w)[name].dir == dir && Reachable(g, roots, name);
    forall m, next | next in Next(g, m) ensures next in Next(h, m) { ByNameAdds(w, v, m); }
    MoreEdgesReachMore(g, h, roots, name);
    ByNameAdds(w, v, name);
  }

  lemma ConcernStays(file: string, job: Job, w: seq<Package>, v: seq<Package>)
    requires AddsDeps(w, v) && Concerns(file, job, w)
    ensures Concerns(file, job, v)
  {
    var prefix :| IsInput(job, w, prefix) && Under(file, prefix);
    if prefix !in job.paths { DirStaysInClosure(job.roots, w, v, prefix); }
    assert IsInput(job, v, prefix);
  }

  /** Declaring another dependency never turns a job off. */
  lemma AddingDepsTurnsNothingOff(files: seq<string>, job: Job, w: seq<Package>, v: seq<Package>)
    requires AddsDeps(w, v) && IsCalled(files, job, w)
    ensures IsCalled(files, job, v)
  {
    var i :| 0 <= i < |files| && FileCalls(files[i], job, w);
    if IsUnplaced(files[i], w) {
      forall k | 0 <= k < |v| ensures v[k].dir == w[k].dir { assert AddsTo(w[k], v[k]); }
    } else {
      ConcernStays(files[i], job, w, v);
    }
    assert FileCalls(files[i], job, v);
  }

  /** Documentation beside other changes alters no answer. */
  lemma DocumentationAltersNothing(files: seq<string>, docs: seq<string>, job: Job, workspace: seq<Package>)
    requires forall i :: 0 <= i < |docs| ==> docs[i] == "" || IsDocumentation(docs[i])
    ensures IsCalled(files + docs, job, workspace) <==> IsCalled(files, job, workspace)
    ensures IsCode(files + docs) <==> IsCode(files)
  {
    TogetherIsEither(files, docs, job, workspace);
  }

  /** Folders of packages, none of them in another. */
  predicate ApartFolders(workspace: seq<Package>) {
    && (forall i :: 0 <= i < |workspace| ==> EndsWith(workspace[i].dir, "/"))
    && (forall i, j :: 0 <= i < |workspace| && 0 <= j < |workspace| && i != j ==>
          !(workspace[i].dir <= workspace[j].dir))
  }

  /** The package is one that a root of the job depends on, directly or not, or is. */
  ghost predicate IsReached(job: Job, workspace: seq<Package>, k: nat)
    requires k < |workspace|
  {
    var byName := ByName(workspace);
    && workspace[k].name in byName && byName[workspace[k].name].dir == workspace[k].dir
    && Reachable(Graph(byName), job.roots, workspace[k].name)
  }

  lemma {:induction false} ByNameHolds(workspace: seq<Package>, name: string)
    requires name in ByName(workspace)
    ensures ByName(workspace)[name] in workspace && ByName(workspace)[name].name == name
  {
    var n := |workspace| - 1;
    if name != workspace[n].name { ByNameHolds(workspace[..n], name); }
  }

  lemma OneStartsTheOther(a: string, b: string, file: string)
    requires a <= file && b <= file
    ensures a <= b || b <= a
  {
  }

  lemma OneFolderHolds(workspace: seq<Package>, file: string, i: nat, k: nat)
    requires ApartFolders(workspace) && i < |workspace| && k < |workspace|
    requires workspace[i].dir <= file && workspace[k].dir <= file
    ensures i == k
  {
    OneStartsTheOther(workspace[i].dir, workspace[k].dir, file);
  }

  /** A folder of a package the job reaches that holds the file is the file's own package's. */
  lemma ReachedHolds(file: string, job: Job, workspace: seq<Package>, k: nat, dir: string)
    requires ApartFolders(workspace) && k < |workspace| && workspace[k].dir <= file
    requires IsClosureDir(job.roots, workspace, dir) && Under(file, dir)
    ensures IsReached(job, workspace, k)
  {
    var byName := ByName(workspace);
    var name :| name in byName && byName[name].dir == dir && Reachable(Graph(byName), job.roots, name);
    ByNameHolds(workspace, name);
    var i :| 0 <= i < |workspace| && workspace[i] == byName[name];
    OneFolderHolds(workspace, file, i, k);
  }

  /**
   The comment promises that a change to a package no job's graph knows calls for everything. It does so only when no
   workspace package's folder holds the file: a file of a workspace package calls a job if and only if the job reaches
   that package or names the file by path, and does not except it.
   */
  lemma WhenFolderChangeCalls(file: string, job: Job, workspace: seq<Package>, k: nat)
    requires ApartFolders(workspace) && k < |workspace|
             && workspace[k].dir <= file && IsRelevant(file) && IsPlaced(file)
    ensures IsCalled([file], job, workspace)
            <==> (IsReached(job, workspace, k) || exists i :: 0 <= i < |job.paths| && Under(file, job.paths[i]))
                 && !IsExcepted(file, job)
  {
    assert IsCalled([file], job, workspace) <==> FileCalls([file][0], job, workspace);
    assert !IsUnplaced(file, workspace);
    if IsReached(job, workspace, k) {
      assert IsInput(job, workspace, workspace[k].dir) && Under(file, workspace[k].dir);
    }
    if i :| 0 <= i < |job.paths| && Under(file, job.paths[i]) { assert IsInput(job, workspace, job.paths[i]); }
    if prefix :| IsInput(job, workspace, prefix) && Under(file, prefix) {
      if IsClosureDir(job.roots, workspace, prefix) {
        ReachedHolds(file, job, workspace, k, prefix);
      } else {
        var i :| 0 <= i < |job.paths| && job.paths[i] == prefix;
      }
    }
  }

  /**
   What one of CI's jobs excepts is another's: a file it leaves out calls a job all the same, whatever the workspace.
   */
  lemma ExceptedIsAnothers(files: seq<string>, file: string, workspace: seq<Package>, k: nat) returns (j: nat)
    requires k < |JOBS| && file in files && IsRelevant(file) && IsExcepted(file, JOBS[k])
    ensures j < |JOBS| && j != k && IsCalled(files, JOBS[j], workspace)
  {
    var i :| 0 <= i < |JOBS[k].excepted| && Under(file, JOBS[k].excepted[i]);
    assert JOBS[k].excepted[i] == "e2e/browser/";
    j := 4;
    assert "e2e/browser/" == JOBS[4].paths[0];
    assert IsInput(JOBS[4], workspace, "e2e/browser/");
    var n :| 0 <= n < |files| && files[n] == file;
    assert FileCalls(files[n], JOBS[4], workspace);
  }

  /** A change in the folder of a package that left the workspace calls for every job. */
  lemma DeletedPackageCallsAll(files: seq<string>, file: string, job: Job, workspace: seq<Package>, k: nat)
    requires ApartFolders(workspace) && k < |workspace| && workspace[k].dir <= file
    requires file in files && IsRelevant(file) && InPackages(file)
    ensures IsCalled(files, job, workspace[..k] + workspace[k + 1..])
  {
    var left := workspace[..k] + workspace[k + 1..];
    forall i | 0 <= i < |left| ensures !(left[i].dir <= file) {
      var j := if i < k then i else i + 1;
      assert left[i] == workspace[j];
      if workspace[j].dir <= file { OneFolderHolds(workspace, file, j, k); }
    }
    var n :| 0 <= n < |files| && files[n] == file;
    assert FileCalls(files[n], job, left);
  }

  // By where a file lies

  /** Documentation, written out. */
  predicate IsText(file: string) {
    || StartsWith(file, "docs/") || StartsWith(file, "docs-site/") || StartsWith(file, "site/")
    || HasEnding(file, ".md") || HasEnding(file, ".mdx")
  }

  predicate StartsWith(file: string, start: string) {
    |file| >= |start| && forall i :: 0 <= i < |start| ==> file[i] == start[i]
  }

  predicate HasEnding(file: string, ending: string) {
    |file| >= |ending| && forall i :: 0 <= i < |ending| ==> file[|file| - |ending| + i] == ending[i]
  }

  lemma StartAndEnding(file: string, part: string)
    ensures StartsWith(file, part) <==> part <= file
    ensures HasEnding(file, part) <==> EndsWith(file, part)
  {
    if |file| >= |part| {
      assert StartsWith(file, part) <==> file[..|part|] == part;
      assert HasEnding(file, part) <==> file[|file| - |part|..] == part;
    }
  }

  lemma TextIsDocumentation(file: string)
    ensures IsText(file) <==> IsDocumentation(file)
  {
    StartAndEnding(file, "docs/");
    StartAndEnding(file, "docs-site/");
    StartAndEnding(file, "site/");
    StartAndEnding(file, ".md");
    StartAndEnding(file, ".mdx");
  }

  lemma TopFolders(file: string)
    ensures IsPlaced(file) ==>
      StartsWith(file, "packages/") || StartsWith(file, "apps/") || StartsWith(file, "e2e/")
      || StartsWith(file, "scripts/") || StartsWith(file, "action/")
    ensures InPackages(file) <==> StartsWith(file, "packages/") || StartsWith(file, "apps/")
  {
    StartAndEnding(file, "packages/");
    StartAndEnding(file, "apps/");
    StartAndEnding(file, "e2e/");
    StartAndEnding(file, "scripts/");
    StartAndEnding(file, "action/");
  }

  lemma ScriptsArePlaced(file: string)
    requires StartsWith(file, "scripts/") || StartsWith(file, "action/")
    ensures IsPlaced(file) && !InPackages(file)
  {
    StartAndEnding(file, "scripts/");
    StartAndEnding(file, "action/");
    assert file[1] == 'c' && "packages/"[1] == 'a' && "apps/"[1] == 'p';
  }

  /** Documentation calls for nothing, */
  lemma TextCallsNone(files: seq<string>, job: Job, workspace: seq<Package>)
    requires forall i :: 0 <= i < |files| ==> IsText(files[i])
    ensures !IsCalled(files, job, workspace) && !IsCode(files)
  {
    forall i | 0 <= i < |files| ensures !IsRelevant(files[i]) { TextIsDocumentation(files[i]); }
  }

  /** and any other file, except in these folders, for every job: the root's files and the workflows among them. */
  lemma OutsideCallsAll(files: seq<string>, file: string, job: Job, workspace: seq<Package>)
    requires file in files && file != "" && !IsText(file)
    requires !StartsWith(file, "packages/") && !StartsWith(file, "apps/") && !StartsWith(file, "e2e/")
             && !StartsWith(file, "scripts/") && !StartsWith(file, "action/")
    ensures IsCalled(files, job, workspace) && IsCode(files)
  {
    TextIsDocumentation(file);
    TopFolders(file);
    var i :| 0 <= i < |files| && files[i] == file;
    assert FileCalls(files[i], job, workspace);
  }

  /** So does a file of `packages/` or `apps/` that no workspace package's folder holds, one right there included. */
  lemma LooseFileCallsAll(files: seq<string>, file: string, job: Job, workspace: seq<Package>)
    requires file in files && !IsText(file) && (StartsWith(file, "packages/") || StartsWith(file, "apps/"))
    requires forall k :: 0 <= k < |workspace| ==> !StartsWith(file, workspace[k].dir)
    ensures IsCalled(files, job, workspace) && IsCode(files)
  {
    TextIsDocumentation(file);
    TopFolders(file);
    forall k | 0 <= k < |workspace| ensures !(workspace[k].dir <= file) { StartAndEnding(file, workspace[k].dir); }
    var i :| 0 <= i < |files| && files[i] == file;
    assert FileCalls(files[i], job, workspace);
  }

  /** Whether one of the paths is the file, or a folder it lies in. */
  predicate IsNamed(paths: seq<string>, file: string) {
    exists i :: 0 <= i < |paths| && (file == paths[i] || (HasEnding(paths[i], "/") && StartsWith(file, paths[i])))
  }

  lemma NamedIsUnder(paths: seq<string>, file: string)
    ensures IsNamed(paths, file) <==> exists i :: 0 <= i < |paths| && Under(file, paths[i])
  {
    forall path ensures (file == path || (HasEnding(path, "/") && StartsWith(file, path))) <==> Under(file, path) {
      StartAndEnding(path, "/");
      StartAndEnding(file, path);
    }
  }

  lemma ConcernedOutsidePackages(file: string, job: Job, workspace: seq<Package>)
    requires forall k :: 0 <= k < |workspace| ==> !Under(file, workspace[k].dir)
    ensures (exists prefix :: IsInput(job, workspace, prefix) && Under(file, prefix)) <==> IsNamed(job.paths, file)
  {
    NamedIsUnder(job.paths, file);
    if i :| 0 <= i < |job.paths| && Under(file, job.paths[i]) { assert IsInput(job, workspace, job.paths[i]); }
    if prefix :| IsInput(job, workspace, prefix) && Under(file, prefix) {
      if IsClosureDir(job.roots, workspace, prefix) {
        var k := FolderIsPackages(job.roots, workspace, prefix);
        assert false;
      }
      var i :| 0 <= i < |job.paths| && job.paths[i] == prefix;
      assert Under(file, job.paths[i]);
    }
  }

  /** A file under `scripts/` or `action/`, where no package is, calls exactly the jobs that name it. */
  lemma ScriptCallsNamed(file: string, job: Job, workspace: seq<Package>)
    requires !IsText(file) && (StartsWith(file, "scripts/") || StartsWith(file, "action/"))
    requires forall k :: 0 <= k < |workspace| ==> !Under(file, workspace[k].dir)
    ensures IsCalled([file], job, workspace) <==> IsNamed(job.paths, file) && !IsNamed(job.excepted, file)
  {
    TextIsDocumentation(file);
    ScriptsArePlaced(file);
    NamedIsUnder(job.excepted, file);
    ConcernedOutsidePackages(file, job, workspace);
    assert IsCalled([file], job, workspace) <==> FileCalls([file][0], job, workspace);
  }

  lemma FolderIsPackages(roots: seq<string>, workspace: seq<Package>, dir: string) returns (k: nat)
    requires IsClosureDir(roots, workspace, dir)
    ensures k < |workspace| && workspace[k].dir == dir
  {
    var byName := ByName(workspace);
    var name :| name in byName && byName[name].dir == dir && Reachable(Graph(byName), roots, name);
    ByNameHolds(workspace, name);
    k :| 0 <= k < |workspace| && workspace[k] == byName[name];
  }
}
