/**
 A workspace's history (`e2e/helpers/fake-server.ts`, the sync routes): who may push, onto what, and what a replica is
 told. A commit's id is a digest of its parts and of a running number that no other id shares, so it is kept as those.
 */
module SyncHistory {
  import opened Wrappers
  import opened Sync

  datatype Role = Viewer | Editor | Admin
  datatype CommitId = CommitId(workspace: string, parent: Option<CommitId>, subject: string, when: string, number: nat)
  datatype Commit = Commit(id: CommitId, subject: string, author: string, when: string, files: Tree)
  datatype NewCommit = NewCommit(subject: string, when: string, changes: seq<Change>)

  /** A workspace's history, oldest first, and the server's running number. */
  datatype State = State(workspace: string, history: seq<Commit>, number: nat)

  datatype Event =
    | Push(role: Role, author: string, parent: Option<CommitId>, commits: seq<NewCommit>)
    | CommitAs(author: string, subject: string, when: string, files: Tree)  // the tests' own edit of the head
    | Numbered                                                             // another id took the running number

  datatype PushAnswer = Forbidden | Invalid | Rejected | Created(head: CommitId, ids: seq<CommitId>)
  datatype ChangesError = UnknownCommit | NotAncestor

  function HeadId(h: seq<Commit>): Option<CommitId> {
    if h == [] then None else Some(h[|h| - 1].id)
  }

  function HeadFiles(h: seq<Commit>): Tree {
    if h == [] then map[] else h[|h| - 1].files
  }

  function Append(s: State, author: string, subject: string, when: string, files: Tree): State {
    var id := CommitId(s.workspace, HeadId(s.history), subject, when, s.number);
    s.(history := s.history + [Commit(id, subject, author, when, files)], number := s.number + 1)
  }

  function AppendAll(s: State, author: string, commits: seq<NewCommit>): (t: State)
    ensures s.history <= t.history && |t.history| == |s.history| + |commits|
    ensures t.workspace == s.workspace && t.number >= s.number
  {
    if commits == [] then s
    else
      var before := AppendAll(s, author, commits[..|commits| - 1]);
      var c := commits[|commits| - 1];
      Append(before, author, c.subject, c.when, Applied(HeadFiles(before.history), c.changes))
  }

  function PushAnswerOf(s: State, role: Role, author: string, parent: Option<CommitId>,
                        commits: seq<NewCommit>): PushAnswer {
    if role == Viewer then Forbidden
    else if commits == [] then Invalid
    else if parent != HeadId(s.history) then Rejected
    else
      var t := AppendAll(s, author, commits);
      var ids := Ids(t.history[|s.history|..]);
      Created(ids[|ids| - 1], ids)
  }

  function Ids(h: seq<Commit>): seq<CommitId> {
    seq(|h|, i requires 0 <= i < |h| => h[i].id)
  }

  function Step(s: State, e: Event): State {
    match e
    case Push(role, author, parent, commits) =>
      if PushAnswerOf(s, role, author, parent, commits).Created? then AppendAll(s, author, commits) else s
    case CommitAs(author, subject, when, files) => Append(s, author, subject, when, files)
    case Numbered => s.(number := s.number + 1)
  }

  function Execute(s: State, es: seq<Event>): State {
    if es == [] then s else Step(Execute(s, es[..|es| - 1]), es[|es| - 1])
  }

  // What every run keeps

  /** Each commit is the child of the one before it, and their running numbers grow. */
  ghost predicate Linear(s: State) {
    && (forall i :: 0 <= i < |s.history| ==> s.history[i].id.workspace == s.workspace
                                             && s.history[i].id.parent == HeadId(s.history[..i]))
    && (forall i :: 0 <= i < |s.history| ==> s.history[i].id.number < s.number)
    && (forall i, j :: 0 <= i < j < |s.history| ==> s.history[i].id.number < s.history[j].id.number)
  }

  lemma PrefixStays<T>(h: seq<T>, x: T, i: nat)
    requires i <= |h|
    ensures (h + [x])[..i] == h[..i] && h[..|h|] == h
    ensures i < |h| ==> (h + [x])[i] == h[i]
  {
  }

  lemma AppendKeepsLinear(s: State, author: string, subject: string, when: string, files: Tree)
    requires Linear(s)
    ensures Linear(Append(s, author, subject, when, files))
  {
    var t := Append(s, author, subject, when, files);
    forall i | 0 <= i < |t.history|
      ensures t.history[i].id.workspace == t.workspace && t.history[i].id.parent == HeadId(t.history[..i])
    {
      PrefixStays(s.history, t.history[|s.history|], i);
    }
  }

  lemma {:induction false} AppendAllKeepsLinear(s: State, author: string, commits: seq<NewCommit>)
    requires Linear(s)
    ensures Linear(AppendAll(s, author, commits))
  {
    if commits != [] {
      var before, c := AppendAll(s, author, commits[..|commits| - 1]), commits[|commits| - 1];
      AppendAllKeepsLinear(s, author, commits[..|commits| - 1]);
      AppendKeepsLinear(before, author, c.subject, c.when, Applied(HeadFiles(before.history), c.changes));
    }
  }

  /** The history stays one line, over every run. */
  lemma {:induction false} HistoryStaysLinear(s: State, es: seq<Event>)
    requires Linear(s)
    ensures Linear(Execute(s, es))
    decreases |es|
  {
    if es != [] {
      var before, e := Execute(s, es[..|es| - 1]), es[|es| - 1];
      HistoryStaysLinear(s, es[..|es| - 1]);
      match e
      case Push(role, author, parent, commits) => AppendAllKeepsLinear(before, author, commits);
      case CommitAs(author, subject, when, files) => AppendKeepsLinear(before, author, subject, when, files);
      case Numbered =>
    }
  }

  lemma PrefixesChain<T>(a: seq<T>, b: seq<T>, c: seq<T>)
    requires a <= b && b <= c
    ensures a <= c
  {
  }

  /** And nothing ever leaves it or changes in it. */
  lemma {:induction false} HistoryOnlyGrows(s: State, es: seq<Event>)
    ensures s.history <= Execute(s, es).history
    decreases |es|
  {
    if es != [] {
      var before := Execute(s, es[..|es| - 1]);
      HistoryOnlyGrows(s, es[..|es| - 1]);
      PrefixesChain(s.history, before.history, Step(before, es[|es| - 1]).history);
    }
  }

  /** No two commits of a history have the same id. */
  lemma IdsAreDistinct(s: State, i: nat, j: nat)
    requires Linear(s) && i < |s.history| && j < |s.history| && s.history[i].id == s.history[j].id
    ensures i == j
  {
  }

  // Pushes

  /** A push counts exactly when an editor sends commits for the head it has seen; otherwise it changes nothing. */
  lemma WhenPushCounts(s: State, role: Role, author: string, parent: Option<CommitId>, commits: seq<NewCommit>)
    ensures Step(s, Push(role, author, parent, commits)) != s
            <==> role != Viewer && commits != [] && parent == HeadId(s.history)
    ensures var answer := PushAnswerOf(s, role, author, parent, commits);
      && (answer.Created? <==> role != Viewer && commits != [] && parent == HeadId(s.history))
      && (answer.Rejected? <==> role != Viewer && commits != [] && parent != HeadId(s.history))
      && (answer.Invalid? <==> role != Viewer && commits == [])
      && (answer.Forbidden? <==> role == Viewer)
  {
  }

  /** The answer to a push that counts names the commits that it put after the old head, in order, and the new head. */
  lemma CreatedNamesCommits(s: State, role: Role, author: string, parent: Option<CommitId>, commits: seq<NewCommit>)
    requires role != Viewer && commits != [] && parent == HeadId(s.history)
    ensures var h, answer := Step(s, Push(role, author, parent, commits)).history,
                             PushAnswerOf(s, role, author, parent, commits);
      && s.history <= h && |h| == |s.history| + |commits|
      && answer.Created? && |answer.ids| == |commits|
      && (forall k :: 0 <= k < |commits| ==> answer.ids[k] == h[|s.history| + k].id)
      && answer.head == h[|h| - 1].id
  {
  }

  /** An edit of the head adds one commit with those parts after it, under an id of its own. */
  lemma EditIsAdded(s: State, author: string, subject: string, when: string, files: Tree)
    requires Linear(s)
    ensures var h := Step(s, CommitAs(author, subject, when, files)).history;
      && |h| == |s.history| + 1 && s.history <= h && HeadFiles(h) == files
      && Records(h[|s.history|], author, NewCommit(subject, when, []), files)
      && h[|s.history|].id.parent == HeadId(s.history)
      && forall i :: 0 <= i < |s.history| ==> h[i].id != h[|s.history|].id
  {
  }

  /** The trees after each of the pushed commits, from the tree before them. */
  function Trees(base: Tree, commits: seq<NewCommit>): seq<Tree> {
    if commits == [] then []
    else
      var before := Trees(base, commits[..|commits| - 1]);
      var last := if before == [] then base else before[|before| - 1];
      before + [Applied(last, commits[|commits| - 1].changes)]
  }

  predicate RecordsAll(added: seq<Commit>, author: string, commits: seq<NewCommit>, trees: seq<Tree>) {
    |added| == |commits| == |trees| && forall i :: 0 <= i < |added| ==> Records(added[i], author, commits[i], trees[i])
  }

  lemma RecordsOneMore(added: seq<Commit>, author: string, commits: seq<NewCommit>, trees: seq<Tree>, c: Commit)
    requires commits != [] && |trees| == |commits|
    requires RecordsAll(added, author, commits[..|commits| - 1], trees[..|trees| - 1])
    requires Records(c, author, commits[|commits| - 1], trees[|trees| - 1])
    ensures RecordsAll(added + [c], author, commits, trees)
  {
  }

  /** What a push adds: its commits in order, each with the tree its changes make of the one before. */
  lemma {:induction false} PushAddsCommits(s: State, author: string, commits: seq<NewCommit>)
    ensures var t, trees := AppendAll(s, author, commits), Trees(HeadFiles(s.history), commits);
      && RecordsAll(t.history[|s.history|..], author, commits, trees)
      && HeadFiles(t.history) == if trees == [] then HeadFiles(s.history) else trees[|trees| - 1]
  {
    if commits != [] {
      var front := commits[..|commits| - 1];
      PushAddsCommits(s, author, front);
      var before, t := AppendAll(s, author, front), AppendAll(s, author, commits);
      var trees := Trees(HeadFiles(s.history), commits);
      assert trees[..|trees| - 1] == Trees(HeadFiles(s.history), front);
      var c := t.history[|before.history|];
      RecordsOneMore(before.history[|s.history|..], author, commits, trees, c);
      assert t.history[|s.history|..] == before.history[|s.history|..] + [c];
    }
  }

  predicate Records(c: Commit, author: string, made: NewCommit, files: Tree) {
    c.author == author && c.subject == made.subject && c.when == made.when && c.files == files
  }

  lemma HeadMovesOn(h: seq<Commit>, u: State)
    requires Linear(u) && h <= u.history && |h| < |u.history|
    ensures HeadId(u.history) != HeadId(h)
  {
    if h != [] {
      assert h[|h| - 1] == u.history[|h| - 1];
      assert u.history[|h| - 1].id.number < u.history[|u.history| - 1].id.number;
    }
  }

  /** Of two pushes for one head only the first counts, whatever happens in between. */
  lemma SecondPushIsRejected(s: State, parent: Option<CommitId>, es: seq<Event>, role: Role, author: string,
                             commits: seq<NewCommit>,
                             role': Role, author': string, commits': seq<NewCommit>)
    requires Linear(s) && PushAnswerOf(s, role, author, parent, commits).Created?
    ensures var u := Execute(Step(s, Push(role, author, parent, commits)), es);
      && Step(u, Push(role', author', parent, commits')) == u
      && (PushAnswerOf(u, role', author', parent, commits').Rejected? <==> role' != Viewer && commits' != [])
  {
    var t := AppendAll(s, author, commits);
    AppendAllKeepsLinear(s, author, commits);
    HistoryStaysLinear(t, es);
    HistoryOnlyGrows(t, es);
    PrefixesChain(s.history, t.history, Execute(t, es).history);
    HeadMovesOn(s.history, Execute(t, es));
    WhenPushCounts(Execute(t, es), role', author', parent, commits');
  }

  // Replicas

  /** Where a commit is in the history. */
  function IndexOf(h: seq<Commit>, id: CommitId): (i: Option<nat>)
    ensures i.Some? ==> i.value < |h| && h[i.value].id == id
    ensures i.None? ==> forall j :: 0 <= j < |h| ==> h[j].id != id
  {
    if h == [] then None
    else if h[0].id == id then Some(0)
    else
      var later := IndexOf(h[1..], id);
      if later.None? then None else Some(later.value + 1)
  }

  function FilesAt(h: seq<Commit>, i: Option<nat>): Tree
    requires i.Some? ==> i.value < |h|
  {
    if i.None? then map[] else h[i.value].files
  }

  lemma {:induction false} FindsItself(s: State, i: nat)
    requires Linear(s) && i < |s.history|
    ensures IndexOf(s.history, s.history[i].id) == Some(i)
  {
    IdsAreDistinct(s, IndexOf(s.history, s.history[i].id).GetOr(i), i);
  }

  datatype ChangesAnswer = ChangesAnswer(from: Option<CommitId>, to: CommitId, files: seq<Change>)

  /** What `changes` answers: an unknown commit, one that is no ancestor, or the differences between two commits. */
  ghost predicate AnswersChanges(h: seq<Commit>, from: Option<CommitId>, to: Option<CommitId>,
                                 r: Result<ChangesAnswer, ChangesError>) {
    var i := if from.Some? then IndexOf(h, from.value) else None;
    var j := if to.Some? then IndexOf(h, to.value) else None;
    if j.None? || (from.Some? && i.None?) then r == Err(UnknownCommit)
    else if i.Some? && i.value > j.value then r == Err(NotAncestor)
    else r.Ok? && r.value.from == from && Some(r.value.to) == to && IsDiff(FilesAt(h, i), FilesAt(h, j), r.value.files)
  }

  /**
   A replica at any commit the server had once, or at none, that later asks for the changes to any later commit and
   applies the answer has that commit's snapshot.
   */
  lemma ReplicaCatchesUp(s: State, es: seq<Event>, at: Option<nat>, to: nat, r: Result<ChangesAnswer, ChangesError>)
    requires Linear(s) && (at.Some? ==> at.value < |s.history|)
    requires to < |Execute(s, es).history| && (at.Some? ==> at.value <= to)
    requires var h := Execute(s, es).history;
      AnswersChanges(h, if at.Some? then Some(s.history[at.value].id) else None, Some(h[to].id), r)
    ensures r.Ok? && Applied(FilesAt(s.history, at), r.value.files) == Execute(s, es).history[to].files
  {
    var u := Execute(s, es);
    HistoryStaysLinear(s, es);
    HistoryOnlyGrows(s, es);
    FindsItself(u, to);
    if at.Some? {
      assert u.history[at.value] == s.history[at.value];
      FindsItself(u, at.value);
    }
    DiffReaches(FilesAt(u.history, at), u.history[to].files, r.value.files);
  }

  predicate IsKnown(h: seq<Commit>, id: Option<CommitId>) {
    exists i :: 0 <= i < |h| && Some(h[i].id) == id
  }

  /** An answer is refused as unknown exactly for a target, or a start, that no commit has as its id. */
  lemma UnknownIsRefused(h: seq<Commit>, from: Option<CommitId>, to: Option<CommitId>,
                         r: Result<ChangesAnswer, ChangesError>)
    requires AnswersChanges(h, from, to, r)
    ensures r == Err(UnknownCommit) <==> !IsKnown(h, to) || (from.Some? && !IsKnown(h, from))
  {
    forall id: Option<CommitId> | id.Some? ensures IndexOf(h, id.value).Some? <==> IsKnown(h, id) {
      if IndexOf(h, id.value).Some? { assert Some(h[IndexOf(h, id.value).value].id) == id; }
    }
  }

  /** And asking the other way round is refused: a commit after the one asked for is no ancestor of it. */
  lemma LaterIsNoAncestor(s: State, i: nat, j: nat, r: Result<ChangesAnswer, ChangesError>)
    requires Linear(s) && j < i < |s.history|
    requires AnswersChanges(s.history, Some(s.history[i].id), Some(s.history[j].id), r)
    ensures r == Err(NotAncestor)
  {
    FindsItself(s, i);
    FindsItself(s, j);
  }

  /** How many commits a replica lacks: all of them, for a commit that is unknown. */
  function Behind(h: seq<Commit>, from: Option<CommitId>): nat {
    var i := if from.None? then None else IndexOf(h, from.value);
    if i.None? then |h| else |h| - i.value - 1
  }

  /** For a known commit it is exactly how many came after it, which is none just when it is the head. */
  lemma BehindCounts(s: State, i: nat)
    requires Linear(s) && i < |s.history|
    ensures Behind(s.history, Some(s.history[i].id)) == |s.history[i + 1..]|
    ensures Behind(s.history, Some(s.history[i].id)) == 0 <==> HeadId(s.history) == Some(s.history[i].id)
  {
    FindsItself(s, i);
    if s.history[|s.history| - 1].id == s.history[i].id { IdsAreDistinct(s, i, |s.history| - 1); }
  }

  /** With no commit, or one the server does not know, it is the whole history. */
  lemma UnknownIsBehindAll(h: seq<Commit>, from: Option<CommitId>)
    requires forall i :: 0 <= i < |h| ==> Some(h[i].id) != from
    ensures Behind(h, from) == |h|
  {
  }

  // The server as it runs

  class Server {
    const workspace: string
    var history: seq<Commit>
    var number: nat

    function Model(): State
      reads this
    {
      State(workspace, history, number)
    }

    constructor (workspace: string)
      ensures Model() == State(workspace, [], 0) && Linear(Model())
    {
      this.workspace, history, number := workspace, [], 0;
    }

    method AppendCommit(author: string, subject: string, when: string, files: Tree) returns (id: CommitId)
      modifies this`history, this`number
      ensures Model() == Append(old(Model()), author, subject, when, files)
      ensures Some(id) == HeadId(history)
    {
      var parent := if |history| == 0 then None else Some(history[|history| - 1].id);
      id := CommitId(workspace, parent, subject, when, number);
      number := number + 1;
      history := history + [Commit(id, subject, author, when, files)];
    }

    method AppendCommits(author: string, commits: seq<NewCommit>) returns (ids: seq<CommitId>)
      modifies this`history, this`number
      ensures Model() == AppendAll(old(Model()), author, commits)
      ensures ids == Ids(history[|old(history)|..])
    {
      ghost var before := Model();
      ids := [];
      for i := 0 to |commits|
        invariant Model() == AppendAll(before, author, commits[..i])
        invariant ids == Ids(history[|before.history|..])
      {
        assert commits[..i + 1][..i] == commits[..i];
        ghost var was := history;
        var files := ApplyChanges(HeadFiles(history), commits[i].changes);
        var id := AppendCommit(author, commits[i].subject, commits[i].when, files);
        IdsGrow(before.history, was, history);
        ids := ids + [id];
      }
      assert commits[..|commits|] == commits;
    }

    /** `POST commits`. */
    method PushCommits(role: Role, author: string, parent: Option<CommitId>,
                       commits: seq<NewCommit>) returns (answer: PushAnswer)
      modifies this`history, this`number
      ensures answer == PushAnswerOf(old(Model()), role, author, parent, commits)
      ensures Model() == Step(old(Model()), Push(role, author, parent, commits))
    {
      if role == Viewer {
        return Forbidden;
      }
      if |commits| == 0 {
        return Invalid;
      }
      if parent != HeadId(history) {
        return Rejected;
      }
      var ids := AppendCommits(author, commits);
      answer := Created(history[|history| - 1].id, ids);
    }

    /** `GET changes`. */
    method Changes(from: Option<CommitId>, to: Option<CommitId>) returns (r: Result<ChangesAnswer, ChangesError>)
      ensures AnswersChanges(history, from, to, r)
    {
      var i := if from.Some? then IndexOf(history, from.value) else None;
      var j := if to.Some? then IndexOf(history, to.value) else None;
      if j.None? || (from.Some? && i.None?) {
        return Err(UnknownCommit);
      }
      if i.Some? && i.value > j.value {
        return Err(NotAncestor);
      }
      var files := DiffTrees(FilesAt(history, i), FilesAt(history, j));
      r := Ok(ChangesAnswer(from, to.value, files));
    }
  }

  lemma IdsGrow(before: seq<Commit>, was: seq<Commit>, now: seq<Commit>)
    requires |before| <= |was| && |now| == |was| + 1 && was <= now
    ensures Ids(now[|before|..]) == Ids(was[|before|..]) + [now[|was|].id]
  {
    assert now[|before|..] == was[|before|..] + [now[|was|]];
  }
}
