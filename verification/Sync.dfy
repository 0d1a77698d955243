/** Trees of files and their differences, as the in-memory server syncs them (`e2e/helpers/fake-server.ts`). */
module Sync {
  import opened Wrappers
  import opened Sorting

  datatype Encoding = Utf8 | Base64
  datatype File = File(encoding: Encoding, content: string)
  type Tree = map<string, File>
  /** `None` as the content deletes the path. */
  datatype Change = Change(path: string, encoding: Encoding, content: Option<string>)

  // Trees

  function ApplyOne(base: Tree, c: Change): Tree {
    if c.content.None? then base - {c.path} else base[c.path := File(c.encoding, c.content.value)]
  }

  /** `base` with the changes applied, one after another. */
  function Applied(base: Tree, changes: seq<Change>): Tree {
    if changes == [] then base else ApplyOne(Applied(base, changes[..|changes| - 1]), changes[|changes| - 1])
  }

  predicate Differs(from: Tree, to: Tree, path: string) {
    (path in from || path in to) && !(path in from && path in to && from[path] == to[path])
  }

  /** What a path's difference says: its file in `to`, or its deletion. */
  predicate Tells(from: Tree, to: Tree, c: Change) {
    && Differs(from, to, c.path)
    && c == if c.path in to then Change(c.path, to[c.path].encoding, Some(to[c.path].content))
            else Change(c.path, from[c.path].encoding, None)
  }

  ghost predicate ByPath(changes: seq<Change>) {
    forall i, j :: 0 <= i < j < |changes| ==> TextLess(changes[i].path, changes[j].path)
  }

  /** The differences from `from` to `to`: each differing path once, in order, and no other. */
  ghost predicate IsDiff(from: Tree, to: Tree, changes: seq<Change>) {
    && ByPath(changes)
    && (forall i :: 0 <= i < |changes| ==> Tells(from, to, changes[i]))
    && (forall path :: Differs(from, to, path) ==> Lists(changes, path))
  }

  predicate Lists(changes: seq<Change>, path: string) {
    exists i :: 0 <= i < |changes| && changes[i].path == path
  }

  /** Applying changes with distinct paths sets exactly those paths. */
  lemma {:induction false} AppliedAt(base: Tree, changes: seq<Change>, path: string)
    requires forall i, j :: 0 <= i < j < |changes| ==> changes[i].path != changes[j].path
    ensures !Lists(changes, path) ==>
              (path in Applied(base, changes) <==> path in base)
                && (path in base ==> Applied(base, changes)[path] == base[path])
    ensures forall i :: 0 <= i < |changes| && changes[i].path == path ==>
              (path in Applied(base, changes) <==> changes[i].content.Some?)
              && (changes[i].content.Some? ==>
                    Applied(base, changes)[path] == File(changes[i].encoding, changes[i].content.value))
  {
    if changes != [] {
      var front := changes[..|changes| - 1];
      AppliedAt(base, front, path);
      if Lists(front, path) {
        var k :| 0 <= k < |front| && front[k].path == path;
        assert changes[k].path == path;
      }
      forall i | 0 <= i < |front| ensures changes[i] == front[i] { }
      if Lists(changes, path) && !Lists(front, path) {
        var k :| 0 <= k < |changes| && changes[k].path == path;
        assert k < |front| ==> front[k].path == path;
      }
    }
  }

  lemma OrderIsDistinct(changes: seq<Change>)
    requires ByPath(changes)
    ensures forall i, j :: 0 <= i < j < |changes| ==> changes[i].path != changes[j].path
  {
    forall i, j | 0 <= i < j < |changes| ensures changes[i].path != changes[j].path {
      TextLessTotal(changes[i].path, changes[j].path);
      assert TextLess(changes[i].path, changes[j].path);
    }
  }

  /** Sync converges: applying the differences from a tree to another gives the other. */
  lemma DiffReaches(from: Tree, to: Tree, changes: seq<Change>)
    requires IsDiff(from, to, changes)
    ensures Applied(from, changes) == to
  {
    OrderIsDistinct(changes);
    var got := Applied(from, changes);
    forall path ensures (path in got <==> path in to) && (path in to ==> got[path] == to[path]) {
      AppliedAt(from, changes, path);
      if Lists(changes, path) {
        var i :| 0 <= i < |changes| && changes[i].path == path;
        assert Tells(from, to, changes[i]);
      } else {
        assert !Differs(from, to, path);
      }
    }
  }

  lemma PathsAreListed(changes: seq<Change>, path: string)
    ensures path in Paths(changes) <==> Lists(changes, path)
  {
    if i :| 0 <= i < |changes| && changes[i].path == path { assert Paths(changes)[i] == path; }
    if i :| 0 <= i < |Paths(changes)| && Paths(changes)[i] == path { assert changes[i].path == path; }
  }

  lemma DiffLists(from: Tree, to: Tree, changes: seq<Change>, path: string)
    requires IsDiff(from, to, changes)
    ensures Lists(changes, path) <==> Differs(from, to, path)
  {
    if i :| 0 <= i < |changes| && changes[i].path == path { assert Tells(from, to, changes[i]); }
  }

  /** There is one such list only: it does not depend on the order in which the trees hold their files. */
  lemma DiffIsUnique(from: Tree, to: Tree, a: seq<Change>, b: seq<Change>)
    requires IsDiff(from, to, a) && IsDiff(from, to, b)
    ensures a == b
  {
    TextIsOrdered();
    var p, q := Paths(a), Paths(b);
    forall path ensures path in p <==> path in q {
      PathsAreListed(a, path);
      PathsAreListed(b, path);
      DiffLists(from, to, a, path);
      DiffLists(from, to, b, path);
    }
    IncreasingUnique(TextLess, p, q);
    forall i | 0 <= i < |a| ensures a[i] == b[i] {
      assert p[i] == q[i];
      assert Tells(from, to, a[i]) && Tells(from, to, b[i]);
    }
  }

  function Paths(changes: seq<Change>): seq<string> {
    seq(|changes|, i requires 0 <= i < |changes| => changes[i].path)
  }

  lemma TextIsOrdered()
    ensures StrictOrder(TextLess)
  {
    forall x, y, z | TextLess(x, y) && TextLess(y, z) ensures TextLess(x, z) { TextLessTransitive(x, y, z); }
    forall x, y ensures !TextLess(x, x) && (x != y ==> TextLess(x, y) || TextLess(y, x)) { TextLessTotal(x, y); }
  }

  // The loops

  method ApplyChanges(base: Tree, changes: seq<Change>) returns (next: Tree)
    ensures next == Applied(base, changes)
  {
    next := base;
    for i := 0 to |changes|
      invariant next == Applied(base, changes[..i])
    {
      assert changes[..i + 1][..i] == changes[..i];
      var c := changes[i];
      if c.content.None? {
        next := next - {c.path};
      } else {
        next := next[c.path := File(c.encoding, c.content.value)];
      }
    }
    assert changes[..|changes|] == changes;
  }

  /** Puts a change where its path belongs. */
  method Place(sorted: seq<Change>, c: Change) returns (r: seq<Change>)
    requires ByPath(sorted) && !Lists(sorted, c.path)
    ensures ByPath(r) && forall d :: d in r <==> d in sorted || d == c
  {
    var i := 0;
    while i < |sorted| && TextLess(sorted[i].path, c.path)
      invariant i <= |sorted|
      invariant forall j :: 0 <= j < i ==> TextLess(sorted[j].path, c.path)
    {
      i := i + 1;
    }
    if i < |sorted| {
      assert sorted[i].path != c.path;
      TextLessTotal(sorted[i].path, c.path);
    }
    forall j | i < j < |sorted| ensures TextLess(c.path, sorted[j].path) {
      TextLessTransitive(c.path, sorted[i].path, sorted[j].path);
    }
    r := sorted[..i] + [c] + sorted[i..];
  }

  ghost predicate DistinctPaths(changes: seq<Change>) {
    forall i, j :: 0 <= i < j < |changes| ==> changes[i].path != changes[j].path
  }

  method SortByPath(found: seq<Change>) returns (sorted: seq<Change>)
    requires DistinctPaths(found)
    ensures ByPath(sorted) && forall c :: c in sorted <==> c in found
  {
    sorted := [];
    for i := 0 to |found|
      invariant ByPath(sorted) && forall c :: c in sorted <==> c in found[..i]
    {
      forall j | 0 <= j < |sorted| ensures sorted[j].path != found[i].path { assert sorted[j] in found[..i]; }
      sorted := Place(sorted, found[i]);
      assert found[..i + 1] == found[..i] + [found[i]];
    }
    assert found[..|found|] == found;
  }

  /** Every path that differs, as the code finds them: first in `to`, then the deletions, then sorted. */
  method DiffTrees(from: Tree, to: Tree) returns (changes: seq<Change>)
    ensures IsDiff(from, to, changes)
  {
    var found: seq<Change> := [];
    var left := to.Keys;
    while left != {}
      invariant left <= to.Keys && DistinctPaths(found)
      invariant forall i :: 0 <= i < |found| ==>
                Tells(from, to, found[i]) && found[i].path in to && found[i].path !in left
      invariant forall path :: path in to && path !in left && Differs(from, to, path) ==> Lists(found, path)
      decreases left
    {
      var path :| path in left;
      left := left - {path};
      var file := to[path];
      if path !in from || from[path].encoding != file.encoding || from[path].content != file.content {
        ListsMore(found, Change(path, file.encoding, Some(file.content)));
        found := found + [Change(path, file.encoding, Some(file.content))];
      }
    }
    left := from.Keys;
    while left != {}
      invariant left <= from.Keys && DistinctPaths(found)
      invariant forall i :: 0 <= i < |found| ==>
                Tells(from, to, found[i]) && (found[i].path in to || found[i].path !in left)
      invariant forall path :: (path in to || path !in left) && Differs(from, to, path) ==> Lists(found, path)
      decreases left
    {
      var path :| path in left;
      left := left - {path};
      if path !in to {
        ListsMore(found, Change(path, from[path].encoding, None));
        found := found + [Change(path, from[path].encoding, None)];
      }
    }
    changes := SortByPath(found);
    forall i | 0 <= i < |changes| ensures Tells(from, to, changes[i]) { assert changes[i] in found; }
    forall path | Lists(found, path) ensures Lists(changes, path) {
      var i :| 0 <= i < |found| && found[i].path == path;
      assert found[i] in changes;
    }
  }

  lemma ListsMore(found: seq<Change>, c: Change)
    ensures forall path :: Lists(found + [c], path) <==> Lists(found, path) || path == c.path
  {
    var more := found + [c];
    assert more[|found|] == c && forall i :: 0 <= i < |found| ==> more[i] == found[i];
    forall path | Lists(found, path) ensures Lists(more, path) {
      var i :| 0 <= i < |found| && found[i].path == path;
      assert more[i].path == path;
    }
  }
}
