/** How a style sheet is cut into its top-level rules (`scripts/contrast-check.ts`), its comments already blanked. */
module CssBlocks {
  import opened Wrappers

  /** One rule as it stands in the text: what is before its opening brace, and what is between its braces. */
  datatype RawRule = RawRule(selectors: string, body: string)
  datatype Block = Block(body: string, end: nat)

  /** How many braces a text leaves open. */
  function Depth(text: string): int {
    if text == "" then 0 else Step(text[0]) + Depth(text[1..])
  }

  function Step(c: char): int {
    if c == '{' then 1 else if c == '}' then -1 else 0
  }

  /** Every brace in the text is closed in it, and none that was opened before. */
  ghost predicate Balanced(text: string) {
    Depth(text) == 0 && ClosesOwn(text)
  }

  ghost predicate ClosesOwn(text: string) {
    forall i :: 0 <= i <= |text| ==> Depth(text[..i]) >= 0
  }

  ghost predicate WellFormed(rules: seq<RawRule>) {
    forall i :: 0 <= i < |rules| ==> '{' !in rules[i].selectors && Balanced(rules[i].body)
  }

  function Text(rule: RawRule): string {
    rule.selectors + "{" + rule.body + "}"
  }

  /** The rules as text again. */
  function Render(rules: seq<RawRule>): string {
    if rules == [] then "" else Text(rules[0]) + Render(rules[1..])
  }

  /** The text is these rules, and then a rest that opens none. */
  ghost predicate IsSheet(css: string, rules: seq<RawRule>, rest: string) {
    WellFormed(rules) && '{' !in rest && css == Render(rules) + rest
  }

  lemma {:induction false} DepthTogether(a: string, b: string)
    ensures Depth(a + b) == Depth(a) + Depth(b)
  {
    if a == "" {
      assert a + b == b;
    } else {
      DepthTogether(a[1..], b);
      assert (a + b)[1..] == a[1..] + b;
    }
  }

  lemma DepthOf(c: char)
    ensures Depth([c]) == Step(c)
  {
    assert [c][1..] == "";
  }

  /** The text from `open` is an opening brace, a balanced body of this length and its closing brace. */
  ghost predicate IsBlock(css: string, open: nat, body: string) {
    && Balanced(body) && open + |body| + 2 <= |css|
    && css[open] == '{' && css[open + 1..open + 1 + |body|] == body && css[open + 1 + |body|] == '}'
  }

  ghost predicate HasBlock(css: string, open: nat) {
    exists body :: IsBlock(css, open, body)
  }

  /** There is at most one such body: a longer one would close a brace that it did not open. */
  lemma BlockIsUnique(css: string, open: nat, a: string, b: string)
    requires IsBlock(css, open, a) && IsBlock(css, open, b)
    ensures a == b
  {
    if |a| < |b| { LongerIsUnbalanced(css, open, a, b); }
    if |b| < |a| { LongerIsUnbalanced(css, open, b, a); }
  }

  lemma LongerIsUnbalanced(css: string, open: nat, a: string, b: string)
    requires IsBlock(css, open, a) && |a| < |b|
    requires open + |b| + 2 <= |css| && css[open + 1..open + 1 + |b|] == b
    ensures !Balanced(b)
  {
    assert b[..|a| + 1] == a + "}";
    DepthTogether(a, "}");
    DepthOf('}');
  }

  predicate IsFirstBrace(css: string, from: nat, open: nat) {
    from <= open < |css| && css[open] == '{' && forall i :: from <= i < open ==> css[i] != '{'
  }

  method IndexOfBrace(css: string, from: nat) returns (open: Option<nat>)
    requires from <= |css|
    ensures open.Some? ==> IsFirstBrace(css, from, open.value)
    ensures open.None? ==> forall i :: from <= i < |css| ==> css[i] != '{'
  {
    var at := from;
    while at < |css|
      invariant from <= at <= |css| && forall i :: from <= i < at ==> css[i] != '{'
    {
      if css[at] == '{' {
        return Some(at);
      }
      at := at + 1;
    }
    open := None;
  }

  lemma OneMore(inside: string, c: char)
    requires ClosesOwn(inside)
    ensures Depth(inside + [c]) == Depth(inside) + Step(c)
    ensures Depth(inside + [c]) >= 0 ==> ClosesOwn(inside + [c])
  {
    var more := inside + [c];
    DepthTogether(inside, [c]);
    DepthOf(c);
    forall i | 0 <= i <= |more| && Depth(more) >= 0 ensures Depth(more[..i]) >= 0 {
      if i <= |inside| { assert more[..i] == inside[..i]; } else { assert more[..i] == more; }
    }
  }

  /**
   The block of the first brace opened at or after `from`: its body, and where it ends. It fails when no brace is
   opened there, or when the one that is is never closed.
   */
  method BlockBody(css: string, from: nat) returns (r: Option<Block>)
    requires from <= |css|
    ensures r.Some? ==> exists open: nat :: IsFirstBrace(css, from, open) && IsBlock(css, open, r.value.body)
                                            && r.value.end == open + |r.value.body| + 2
    ensures r.None? ==> forall open: nat :: IsFirstBrace(css, from, open) ==> !HasBlock(css, open)
  {
    var first := IndexOfBrace(css, from);
    if first.None? {
      return None;
    }
    var open := first.value;
    var depth := 1;
    var index := open + 1;
    while index < |css|
      invariant open < index <= |css| && depth >= 1
      invariant Depth(css[open + 1..index]) == depth - 1
      invariant ClosesOwn(css[open + 1..index])
    {
      ghost var inside := css[open + 1..index];
      assert css[open + 1..index + 1] == inside + [css[index]];
      OneMore(inside, css[index]);
      if css[index] == '{' {
        depth := depth + 1;
      } else if css[index] == '}' {
        depth := depth - 1;
        if depth == 0 {
          assert IsBlock(css, open, css[open + 1..index]);
          return Some(Block(css[open + 1..index], index + 1));
        }
      }
      index := index + 1;
    }
    forall at: nat | IsFirstBrace(css, from, at) ensures !HasBlock(css, at) {
      FirstIsUnique(css, from, open, at);
      forall body { NeverCloses(css, open, body); }
    }
    r := None;
  }

  lemma FirstIsUnique(css: string, from: nat, a: nat, b: nat)
    requires IsFirstBrace(css, from, a) && IsFirstBrace(css, from, b)
    ensures a == b
  {
  }

  /** A brace after which the depth never falls below its own has no block. */
  lemma NeverCloses(css: string, open: nat, body: string)
    requires open < |css| && ClosesOwn(css[open + 1..|css|])
    ensures !IsBlock(css, open, body)
  {
    if IsBlock(css, open, body) {
      assert css[open + 1..|css|][..|body| + 1] == body + "}";
      DepthTogether(body, "}");
      DepthOf('}');
    }
  }

  /** The rule whose opening brace is the one at `open`, and where it ends. */
  method RuleFrom(css: string, cursor: nat, open: nat) returns (rule: Option<RawRule>, end: nat)
    requires IsFirstBrace(css, cursor, open)
    ensures rule.Some? ==> rule.value.selectors == css[cursor..open] && IsBlock(css, open, rule.value.body)
                           && end == open + |rule.value.body| + 2
    ensures rule.None? ==> !HasBlock(css, open)
  {
    var selectors := css[cursor..open];
    var block := BlockBody(css, open);
    assert IsFirstBrace(css, open, open);
    if block.None? {
      return None, 0;
    }
    ghost var at: nat :| IsFirstBrace(css, open, at)
              && IsBlock(css, at, block.value.body) && block.value.end == at + |block.value.body| + 2;
    FirstIsUnique(css, open, open, at);
    rule, end := Some(RawRule(selectors, block.value.body)), block.value.end;
  }

  /** Every top-level rule, in order; or none, when some block is never closed. */
  method TopLevelRules(css: string) returns (r: Option<seq<RawRule>>)
    ensures r.Some? ==> exists rest :: IsSheet(css, r.value, rest)
    ensures r.None? ==> forall rules, rest :: !IsSheet(css, rules, rest)
  {
    var rules: seq<RawRule> := [];
    var cursor: nat := 0;
    ghost var tail := css;
    assert css == Render(rules) + tail;
    while true
      invariant cursor <= |css| && IsCut(css, rules, cursor, tail)
      decreases |css| - cursor
    {
      var open := IndexOfBrace(css, cursor);
      if open.None? {
        EndsSheet(css, rules, cursor, tail);
        return Some(rules);
      }
      var rule, end := RuleFrom(css, cursor, open.value);
      if rule.None? {
        UnclosedIsNoSheet(css, rules, cursor, tail, open.value);
        return None;
      }
      tail := CutOneMore(css, rules, cursor, tail, open.value, rule.value);
      rules := rules + [rule.value];
      cursor := end;
    }
  }

  /** The text up to the cursor is these rules. */
  ghost predicate IsCut(css: string, rules: seq<RawRule>, cursor: nat, tail: string) {
    WellFormed(rules) && |Render(rules)| == cursor && css == Render(rules) + tail
  }

  lemma EndsSheet(css: string, rules: seq<RawRule>, cursor: nat, tail: string)
    requires IsCut(css, rules, cursor, tail) && forall i :: cursor <= i < |css| ==> css[i] != '{'
    ensures IsSheet(css, rules, tail)
  {
    forall i | 0 <= i < |tail| ensures tail[i] != '{' { assert css[cursor + i] == tail[i]; }
  }

  lemma CutOneMore(css: string, rules: seq<RawRule>, cursor: nat, tail: string, open: nat,
                   rule: RawRule) returns (left: string)
    requires IsCut(css, rules, cursor, tail) && IsFirstBrace(css, cursor, open)
    requires rule.selectors == css[cursor..open] && IsBlock(css, open, rule.body)
    ensures IsCut(css, rules + [rule], open + |rule.body| + 2, left)
  {
    var at := open - cursor;
    var n := at + |rule.body| + 2;
    left := tail[n..];
    PartsOfTail(css, Render(rules), tail, open, rule);
    RenderMore(rules, rule);
    Regroup(Render(rules), Text(rule), left);
  }

  lemma PartsOfTail(css: string, head: string, tail: string, open: nat, rule: RawRule)
    requires css == head + tail && IsFirstBrace(css, |head|, open)
    requires rule.selectors == css[|head|..open] && IsBlock(css, open, rule.body)
    ensures var n := open - |head| + |rule.body| + 2;
      n <= |tail| && tail == Text(rule) + tail[n..] && '{' !in rule.selectors
  {
    var at := open - |head|;
    assert rule.selectors == tail[..at];
    assert rule.body == tail[at + 1..at + 1 + |rule.body|];
    assert tail[at] == css[open] && tail[at + 1 + |rule.body|] == css[open + 1 + |rule.body|];
  }

  lemma Regroup(a: string, b: string, c: string)
    ensures a + (b + c) == (a + b) + c
  {
  }

  lemma {:induction false} RenderMore(rules: seq<RawRule>, rule: RawRule)
    ensures Render(rules + [rule]) == Render(rules) + Text(rule)
  {
    if rules == [] {
      assert rules + [rule] == [rule] && [rule][1..] == [];
      assert Text(rule) + "" == Text(rule) && "" + Text(rule) == Text(rule);
    } else {
      RenderMore(rules[1..], rule);
      assert (rules + [rule])[1..] == rules[1..] + [rule];
      Regroup(Text(rules[0]), Render(rules[1..]), Text(rule));
    }
  }

  // A sheet is cut in one way only

  lemma SplitsAlike(a: string, x: string, b: string, y: string)
    requires a + x == b + y && |a| == |b|
    ensures a == b && x == y
  {
    assert (a + x)[..|a|] == a && (b + y)[..|b|] == b;
    assert (a + x)[|a|..] == x && (b + y)[|b|..] == y;
  }

  lemma RuleAt(rule: RawRule, tail: string)
    requires '{' !in rule.selectors && Balanced(rule.body)
    ensures IsFirstBrace(Text(rule) + tail, 0, |rule.selectors|)
            && IsBlock(Text(rule) + tail, |rule.selectors|, rule.body)
  {
    var text := Text(rule) + tail;
    assert text[0..|rule.selectors|] == rule.selectors;
    assert text[|rule.selectors| + 1..|rule.selectors| + 1 + |rule.body|] == rule.body;
  }

  /** Two texts that start with a rule start with the same one. */
  lemma SameFirstRule(a: RawRule, x: string, b: RawRule, y: string)
    requires '{' !in a.selectors && Balanced(a.body) && '{' !in b.selectors && Balanced(b.body)
    requires Text(a) + x == Text(b) + y
    ensures a == b && x == y
  {
    var text := Text(a) + x;
    RuleAt(a, x);
    RuleAt(b, y);
    FirstIsUnique(text, 0, |a.selectors|, |b.selectors|);
    BlockIsUnique(text, |a.selectors|, a.body, b.body);
    assert text[0..|a.selectors|] == a.selectors && text[0..|b.selectors|] == b.selectors;
    SplitsAlike(Text(a), x, Text(b), y);
  }

  lemma OpensRule(text: string, open: nat, others: seq<RawRule>, rest: string)
    requires text == Render(others) + rest && '{' !in rest && IsFirstBrace(text, 0, open)
    ensures others != []
  {
    assert "" + rest == rest;
  }

  /** What a sheet with rules begins with. */
  lemma BeginsWith(rules: seq<RawRule>, rest: string)
    requires rules != []
    ensures Render(rules) + rest == Text(rules[0]) + (Render(rules[1..]) + rest)
  {
    Regroup(Text(rules[0]), Render(rules[1..]), rest);
  }

  lemma {:induction false} RulesComeFirst(rules: seq<RawRule>, tail: string, others: seq<RawRule>, rest: string)
    requires WellFormed(rules) && WellFormed(others) && '{' !in rest
    requires Render(rules) + tail == Render(others) + rest
    ensures |rules| <= |others| && others[..|rules|] == rules && tail == Render(others[|rules|..]) + rest
  {
    if rules == [] {
      assert "" + tail == tail;
      assert others[0..] == others;
    } else {
      BeginsWith(rules, tail);
      RuleAt(rules[0], Render(rules[1..]) + tail);
      OpensRule(Render(rules) + tail, |rules[0].selectors|, others, rest);
      BeginsWith(others, rest);
      SameFirstRule(rules[0], Render(rules[1..]) + tail, others[0], Render(others[1..]) + rest);
      RulesComeFirst(rules[1..], tail, others[1..], rest);
      SameFromHere(rules, others);
    }
  }

  lemma SameFromHere(rules: seq<RawRule>, others: seq<RawRule>)
    requires rules != [] && others != [] && rules[0] == others[0] && |rules| <= |others|
    requires others[1..][..|rules| - 1] == rules[1..]
    ensures others[..|rules|] == rules && others[|rules|..] == others[1..][|rules| - 1..]
  {
    assert others == [others[0]] + others[1..] && rules == [rules[0]] + rules[1..];
    assert others[..|rules|] == [others[0]] + others[1..][..|rules| - 1];
  }

  /** The rules of a sheet, rendered and read again, are the same rules: no text is two sheets. */
  lemma SheetIsUnique(css: string, rules: seq<RawRule>, rest: string, others: seq<RawRule>, rest': string)
    requires IsSheet(css, rules, rest) && IsSheet(css, others, rest')
    ensures rules == others && rest == rest'
  {
    RulesComeFirst(rules, rest, others, rest');
    RulesComeFirst(others, rest', rules, rest);
    assert others[..|rules|] == others;
    assert others[|rules|..] == [];
    assert "" + rest' == rest';
  }

  /** A block in what is left of a text is one in the text. */
  lemma BlockInTail(head: string, tail: string, at: nat)
    requires HasBlock(tail, at)
    ensures HasBlock(head + tail, |head| + at)
  {
    var body :| IsBlock(tail, at, body);
    var open := |head| + at;
    assert (head + tail)[open + 1..open + 1 + |body|] == tail[at + 1..at + 1 + |body|];
    assert IsBlock(head + tail, open, body);
  }

  /** A text that begins with rules opens its first brace at a block. */
  lemma FirstBraceIsBlock(text: string, rules: seq<RawRule>, rest: string, open: nat)
    requires WellFormed(rules) && '{' !in rest && text == Render(rules) + rest && IsFirstBrace(text, 0, open)
    ensures HasBlock(text, open)
  {
    OpensRule(text, open, rules, rest);
    BeginsWith(rules, rest);
    RuleAt(rules[0], Render(rules[1..]) + rest);
    FirstIsUnique(text, 0, open, |rules[0].selectors|);
  }

  /** What follows the first rules of a sheet is the other rules. */
  lemma RestOfSheet(css: string, rules: seq<RawRule>, tail: string, others: seq<RawRule>, rest: string)
    requires WellFormed(rules) && css == Render(rules) + tail && IsSheet(css, others, rest)
    ensures |rules| <= |others| && WellFormed(others[|rules|..]) && tail == Render(others[|rules|..]) + rest
  {
    RulesComeFirst(rules, tail, others, rest);
  }

  /** A brace that is never closed is the end of every attempt to read the text as a sheet. */
  lemma UnclosedIsNoSheet(css: string, rules: seq<RawRule>, cursor: nat, tail: string, open: nat)
    requires IsCut(css, rules, cursor, tail) && IsFirstBrace(css, cursor, open) && !HasBlock(css, open)
    ensures forall others, rest :: !IsSheet(css, others, rest)
  {
    var at := open - cursor;
    TailIsUnclosed(Render(rules), tail, at);
    forall others, rest | IsSheet(css, others, rest) ensures false {
      RestOfSheet(css, rules, tail, others, rest);
      FirstBraceIsBlock(tail, others[|rules|..], rest, at);
    }
  }

  lemma TailIsUnclosed(head: string, tail: string, at: nat)
    requires IsFirstBrace(head + tail, |head|, |head| + at) && !HasBlock(head + tail, |head| + at)
    ensures IsFirstBrace(tail, 0, at) && !HasBlock(tail, at)
  {
    forall i | 0 <= i <= at ensures tail[i] == (head + tail)[|head| + i] { }
    if HasBlock(tail, at) { BlockInTail(head, tail, at); }
  }
}
