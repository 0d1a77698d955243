/**
 The cascade that decides a theme's tokens, and the check for tokens that leak from a palette's dark block into light
 mode (`scripts/contrast-check.ts`). A rule is given by its selectors and its declarations, as read from its text.
 */
module Cascade {
  import opened Wrappers
  import opened Sorting

  /** The values of the root element's two attributes that a selector can ask for. */
  datatype Attribute = Theme(value: string) | Palette(value: string)
  /** `:root`, if it is there, and then its attribute parts; any other selector is `Other`. */
  datatype Selector = Root(pseudo: bool, parts: seq<Attribute>) | Other(text: string)
  datatype Rule = Rule(selectors: seq<Selector>, declarations: map<string, string>)
  /** What the document's root carries; the default palette puts no attribute there. */
  datatype Attributes = Attributes(theme: string, palette: string)

  const DEFAULT_PALETTE := "default"

  predicate Carries(on: Attributes, part: Attribute) {
    match part
    case Theme(value) => value == on.theme
    case Palette(value) => on.palette != DEFAULT_PALETTE && value == on.palette
  }

  /** How specific a selector is, if it matches the root: its number of parts. The empty selector matches nothing. */
  function Specificity(selector: Selector, on: Attributes): Option<nat> {
    if selector.Other? || (!selector.pseudo && selector.parts == []) then None
    else if exists i :: 0 <= i < |selector.parts| && !Carries(on, selector.parts[i]) then None
    else Some((if selector.pseudo then 1 else 0) + |selector.parts|)
  }

  /** The highest specificity among a rule's selectors that match. */
  function RuleSpecificity(selectors: seq<Selector>, on: Attributes): Option<nat> {
    if selectors == [] then None
    else
      var before := RuleSpecificity(selectors[..|selectors| - 1], on);
      var last := Specificity(selectors[|selectors| - 1], on);
      if last.None? || (before.Some? && last.value <= before.value) then before else last
  }

  // The cascade, stated directly

  /** The rule matches and sets the token. */
  predicate Sets(rules: seq<Rule>, on: Attributes, token: string, i: nat) {
    i < |rules| && RuleSpecificity(rules[i].selectors, on).Some? && token in rules[i].declarations
  }

  /**
   The rule that decides a token: of those that match and set it, the one with the greatest specificity, the later of
   equals.
   */
  ghost predicate Decides(rules: seq<Rule>, on: Attributes, token: string, w: nat) {
    && Sets(rules, on, token, w)
    && forall i: nat :: Sets(rules, on, token, i) ==> Beats(rules, on, i, w)
  }

  predicate Beats(rules: seq<Rule>, on: Attributes, i: nat, w: nat)
    requires i < |rules| && w < |rules|
    requires RuleSpecificity(rules[i].selectors, on).Some? && RuleSpecificity(rules[w].selectors, on).Some?
  {
    var a, b := RuleSpecificity(rules[i].selectors, on).value, RuleSpecificity(rules[w].selectors, on).value;
    a < b || (a == b && i <= w)
  }

  /** Each token that a matching rule sets has the value its deciding rule gives it, and there are no others. */
  ghost predicate IsResolved(rules: seq<Rule>, on: Attributes, resolved: map<string, string>) {
    && (forall token :: token in resolved <==> exists i: nat :: Sets(rules, on, token, i))
    && (forall token, w: nat :: Decides(rules, on, token, w) ==> resolved[token] == rules[w].declarations[token])
  }

  /** One rule at most decides a token. */
  lemma OneDecides(rules: seq<Rule>, on: Attributes, token: string, v: nat, w: nat)
    requires Decides(rules, on, token, v) && Decides(rules, on, token, w)
    ensures v == w
  {
    assert Beats(rules, on, v, w) && Beats(rules, on, w, v);
  }

  // Rules in the order they apply

  datatype Match = Match(specificity: nat, index: nat)

  predicate Before(a: Match, b: Match) {
    a.specificity < b.specificity || (a.specificity == b.specificity && a.index < b.index)
  }

  ghost predicate IsMatch(rules: seq<Rule>, on: Attributes, m: Match) {
    m.index < |rules| && RuleSpecificity(rules[m.index].selectors, on) == Some(m.specificity)
  }

  /** The matching rules, each once, from the least to the most specific and each of equals after the earlier ones. */
  ghost predicate IsOrder(rules: seq<Rule>, on: Attributes, order: seq<Match>) {
    && (forall k :: 0 <= k < |order| ==> IsMatch(rules, on, order[k]))
    && (forall m :: IsMatch(rules, on, m) ==> m in order)
    && (forall j, k :: 0 <= j < k < |order| ==> Before(order[j], order[k]))
  }

  /** The last of these rules that sets the token. */
  function LastSetter(rules: seq<Rule>, order: seq<Match>, token: string): Option<nat>
    requires forall k :: 0 <= k < |order| ==> order[k].index < |rules|
  {
    if order == [] then None
    else
      var last := order[|order| - 1].index;
      if token in rules[last].declarations then Some(last) else LastSetter(rules, order[..|order| - 1], token)
  }

  lemma {:induction false} LastSetterIsLast(rules: seq<Rule>, order: seq<Match>, token: string)
    requires forall k :: 0 <= k < |order| ==> order[k].index < |rules|
    ensures var w := LastSetter(rules, order, token);
      && (w.None? <==> forall k :: 0 <= k < |order| ==> token !in rules[order[k].index].declarations)
      && (w.Some? ==> exists k: nat :: IsLastAt(rules, order, token, k) && order[k].index == w.value)
  {
    if order != [] {
      var front := order[..|order| - 1];
      LastSetterIsLast(rules, front, token);
      assert forall k :: 0 <= k < |front| ==> front[k] == order[k];
      if token in rules[order[|order| - 1].index].declarations {
        assert IsLastAt(rules, order, token, |order| - 1);
      } else if LastSetter(rules, front, token).Some? {
        var k: nat :| IsLastAt(rules, front, token, k) && front[k].index == LastSetter(rules, front, token).value;
        assert IsLastAt(rules, order, token, k);
      }
    }
  }

  predicate IsLastAt(rules: seq<Rule>, order: seq<Match>, token: string, k: nat)
    requires forall j :: 0 <= j < |order| ==> order[j].index < |rules|
  {
    && k < |order| && token in rules[order[k].index].declarations
    && forall j :: k < j < |order| ==> token !in rules[order[j].index].declarations
  }

  lemma LastBeatsAll(rules: seq<Rule>, on: Attributes, order: seq<Match>, token: string, k: nat, i: nat)
    requires IsOrder(rules, on, order) && IsLastAt(rules, order, token, k) && Sets(rules, on, token, i)
    ensures Sets(rules, on, token, order[k].index) && Beats(rules, on, i, order[k].index)
  {
    SetterIsInOrder(rules, on, order, token, i);
    var j :| 0 <= j < |order| && order[j].index == i;
    assert IsMatch(rules, on, order[j]) && IsMatch(rules, on, order[k]);
    assert j <= k;
    if j < k { assert Before(order[j], order[k]); }
  }

  /** Applied in that order, the last rule that sets a token is the one that decides it. */
  lemma LastSetterDecides(rules: seq<Rule>, on: Attributes, order: seq<Match>, token: string)
    requires IsOrder(rules, on, order)
    ensures var w := LastSetter(rules, order, token);
      && (w.Some? <==> exists i: nat :: Sets(rules, on, token, i))
      && (w.Some? ==> Decides(rules, on, token, w.value))
  {
    LastSetterIsLast(rules, order, token);
    var w := LastSetter(rules, order, token);
    if w.Some? {
      var k: nat :| IsLastAt(rules, order, token, k) && order[k].index == w.value;
      assert IsMatch(rules, on, order[k]);
      assert Sets(rules, on, token, w.value);
      forall i: nat | Sets(rules, on, token, i) ensures Beats(rules, on, i, w.value) {
        LastBeatsAll(rules, on, order, token, k, i);
      }
    } else if i: nat :| Sets(rules, on, token, i) {
      SetterIsInOrder(rules, on, order, token, i);
    }
  }

  lemma SetterIsInOrder(rules: seq<Rule>, on: Attributes, order: seq<Match>, token: string, i: nat)
    requires IsOrder(rules, on, order) && Sets(rules, on, token, i)
    ensures exists k :: 0 <= k < |order| && order[k].index == i
  {
    var m := Match(RuleSpecificity(rules[i].selectors, on).value, i);
    assert IsMatch(rules, on, m);
    var k :| 0 <= k < |order| && order[k] == m;
  }

  function Matches(rules: seq<Rule>, on: Attributes): seq<Match> {
    if rules == [] then []
    else
      var n := |rules| - 1;
      var specificity := RuleSpecificity(rules[n].selectors, on);
      Matches(rules[..n], on) + if specificity.None? then [] else [Match(specificity.value, n)]
  }

  lemma {:induction false} MatchesAre(rules: seq<Rule>, on: Attributes, m: Match)
    ensures m in Matches(rules, on) <==> IsMatch(rules, on, m)
  {
    if rules != [] {
      var n := |rules| - 1;
      MatchesAre(rules[..n], on, m);
      assert m.index < n ==> rules[..n][m.index] == rules[m.index];
    }
  }

  lemma BeforeIsOrder()
    ensures StrictOrder(Before)
  {
  }

  lemma OrderIsOrder(rules: seq<Rule>, on: Attributes)
    ensures IsOrder(rules, on, Sort(Before, Matches(rules, on)))
  {
    var matches := Matches(rules, on);
    BeforeIsOrder();
    SortSorts(Before, matches);
    forall m ensures m in matches <==> IsMatch(rules, on, m) { MatchesAre(rules, on, m); }
    forall k | 0 <= k < |Sort(Before, matches)| ensures IsMatch(rules, on, Sort(Before, matches)[k]) {
      assert Sort(Before, matches)[k] in matches;
    }
  }

  /** A token that some matching rule sets is decided by one. */
  lemma SomeDecides(rules: seq<Rule>, on: Attributes, token: string, i: nat) returns (w: nat)
    requires Sets(rules, on, token, i)
    ensures Decides(rules, on, token, w)
  {
    var order := Sort(Before, Matches(rules, on));
    OrderIsOrder(rules, on);
    LastSetterDecides(rules, on, order, token);
    w := LastSetter(rules, order, token).value;
  }

  // As it runs

  method RootSpecificity(selector: Selector, on: Attributes) returns (specificity: Option<nat>)
    ensures specificity == Specificity(selector, on)
  {
    if selector.Other? || (!selector.pseudo && selector.parts == []) {
      return None;
    }
    var count := if selector.pseudo then 1 else 0;
    for i := 0 to |selector.parts|
      invariant count == (if selector.pseudo then 1 else 0) + i
      invariant forall j :: 0 <= j < i ==> Carries(on, selector.parts[j])
    {
      if !Carries(on, selector.parts[i]) {
        return None;
      }
      count := count + 1;
    }
    specificity := Some(count);
  }

  method HighestSpecificity(selectors: seq<Selector>, on: Attributes) returns (highest: Option<nat>)
    ensures highest == RuleSpecificity(selectors, on)
  {
    highest := None;
    for i := 0 to |selectors|
      invariant highest == RuleSpecificity(selectors[..i], on)
    {
      assert selectors[..i + 1][..i] == selectors[..i];
      var one := RootSpecificity(selectors[i], on);
      if one.Some? && (highest.None? || one.value > highest.value) {
        highest := one;
      }
    }
    assert selectors[..|selectors|] == selectors;
  }

  method MatchingRules(rules: seq<Rule>, on: Attributes) returns (matching: seq<Match>)
    ensures matching == Matches(rules, on)
  {
    matching := [];
    for i := 0 to |rules|
      invariant matching == Matches(rules[..i], on)
    {
      assert rules[..i + 1][..i] == rules[..i];
      var specificity := HighestSpecificity(rules[i].selectors, on);
      if specificity.Some? {
        matching := matching + [Match(specificity.value, i)];
      }
    }
    assert rules[..|rules|] == rules;
  }

  /** Every token as the browser resolves it. */
  method ResolvePalette(rules: seq<Rule>, on: Attributes) returns (resolved: map<string, string>)
    ensures IsResolved(rules, on, resolved)
  {
    var matching := MatchingRules(rules, on);
    var order := Sort(Before, matching);
    OrderIsOrder(rules, on);
    resolved := map[];
    for k := 0 to |order|
      invariant resolved == Painted(rules, order[..k])
    {
      assert order[..k + 1][..k] == order[..k];
      assert IsMatch(rules, on, order[k]);
      resolved := resolved + rules[order[k].index].declarations;
    }
    assert order[..|order|] == order;
    PaintedIsResolved(rules, on, order);
  }

  /** The declarations of these rules, applied one after another. */
  function Painted(rules: seq<Rule>, order: seq<Match>): map<string, string>
    requires forall k :: 0 <= k < |order| ==> order[k].index < |rules|
  {
    if order == [] then map[]
    else Painted(rules, order[..|order| - 1]) + rules[order[|order| - 1].index].declarations
  }

  lemma {:induction false} PaintedByLast(rules: seq<Rule>, order: seq<Match>, token: string)
    requires forall k :: 0 <= k < |order| ==> order[k].index < |rules|
    ensures var w := LastSetter(rules, order, token);
      && (w.Some? <==> token in Painted(rules, order))
      && (w.Some? ==> w.value < |rules| && token in rules[w.value].declarations
                      && Painted(rules, order)[token] == rules[w.value].declarations[token])
  {
    if order != [] { PaintedByLast(rules, order[..|order| - 1], token); }
  }

  lemma PaintedIsResolved(rules: seq<Rule>, on: Attributes, order: seq<Match>)
    requires IsOrder(rules, on, order)
    ensures IsResolved(rules, on, Painted(rules, order))
  {
    forall token ensures token in Painted(rules, order) <==> exists i: nat :: Sets(rules, on, token, i) {
      PaintedByLast(rules, order, token);
      LastSetterDecides(rules, on, order, token);
    }
    forall token, w: nat | Decides(rules, on, token, w)
      ensures Painted(rules, order)[token] == rules[w].declarations[token]
    {
      PaintedByLast(rules, order, token);
      LastSetterDecides(rules, on, order, token);
      OneDecides(rules, on, token, w, LastSetter(rules, order, token).value);
    }
  }

  // Leaks

  datatype Leak = Leak(palette: string, token: string)

  function DarkBlock(palette: string): Selector {
    Root(false, [Palette(palette)])
  }

  function LightBlock(palette: string): Selector {
    Root(false, [Palette(palette), Theme("light")])
  }

  /** The declarations of every rule that lists this very selector, merged in order. */
  function DeclarationsOf(rules: seq<Rule>, selector: Selector): map<string, string> {
    if rules == [] then map[]
    else
      var last := rules[|rules| - 1];
      var before := DeclarationsOf(rules[..|rules| - 1], selector);
      if selector in last.selectors then before + last.declarations else before
  }

  predicate Lists(rules: seq<Rule>, selector: Selector, token: string, i: nat) {
    i < |rules| && selector in rules[i].selectors && token in rules[i].declarations
  }

  lemma {:induction false} DeclaredByOne(rules: seq<Rule>, selector: Selector, token: string)
    ensures token in DeclarationsOf(rules, selector) <==> exists i: nat :: Lists(rules, selector, token, i)
  {
    if rules != [] {
      var front := rules[..|rules| - 1];
      DeclaredByOne(front, selector, token);
      if i: nat :| Lists(front, selector, token, i) { assert Lists(rules, selector, token, i); }
      if i: nat :| Lists(rules, selector, token, i) && i < |front| { assert Lists(front, selector, token, i); }
      assert Lists(rules, selector, token, |rules| - 1)
             <==> selector in rules[|rules| - 1].selectors && token in rules[|rules| - 1].declarations;
    }
  }

  predicate IsLeak(rules: seq<Rule>, palette: string, token: string) {
    token in DeclarationsOf(rules, DarkBlock(palette)) && token !in DeclarationsOf(rules, LightBlock(palette))
  }

  predicate IsLeakOf(rules: seq<Rule>, palettes: seq<string>, leak: Leak) {
    leak.palette in palettes && leak.palette != DEFAULT_PALETTE && IsLeak(rules, leak.palette, leak.token)
  }

  method MergeDeclarations(rules: seq<Rule>, selector: Selector) returns (merged: map<string, string>)
    ensures merged == DeclarationsOf(rules, selector)
  {
    merged := map[];
    for i := 0 to |rules|
      invariant merged == DeclarationsOf(rules[..i], selector)
    {
      assert rules[..i + 1][..i] == rules[..i];
      if selector in rules[i].selectors {
        merged := merged + rules[i].declarations;
      }
    }
    assert rules[..|rules|] == rules;
  }

  method FindLeaks(rules: seq<Rule>, palettes: seq<string>) returns (leaks: set<Leak>)
    ensures forall leak :: leak in leaks <==> IsLeakOf(rules, palettes, leak)
  {
    leaks := {};
    for i := 0 to |palettes|
      invariant forall leak :: leak in leaks <==> IsLeakOf(rules, palettes[..i], leak)
    {
      assert palettes[..i + 1] == palettes[..i] + [palettes[i]];
      if palettes[i] != DEFAULT_PALETTE {
        var dark := MergeDeclarations(rules, DarkBlock(palettes[i]));
        var light := MergeDeclarations(rules, LightBlock(palettes[i]));
        leaks := leaks + set token | token in dark && token !in light :: Leak(palettes[i], token);
      }
    }
    assert palettes[..|palettes|] == palettes;
  }

  // What the check promises

  lemma {:induction false} HighestIsHighest(selectors: seq<Selector>, on: Attributes, selector: Selector)
    requires selector in selectors && Specificity(selector, on).Some?
    ensures RuleSpecificity(selectors, on).Some?
            && RuleSpecificity(selectors, on).value >= Specificity(selector, on).value
  {
    var front, last := selectors[..|selectors| - 1], selectors[|selectors| - 1];
    if selector != last {
      assert selectors == front + [last];
      HighestIsHighest(front, on, selector);
    }
  }

  /** In light mode a palette's dark block still matches, with specificity 1, and its light block with 2. */
  lemma BlocksMatchInLight(palette: string)
    requires palette != DEFAULT_PALETTE
    ensures Specificity(DarkBlock(palette), Attributes("light", palette)) == Some(1)
    ensures Specificity(LightBlock(palette), Attributes("light", palette)) == Some(2)
    ensures Specificity(DarkBlock(palette), Attributes("dark", palette)) == Some(1)
    ensures Specificity(LightBlock(palette), Attributes("dark", palette)) == None
  {
    var part := LightBlock(palette).parts[1];
    assert !Carries(Attributes("dark", palette), part);
  }

  /**
   With no leak, in light mode each token that the palette's dark block sets is decided by a rule of specificity 2 or
   more, and so never by one that matches only as the bare dark block.
   */
  lemma NoLeakNoDarkValue(rules: seq<Rule>, palette: string, token: string) returns (w: nat)
    requires palette != DEFAULT_PALETTE && !IsLeak(rules, palette, token)
    requires token in DeclarationsOf(rules, DarkBlock(palette))
    ensures var on := Attributes("light", palette);
      && Decides(rules, on, token, w) && RuleSpecificity(rules[w].selectors, on).value >= 2
      && exists selector :: selector in rules[w].selectors
            && selector != DarkBlock(palette) && Specificity(selector, on).Some?
  {
    var on := Attributes("light", palette);
    DeclaredByOne(rules, LightBlock(palette), token);
    var i: nat :| Lists(rules, LightBlock(palette), token, i);
    BlocksMatchInLight(palette);
    HighestIsHighest(rules[i].selectors, on, LightBlock(palette));
    w := SomeDecides(rules, on, token, i);
    assert Beats(rules, on, i, w);
    SomeIsHighest(rules[w].selectors, on);
  }

  lemma {:induction false} SomeIsHighest(selectors: seq<Selector>, on: Attributes)
    requires RuleSpecificity(selectors, on).Some?
    ensures exists selector :: selector in selectors && Specificity(selector, on) == RuleSpecificity(selectors, on)
  {
    var front, last := selectors[..|selectors| - 1], selectors[|selectors| - 1];
    if RuleSpecificity(selectors, on) == Specificity(last, on) {
      assert last in selectors;
    } else {
      SomeIsHighest(front, on);
      var selector :| selector in front && Specificity(selector, on) == RuleSpecificity(front, on);
      assert selector in selectors;
    }
  }

  // When a leak shows

  const EVERY_MODE := Root(true, [])
  const LIGHT_MODE := Root(false, [Theme("light")])

  /**
   The selectors of a token sheet: `:root`, a theme, a palette, a palette in a theme; others match no root element.
   */
  predicate IsTokenSelector(selector: Selector) {
    || selector.Other?
    || selector == EVERY_MODE
    || (!selector.pseudo && |selector.parts| == 1)
    || (!selector.pseudo && |selector.parts| == 2 && selector.parts[0].Palette? && selector.parts[1].Theme?)
  }

  ghost predicate IsTokenSheet(rules: seq<Rule>) {
    forall i: nat, selector :: i < |rules| && selector in rules[i].selectors ==> IsTokenSelector(selector)
  }

  /** The rule sets the token in light mode as the palette's dark block, or else as one of the two Default ones. */
  predicate SetsPlainly(rules: seq<Rule>, palette: string, token: string, i: nat) {
    Lists(rules, DarkBlock(palette), token, i) || SetsForDefault(rules, token, i)
  }

  predicate SetsForDefault(rules: seq<Rule>, token: string, i: nat) {
    Lists(rules, EVERY_MODE, token, i) || Lists(rules, LIGHT_MODE, token, i)
  }

  lemma PlainSpecificity(palette: string, selector: Selector)
    requires palette != DEFAULT_PALETTE && IsTokenSelector(selector)
    ensures var specificity := Specificity(selector, Attributes("light", palette));
      && (specificity == Some(1) <==> selector in {EVERY_MODE, LIGHT_MODE, DarkBlock(palette)})
      && (specificity.Some? && specificity != Some(1) ==> selector == LightBlock(palette))
  {
    var on := Attributes("light", palette);
    if selector.Root? && |selector.parts| == 1 {
      assert selector.parts == [selector.parts[0]];
      assert Carries(on, selector.parts[0])
             <==> selector.parts[0] == Theme("light") || selector.parts[0] == Palette(palette);
    }
    if selector.Root? && |selector.parts| == 2 {
      assert selector.parts == [selector.parts[0], selector.parts[1]];
    }
  }

  /**
   What sets a leaked token in light mode does so with specificity 1: only the light block has more, and it does not set
   it.
   */
  lemma LeakIsSetPlainly(rules: seq<Rule>, palette: string, token: string, i: nat)
    requires palette != DEFAULT_PALETTE && IsTokenSheet(rules) && IsLeak(rules, palette, token)
    ensures var on := Attributes("light", palette);
      && (Sets(rules, on, token, i) <==> SetsPlainly(rules, palette, token, i))
      && (Sets(rules, on, token, i) ==> RuleSpecificity(rules[i].selectors, on) == Some(1))
  {
    var on := Attributes("light", palette);
    if Sets(rules, on, token, i) {
      SomeIsHighest(rules[i].selectors, on);
      var selector :| selector in rules[i].selectors
          && Specificity(selector, on) == RuleSpecificity(rules[i].selectors, on);
      PlainSpecificity(palette, selector);
      DeclaredByOne(rules, LightBlock(palette), token);
      assert !Lists(rules, LightBlock(palette), token, i);
    }
    if SetsPlainly(rules, palette, token, i) { PlainIsHighest(rules[i].selectors, palette); }
  }

  lemma PlainIsHighest(selectors: seq<Selector>, palette: string)
    requires palette != DEFAULT_PALETTE
    requires EVERY_MODE in selectors || LIGHT_MODE in selectors || DarkBlock(palette) in selectors
    ensures RuleSpecificity(selectors, Attributes("light", palette)).Some?
  {
    var selector :=
      if EVERY_MODE in selectors then EVERY_MODE
      else if LIGHT_MODE in selectors then LIGHT_MODE
      else DarkBlock(palette);
    PlainSpecificity(palette, selector);
    HighestIsHighest(selectors, Attributes("light", palette), selector);
  }

  /** So the last of the rules that set it decides it. */
  lemma LeakDecidedByLast(rules: seq<Rule>, palette: string, token: string, w: nat)
    requires palette != DEFAULT_PALETTE && IsTokenSheet(rules) && IsLeak(rules, palette, token)
    ensures Decides(rules, Attributes("light", palette), token, w)
            <==> SetsPlainly(rules, palette, token, w) && forall i: nat :: SetsPlainly(rules, palette, token, i) ==>
              i <= w
  {
    var on := Attributes("light", palette);
    LeakIsSetPlainly(rules, palette, token, w);
    forall i: nat ensures Sets(rules, on, token, i) <==> SetsPlainly(rules, palette, token, i) {
      LeakIsSetPlainly(rules, palette, token, i);
    }
    forall i: nat | Sets(rules, on, token, i) && Sets(rules, on, token, w) ensures Beats(rules, on, i, w) <==> i <= w {
      LeakIsSetPlainly(rules, palette, token, i);
    }
  }

  /** In light mode the token is decided by a rule of the palette's dark block. */
  ghost predicate ShowsDark(rules: seq<Rule>, palette: string, token: string) {
    exists w: nat :: Decides(rules, Attributes("light", palette), token, w) && DarkBlock(palette) in rules[w].selectors
  }

  /** Some dark block of the palette sets the token, and no `:root` or light rule after it does. */
  ghost predicate DarkComesLast(rules: seq<Rule>, palette: string, token: string) {
    exists d: nat ::
      Lists(rules, DarkBlock(palette), token, d) && forall i: nat :: SetsForDefault(rules, token, i) ==> i <= d
  }

  /**
   A leak that is reported paints its dark value in light mode if and only if no `:root` or light rule sets the token
   after the palette's dark block: nothing is more specific, and of equals the later wins.
   */
  lemma WhenLeakShows(rules: seq<Rule>, palette: string, token: string)
    requires palette != DEFAULT_PALETTE && IsTokenSheet(rules) && IsLeak(rules, palette, token)
    ensures ShowsDark(rules, palette, token) <==> DarkComesLast(rules, palette, token)
  {
    var on := Attributes("light", palette);
    if ShowsDark(rules, palette, token) {
      var w: nat :| Decides(rules, on, token, w) && DarkBlock(palette) in rules[w].selectors;
      LeakDecidedByLast(rules, palette, token, w);
      assert Lists(rules, DarkBlock(palette), token, w);
      forall i: nat | SetsForDefault(rules, token, i) ensures i <= w { assert SetsPlainly(rules, palette, token, i); }
    }
    if DarkComesLast(rules, palette, token) {
      var d: nat :| Lists(rules, DarkBlock(palette), token, d)
        && forall i: nat :: SetsForDefault(rules, token, i) ==> i <= d;
      LeakIsSetPlainly(rules, palette, token, d);
      var w := SomeDecides(rules, on, token, d);
      LeakDecidedByLast(rules, palette, token, w);
      assert SetsPlainly(rules, palette, token, d) && SetsPlainly(rules, palette, token, w);
    }
  }

  lemma {:induction false} LastDeclares(rules: seq<Rule>, selector: Selector, token: string, w: nat)
    requires Lists(rules, selector, token, w) && forall i: nat :: Lists(rules, selector, token, i) ==> i <= w
    ensures token in DeclarationsOf(rules, selector)
    ensures DeclarationsOf(rules, selector)[token] == rules[w].declarations[token]
  {
    var front := rules[..|rules| - 1];
    if w < |front| {
      assert !Lists(rules, selector, token, |front|);
      forall i: nat | Lists(front, selector, token, i) ensures i <= w { assert Lists(rules, selector, token, i); }
      LastDeclares(front, selector, token, w);
    }
  }

  /** And what it paints then is the value the report reads from the dark block. */
  lemma ShownValue(rules: seq<Rule>, palette: string, token: string, resolved: map<string, string>)
    requires palette != DEFAULT_PALETTE && IsTokenSheet(rules) && IsLeak(rules, palette, token)
    requires ShowsDark(rules, palette, token) && IsResolved(rules, Attributes("light", palette), resolved)
    ensures token in resolved && resolved[token] == DeclarationsOf(rules, DarkBlock(palette))[token]
  {
    var on := Attributes("light", palette);
    var w: nat :| Decides(rules, on, token, w) && DarkBlock(palette) in rules[w].selectors;
    LeakDecidedByLast(rules, palette, token, w);
    forall i: nat | Lists(rules, DarkBlock(palette), token, i) ensures i <= w {
      assert SetsPlainly(rules, palette, token, i);
    }
    LastDeclares(rules, DarkBlock(palette), token, w);
  }

  // Following a token

  datatype Value = Literal(text: string) | Var(token: string)
  datatype TokenError = RefersToItself(token: string) | NotDefined(token: string)

  /** The token reached after following this many references from a token, if there are as many. */
  function Follow(values: map<string, Value>, token: string, n: nat): Option<string> {
    if n == 0 then Some(token)
    else
      var before := Follow(values, token, n - 1);
      if before.Some? && before.value in values && values[before.value].Var? then Some(values[before.value].token)
      else None
  }

  function ResolveToken(values: map<string, Value>, token: string, seen: set<string>): (r: Result<string, TokenError>)
    decreases values.Keys - seen
  {
    if token in seen then Err(RefersToItself(token))
    else if token !in values then Err(NotDefined(token))
    else
      match values[token]
      case Literal(text) => Ok(text)
      case Var(next) =>
        assert values.Keys - (seen + {token}) < values.Keys - seen by { assert token in values.Keys - seen; }
        ResolveToken(values, next, seen + {token})
  }

  predicate EndsAt(values: map<string, Value>, token: string, n: nat, text: string) {
    var last := Follow(values, token, n);
    last.Some? && last.value in values && values[last.value] == Literal(text)
  }

  predicate LeadsOut(values: map<string, Value>, token: string, n: nat, missing: string) {
    Follow(values, token, n) == Some(missing) && missing !in values
  }

  /** The chain from the token ends at a value, */
  ghost predicate Ends(values: map<string, Value>, token: string, text: string) {
    exists n: nat :: EndsAt(values, token, n, text)
  }

  /** or leads to a token that is not defined. */
  ghost predicate Leaves(values: map<string, Value>, token: string, missing: string) {
    exists n: nat :: LeadsOut(values, token, n, missing)
  }

  /** What following a token has to answer. */
  ghost predicate IsAnswer(values: map<string, Value>, token: string, r: Result<string, TokenError>) {
    match r
    case Ok(text) => Ends(values, token, text)
    case Err(NotDefined(missing)) => Leaves(values, token, missing)
    case Err(RefersToItself(_)) => forall n: nat :: Follow(values, token, n).Some?
  }

  lemma EndsAfter(values: map<string, Value>, token: string, n: nat, text: string)
    requires EndsAt(values, token, n, text)
    ensures Ends(values, token, text)
  {
  }

  lemma LeavesAfter(values: map<string, Value>, token: string, n: nat, missing: string)
    requires LeadsOut(values, token, n, missing)
    ensures Leaves(values, token, missing)
  {
  }

  lemma {:induction false} FollowNext(values: map<string, Value>, token: string, n: nat)
    requires token in values && values[token].Var?
    ensures Follow(values, token, n + 1) == Follow(values, values[token].token, n)
  {
    if n > 0 { FollowNext(values, token, n - 1); }
  }

  /** Tokens that were seen each lead to one that was seen or to the one at hand. */
  ghost predicate Chained(values: map<string, Value>, token: string, seen: set<string>) {
    forall t :: t in seen ==> t in values && values[t].Var? && (values[t].token in seen || values[t].token == token)
  }

  lemma {:induction false} CycleGoesOn(values: map<string, Value>, token: string, seen: set<string>, n: nat)
    requires Chained(values, token, seen) && token in seen
    ensures Follow(values, token, n).Some? && Follow(values, token, n).value in seen
  {
    if n > 0 { CycleGoesOn(values, token, seen, n - 1); }
  }

  /** A value is found exactly at the end of the chain, an error exactly where it leaves the sheet or never ends. */
  lemma {:induction false} ResolvesRightly(values: map<string, Value>, token: string, seen: set<string>)
    requires Chained(values, token, seen)
    ensures IsAnswer(values, token, ResolveToken(values, token, seen))
    decreases values.Keys - seen
  {
    if token in seen {
      forall n: nat ensures Follow(values, token, n).Some? { CycleGoesOn(values, token, seen, n); }
    } else if token !in values {
      LeavesAfter(values, token, 0, token);
    } else if values[token].Literal? {
      EndsAfter(values, token, 0, values[token].text);
    } else {
      var next := values[token].token;
      assert token in values.Keys - seen;
      ResolvesRightly(values, next, seen + {token});
      match ResolveToken(values, next, seen + {token})
      case Ok(text) =>
        var n: nat :| EndsAt(values, next, n, text);
        FollowNext(values, token, n);
        EndsAfter(values, token, n + 1, text);
      case Err(NotDefined(missing)) =>
        var n: nat :| LeadsOut(values, next, n, missing);
        FollowNext(values, token, n);
        LeavesAfter(values, token, n + 1, missing);
      case Err(RefersToItself(_)) =>
        forall n: nat ensures Follow(values, token, n).Some? {
          if n > 0 { FollowNext(values, token, n - 1); }
        }
    }
  }

  lemma {:induction false} ChainIsOne(values: map<string, Value>, token: string, n: nat, m: nat)
    requires n < m && Follow(values, token, n).Some?
    requires Follow(values, token, n).value !in values || values[Follow(values, token, n).value].Literal?
    ensures Follow(values, token, m).None?
  {
    if m > n + 1 { ChainIsOne(values, token, n, m - 1); }
  }

  /** So each answer is given exactly when its case holds. */
  lemma WhenTokenResolves(values: map<string, Value>, token: string)
    ensures forall text :: ResolveToken(values, token, {}) == Ok(text) <==> Ends(values, token, text)
    ensures (ResolveToken(values, token, {}).Err? && ResolveToken(values, token, {}).error.RefersToItself?)
            <==> forall n: nat :: Follow(values, token, n).Some?
    ensures forall missing ::
              ResolveToken(values, token, {}) == Err(NotDefined(missing)) <==> Leaves(values, token, missing)
  {
    ResolvesRightly(values, token, {});
    var r := ResolveToken(values, token, {});
    forall missing | Leaves(values, token, missing) ensures r == Err(NotDefined(missing)) {
      var n: nat :| LeadsOut(values, token, n, missing);
      LeavingIsTheAnswer(values, token, missing, n);
    }
    forall text | Ends(values, token, text) ensures r == Ok(text) {
      var n: nat :| EndsAt(values, token, n, text);
      EndIsTheAnswer(values, token, text, n);
    }
    if r.Ok? {
      var n: nat :| EndsAt(values, token, n, r.value);
      ChainIsOne(values, token, n, n + 1);
    } else if r.error.NotDefined? {
      var n: nat :| LeadsOut(values, token, n, r.error.token);
      ChainIsOne(values, token, n, n + 1);
    }
  }

  lemma EndIsTheAnswer(values: map<string, Value>, token: string, text: string, n: nat)
    requires EndsAt(values, token, n, text)
    ensures ResolveToken(values, token, {}) == Ok(text)
  {
    ResolvesRightly(values, token, {});
    ChainIsOne(values, token, n, n + 1);
    match ResolveToken(values, token, {})
    case Ok(other) =>
      var m: nat :| EndsAt(values, token, m, other);
      if m < n { ChainIsOne(values, token, m, n); } else if n < m { ChainIsOne(values, token, n, m); }
    case Err(NotDefined(missing)) =>
      var m: nat :| LeadsOut(values, token, m, missing);
      if m < n { ChainIsOne(values, token, m, n); } else if n < m { ChainIsOne(values, token, n, m); }
    case Err(RefersToItself(_)) =>
  }

  lemma LeavingIsTheAnswer(values: map<string, Value>, token: string, missing: string, n: nat)
    requires LeadsOut(values, token, n, missing)
    ensures ResolveToken(values, token, {}) == Err(NotDefined(missing))
  {
    ResolvesRightly(values, token, {});
    ChainIsOne(values, token, n, n + 1);
    match ResolveToken(values, token, {})
    case Ok(text) =>
      var m: nat :| EndsAt(values, token, m, text);
      if m < n { ChainIsOne(values, token, m, n); } else if n < m { ChainIsOne(values, token, n, m); }
    case Err(NotDefined(other)) =>
      var m: nat :| LeadsOut(values, token, m, other);
      if m < n { ChainIsOne(values, token, m, n); } else if n < m { ChainIsOne(values, token, n, m); }
    case Err(RefersToItself(_)) =>
  }

  // Which token is named

  predicate IsToken(values: map<string, Value>, start: string, i: nat, t: string) {
    Follow(values, start, i) == Some(t)
  }

  /** The chain's first `n` tokens are these, */
  ghost predicate FirstTokens(values: map<string, Value>, start: string, n: nat, seen: set<string>) {
    forall t :: t in seen <==> exists i: nat :: IsToken(values, start, i, t) && i < n
  }

  /** and no two of them are the same. */
  ghost predicate AllDiffer(values: map<string, Value>, start: string, n: nat) {
    forall i: nat, j: nat, t :: i < j < n && IsToken(values, start, i, t) ==> !IsToken(values, start, j, t)
  }

  /** The token is the first that the chain comes back to. */
  ghost predicate IsFirstRepeated(values: map<string, Value>, start: string, t: string) {
    exists i: nat, n: nat ::
      i < n && IsToken(values, start, i, t) && IsToken(values, start, n, t) && AllDiffer(values, start, n)
  }

  lemma NextTokens(values: map<string, Value>, start: string, token: string, n: nat, seen: set<string>)
    requires FirstTokens(values, start, n, seen) && IsToken(values, start, n, token)
    ensures FirstTokens(values, start, n + 1, seen + {token})
  {
    forall t ensures t in seen + {token} <==> exists i: nat :: IsToken(values, start, i, t) && i < n + 1 {
      if i: nat :| IsToken(values, start, i, t) && i < n + 1 { assert i < n || t == token; }
    }
  }

  lemma NextDiffers(values: map<string, Value>, start: string, token: string, n: nat, seen: set<string>)
    requires FirstTokens(values, start, n, seen) && AllDiffer(values, start, n)
    requires IsToken(values, start, n, token) && token !in seen
    ensures AllDiffer(values, start, n + 1)
  {
    forall i: nat, j: nat, t | i < j < n + 1 && IsToken(values, start, i, t) ensures !IsToken(values, start, j, t) {
      if j == n && t == token { assert false; }
    }
  }

  lemma {:induction false} NamesRepeated(values: map<string, Value>, start: string, token: string, n: nat,
                                         seen: set<string>)
    requires FirstTokens(values, start, n, seen) && AllDiffer(values, start, n) && IsToken(values, start, n, token)
    ensures var r := ResolveToken(values, token, seen);
      r.Err? && r.error.RefersToItself? ==> IsFirstRepeated(values, start, r.error.token)
    decreases values.Keys - seen
  {
    if token in seen {
      var i: nat :| IsToken(values, start, i, token) && i < n;
      assert IsFirstRepeated(values, start, token);
    } else if token in values && values[token].Var? {
      NextTokens(values, start, token, n, seen);
      NextDiffers(values, start, token, n, seen);
      assert token in values.Keys - seen;
      NamesRepeated(values, start, values[token].token, n + 1, seen + {token});
    }
  }

  /** A token that refers to itself is named: it is the first that the chain comes back to. */
  lemma WhichRefersToItself(values: map<string, Value>, token: string)
    requires ResolveToken(values, token, {}).Err? && ResolveToken(values, token, {}).error.RefersToItself?
    ensures IsFirstRepeated(values, token, ResolveToken(values, token, {}).error.token)
  {
    NamesRepeated(values, token, token, 0, {});
  }

  // Which selectors match

  /** What the root carries: its theme, and its palette unless that is the default one. */
  function CarriedBy(on: Attributes): set<Attribute> {
    {Theme(on.theme)} + if on.palette == "default" then {} else {Palette(on.palette)}
  }

  /** A selector of the root matches if it asks for something, and only for what the root carries. */
  lemma WhenSelectorMatches(selector: Selector, on: Attributes)
    ensures Specificity(selector, on).Some?
            <==> selector.Root? && (selector.pseudo || selector.parts != [])
                 && forall part :: part in selector.parts ==> part in CarriedBy(on)
    ensures Specificity(selector, on).Some? ==>
              Specificity(selector, on).value == |selector.parts| + if selector.pseudo then 1 else 0
  {
    if selector.Root? {
      forall part ensures Carries(on, part) <==> part in CarriedBy(on) { }
    }
  }

  /** A rule is as specific as its most specific selector that matches. */
  lemma WhenRuleMatches(selectors: seq<Selector>, on: Attributes)
    ensures var highest := RuleSpecificity(selectors, on);
      && (highest.None? <==> forall selector :: selector in selectors ==> Specificity(selector, on).None?)
      && (highest.Some? ==> exists selector :: selector in selectors && Specificity(selector, on) == highest)
      && (highest.Some? ==> forall selector :: selector in selectors && Specificity(selector, on).Some? ==>
            Specificity(selector, on).value <= highest.value)
  {
    if RuleSpecificity(selectors, on).Some? { SomeIsHighest(selectors, on); }
    forall selector | selector in selectors && Specificity(selector, on).Some? {
      HighestIsHighest(selectors, on, selector);
    }
  }
}
