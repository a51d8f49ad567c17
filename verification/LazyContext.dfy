/** The lazy context builder: a skill menu and a lesson index trimmed to a quarter of the stage's token budget. */
module LazyContext {
  import opened Common
  import Ordering

  datatype Skill = Skill(name: string, tokens: nat)

  datatype Lesson = Lesson(id: string, confidence: real, tokens: nat)

  datatype Trim = LessonTrim(id: string) | SkillTrim(name: string)

  datatype Bundle = Bundle(
    stageId: string, menu: seq<Skill>, index: seq<Lesson>, budget: nat, tokens: nat, trimmed: seq<Trim>,
    withinBudget: bool)

  datatype LazyError = BudgetNotPositive

  function MenuTokens(menu: seq<Skill>): nat {
    if menu == [] then 0 else MenuTokens(menu[..|menu| - 1]) + menu[|menu| - 1].tokens
  }

  function IndexTokens(index: seq<Lesson>): nat {
    if index == [] then 0 else IndexTokens(index[..|index| - 1]) + index[|index| - 1].tokens
  }

  /** The trimming order `(confidence, id)`. */
  predicate TrimsBefore(a: Lesson, b: Lesson) {
    a.confidence < b.confidence || (a.confidence == b.confidence && Ordering.Leq(a.id, b.id))
  }

  /** Less confident, or as confident and not later in code-point order of the ids. */
  ghost predicate Precedes(a: Lesson, b: Lesson) {
    a.confidence <= b.confidence && (a.confidence == b.confidence ==> Ordering.Lexicographic(a.id, b.id))
  }

  lemma TrimsBeforeIsPrecedes(a: Lesson, b: Lesson)
    ensures TrimsBefore(a, b) <==> Precedes(a, b)
  {
    Ordering.LeqIsLexicographic(a.id, b.id);
  }

  lemma PrecedesTransitive(a: Lesson, b: Lesson, c: Lesson)
    requires Precedes(a, b) && Precedes(b, c)
    ensures Precedes(a, c)
  {
    if a.confidence == c.confidence {
      Ordering.LeqIsLexicographic(a.id, b.id);
      Ordering.LeqIsLexicographic(b.id, c.id);
      Ordering.LeqIsLexicographic(a.id, c.id);
      Ordering.LeqTransitive(a.id, b.id, c.id);
    }
  }

  lemma PrecedesTotal(a: Lesson, b: Lesson)
    ensures Precedes(a, b) || Precedes(b, a)
  {
    Ordering.LeqIsLexicographic(a.id, b.id);
    Ordering.LeqIsLexicographic(b.id, a.id);
    Ordering.LeqTotal(a.id, b.id);
  }

  function LazyBudget(budget: nat): nat {
    if budget / 4 > 1 then budget / 4 else 1
  }

  /** The cap is a quarter of the budget, rounded down, but at least one token. */
  lemma CapIsQuarter(budget: nat, n: nat)
    ensures n <= LazyBudget(budget) <==> n <= 1 || 4 * n <= budget
  {
  }

  /** A menu weighs what its skills weigh. */
  lemma MenuAppendTokens(menu: seq<Skill>, skill: Skill)
    ensures MenuTokens(menu + [skill]) == MenuTokens(menu) + skill.tokens && MenuTokens([]) == 0
  {
    assert (menu + [skill])[..|menu|] == menu;
  }

  function Without(index: seq<Lesson>, i: nat): seq<Lesson>
    requires i < |index|
  {
    index[..i] + index[i + 1..]
  }

  /** `part` is `whole` with some elements left out. */
  ghost predicate KeepsOrder(part: seq<Lesson>, whole: seq<Lesson>)
    decreases |whole|
  {
    if whole == [] then part == []
    else
      KeepsOrder(part, whole[..|whole| - 1])
      || (part != [] && part[|part| - 1] == whole[|whole| - 1] && KeepsOrder(part[..|part| - 1], whole[..|whole| - 1]))
  }

  /** The trimmed lessons come first in trimming order, sorted, and are followed by everything kept. */
  ghost predicate SmallestTrimmed(trimmed: seq<Lesson>, kept: seq<Lesson>) {
    && (forall i, j :: 0 <= i < j < |trimmed| ==> Precedes(trimmed[i], trimmed[j]))
    && (forall i, j :: 0 <= i < |trimmed| && 0 <= j < |kept| ==> Precedes(trimmed[i], kept[j]))
  }

  /** What lesson trimming leaves, whatever it had to trim to get there. */
  ghost predicate LessonsTrimmed(
    menu: seq<Skill>, index: seq<Lesson>, limit: nat, trimmed: seq<Lesson>, kept: seq<Lesson>)
  {
    && multiset(trimmed) + multiset(kept) == multiset(index)
    && KeepsOrder(kept, index)
    && SmallestTrimmed(trimmed, kept)
    && IndexTokens(trimmed) + IndexTokens(kept) == IndexTokens(index)
    && (forall k :: 0 <= k < |trimmed| ==> MenuTokens(menu) + IndexTokens(index) - IndexTokens(trimmed[..k]) > limit)
  }

  lemma {:induction false} KeepsOrderRefl(xs: seq<Lesson>)
    ensures KeepsOrder(xs, xs)
  {
    if xs != [] { KeepsOrderRefl(xs[..|xs| - 1]); }
  }

  lemma {:induction false} KeepsOrderWithout(part: seq<Lesson>, whole: seq<Lesson>, i: nat)
    requires KeepsOrder(part, whole) && i < |part|
    ensures KeepsOrder(Without(part, i), whole)
    decreases |whole|
  {
    var front := whole[..|whole| - 1];
    if KeepsOrder(part, front) {
      KeepsOrderWithout(part, front, i);
    } else if i == |part| - 1 {
      assert Without(part, i) == part[..|part| - 1];
    } else {
      KeepsOrderWithout(part[..|part| - 1], front, i);
      var w := Without(part, i);
      assert w[..|w| - 1] == Without(part[..|part| - 1], i);
    }
  }

  lemma WithoutLosesOne(index: seq<Lesson>, i: nat)
    requires i < |index|
    ensures multiset(Without(index, i)) + multiset{index[i]} == multiset(index)
  {
    assert index == index[..i] + [index[i]] + index[i + 1..];
  }

  lemma {:induction false} WithoutSavesTokens(index: seq<Lesson>, i: nat)
    requires i < |index|
    ensures IndexTokens(Without(index, i)) + index[i].tokens == IndexTokens(index)
  {
    var n := |index| - 1;
    if i == n {
      assert Without(index, i) == index[..n];
    } else {
      WithoutSavesTokens(index[..n], i);
      var w := Without(index, i);
      assert w[..|w| - 1] == Without(index[..n], i);
      assert w[|w| - 1] == index[n];
    }
  }

  lemma AppendTokens(trimmed: seq<Lesson>, victim: Lesson)
    ensures IndexTokens(trimmed + [victim]) == IndexTokens(trimmed) + victim.tokens
  {
    assert (trimmed + [victim])[..|trimmed|] == trimmed;
  }

  /** `min` by `(confidence, id)`: the first position that no lesson comes before. */
  method FindVictim(index: seq<Lesson>) returns (v: nat)
    requires index != []
    ensures v < |index| && forall j :: 0 <= j < |index| ==> Precedes(index[v], index[j])
  {
    v := 0;
    PrecedesTotal(index[0], index[0]);
    for i := 1 to |index|
      invariant v < |index| && forall j :: 0 <= j < i ==> Precedes(index[v], index[j])
    {
      TrimsBeforeIsPrecedes(index[v], index[i]);
      if !TrimsBefore(index[v], index[i]) {
        PrecedesTotal(index[v], index[i]);
        PrecedesTotal(index[i], index[i]);
        forall j | 0 <= j < i ensures Precedes(index[i], index[j]) {
          PrecedesTransitive(index[i], index[v], index[j]);
        }
        v := i;
      }
    }
  }

  lemma SmallestGrows(trimmed: seq<Lesson>, kept: seq<Lesson>, v: nat)
    requires SmallestTrimmed(trimmed, kept) && v < |kept|
    requires forall j :: 0 <= j < |kept| ==> Precedes(kept[v], kept[j])
    ensures SmallestTrimmed(trimmed + [kept[v]], Without(kept, v))
  {
    var rest := Without(kept, v);
    assert forall j :: 0 <= j < |rest| ==> rest[j] == if j < v then kept[j] else kept[j + 1];
  }

  lemma StillNotEnough(over: int, limit: int, trimmed: seq<Lesson>, victim: Lesson)
    requires forall k :: 0 <= k < |trimmed| ==> over - IndexTokens(trimmed[..k]) > limit
    requires over - IndexTokens(trimmed) > limit
    ensures forall k :: 0 <= k < |trimmed + [victim]| ==> over - IndexTokens((trimmed + [victim])[..k]) > limit
  {
    forall k | 0 <= k < |trimmed + [victim]| ensures over - IndexTokens((trimmed + [victim])[..k]) > limit {
      assert (trimmed + [victim])[..k] == trimmed[..k];
      if k == |trimmed| { assert trimmed[..k] == trimmed; }
    }
  }

  lemma TrimOneMore(
    menu: seq<Skill>, index: seq<Lesson>, limit: nat, trimmed: seq<Lesson>, kept: seq<Lesson>, v: nat)
    requires LessonsTrimmed(menu, index, limit, trimmed, kept) && v < |kept|
    requires forall j :: 0 <= j < |kept| ==> Precedes(kept[v], kept[j])
    requires MenuTokens(menu) + IndexTokens(kept) > limit
    ensures LessonsTrimmed(menu, index, limit, trimmed + [kept[v]], Without(kept, v))
  {
    assert multiset(trimmed + [kept[v]]) + multiset(Without(kept, v)) == multiset(index) by {
      WithoutLosesOne(kept, v);
    }
    WithoutSavesTokens(kept, v);
    AppendTokens(trimmed, kept[v]);
    KeepsOrderWithout(kept, index, v);
    SmallestGrows(trimmed, kept, v);
    StillNotEnough(MenuTokens(menu) + IndexTokens(index), limit, trimmed, kept[v]);
  }

  /** The first loop: lessons go, least confident first, while the total is over the limit. */
  method TrimLessons(menu: seq<Skill>, index: seq<Lesson>, limit: nat)
    returns (kept: seq<Lesson>, trimmed: seq<Lesson>)
    ensures LessonsTrimmed(menu, index, limit, trimmed, kept)
    ensures kept != [] ==> MenuTokens(menu) + IndexTokens(kept) <= limit
  {
    kept, trimmed := index, [];
    KeepsOrderRefl(index);
    while MenuTokens(menu) + IndexTokens(kept) > limit && kept != []
      invariant LessonsTrimmed(menu, index, limit, trimmed, kept)
      decreases |kept|
    {
      var v := FindVictim(kept);
      TrimOneMore(menu, index, limit, trimmed, kept, v);
      trimmed := trimmed + [kept[v]];
      kept := Without(kept, v);
    }
  }

  /** The second loop: skills go from the end of the menu while the total is over the limit. */
  method TrimMenu(menu: seq<Skill>, index: seq<Lesson>, limit: nat) returns (kept: seq<Skill>)
    requires index != [] ==> MenuTokens(menu) + IndexTokens(index) <= limit
    ensures kept <= menu && MenuTokens(kept) + IndexTokens(index) <= limit
    ensures kept != menu ==> index == [] && MenuTokens(menu[..|kept| + 1]) > limit
  {
    kept := menu;
    while MenuTokens(kept) + IndexTokens(index) > limit && kept != []
      invariant kept <= menu
      invariant index != [] ==> kept == menu
      invariant kept != menu ==> index == [] && MenuTokens(menu[..|kept| + 1]) > limit
      decreases |kept|
    {
      assert kept == menu[..|kept|];
      kept := kept[..|kept| - 1];
    }
  }

  /** `build`. */
  method Build(stageId: string, menu: seq<Skill>, index: seq<Lesson>, budget: int)
    returns (r: Result<Bundle, LazyError>)
    ensures budget < 1 <==> r == Err(BudgetNotPositive)
    ensures budget >= 1 ==> r.Ok? && Trimmed(r.value, stageId, menu, index, budget)
  {
    if budget < 1 {
      return Err(BudgetNotPositive);
    }
    var limit := LazyBudget(budget);
    var keptLessons, victims := TrimLessons(menu, index, limit);
    var keptMenu := TrimMenu(menu, keptLessons, limit);
    var trimmed := LessonTrims(victims) + SkillTrims(menu, |keptMenu|);
    var tokens := MenuTokens(keptMenu) + IndexTokens(keptLessons);
    CapIsQuarter(budget, tokens);
    r := Ok(Bundle(stageId, keptMenu, keptLessons, budget, tokens, trimmed, tokens <= limit));
    assert TrimmedBy(r.value, menu, index, budget, victims);
  }

  function LessonTrims(victims: seq<Lesson>): seq<Trim> {
    seq(|victims|, i requires 0 <= i < |victims| => LessonTrim(victims[i].id))
  }

  /** The skills dropped down to `kept`, last first. */
  function SkillTrims(menu: seq<Skill>, kept: nat): seq<Trim>
    requires kept <= |menu|
  {
    seq(|menu| - kept, i requires 0 <= i < |menu| - kept => SkillTrim(menu[|menu| - 1 - i].name))
  }

  ghost predicate Trimmed(b: Bundle, stageId: string, menu: seq<Skill>, index: seq<Lesson>, budget: nat) {
    b.stageId == stageId && exists victims :: TrimmedBy(b, menu, index, budget, victims)
  }

  /**
   * The bundle fits its cap; it records what was trimmed; the trimmed lessons are the smallest, as few as suffice;
   * and the menu lost its tail only after every lesson was gone.
   */
  ghost predicate TrimmedBy(b: Bundle, menu: seq<Skill>, index: seq<Lesson>, budget: nat, victims: seq<Lesson>) {
    var limit := LazyBudget(budget);
    && b.budget == budget && b.tokens == MenuTokens(b.menu) + IndexTokens(b.index)
    && (b.tokens <= 1 || 4 * b.tokens <= budget) && b.withinBudget
    && LessonsTrimmed(menu, index, limit, victims, b.index)
    && b.menu <= menu
    && (b.menu != menu ==> b.index == [] && MenuTokens(menu[..|b.menu| + 1]) > limit)
    && b.trimmed == LessonTrims(victims) + SkillTrims(menu, |b.menu|)
  }

  lemma {:induction false} LongerMenuCostsMore(menu: seq<Skill>, n: nat)
    requires n <= |menu|
    ensures MenuTokens(menu[..n]) <= MenuTokens(menu)
    decreases |menu|
  {
    if n < |menu| {
      assert menu[..|menu| - 1][..n] == menu[..n];
      LongerMenuCostsMore(menu[..|menu| - 1], n);
    } else {
      assert menu[..n] == menu;
    }
  }

  /** The menu that is left is the longest prefix that fits. */
  lemma NoLongerMenuFits(b: Bundle, menu: seq<Skill>, index: seq<Lesson>, budget: nat, victims: seq<Lesson>, n: nat)
    requires TrimmedBy(b, menu, index, budget, victims) && b.menu != menu && |b.menu| < n <= |menu|
    ensures MenuTokens(menu[..n]) > LazyBudget(budget)
  {
    assert menu[..n][..|b.menu| + 1] == menu[..|b.menu| + 1];
    LongerMenuCostsMore(menu[..n], |b.menu| + 1);
  }

  /** Trimming nothing is what happens exactly when everything fits. */
  lemma NothingTrimmedIff(b: Bundle, menu: seq<Skill>, index: seq<Lesson>, budget: nat, victims: seq<Lesson>)
    requires TrimmedBy(b, menu, index, budget, victims)
    ensures var all := MenuTokens(menu) + IndexTokens(index); b.trimmed == [] <==> all <= 1 || 4 * all <= budget
  {
    CapIsQuarter(budget, MenuTokens(menu) + IndexTokens(index));
    CapIsQuarter(budget, b.tokens);
    if victims != [] {
      assert IndexTokens(victims[..0]) == 0;
    } else {
      assert IndexTokens(b.index) == IndexTokens(index);
      if b.menu != menu {
        LongerMenuCostsMore(menu, |b.menu| + 1);
        assert |SkillTrims(menu, |b.menu|)| > 0;
      }
    }
  }
}
