/** The onboarding form's investment goals and the `handleGoalSelection` toggle. */
module InvestmentGoals {

  type Goal = string

  /** The goal buttons the form offers. */
  const OfferedGoals: seq<Goal> := [
    "Retirement", "College Fund", "Home Purchase",
    "Wealth Building", "Tax Optimization", "Income Generation"
  ]

  predicate NoDuplicates(goals: seq<Goal>) {
    forall i, j :: 0 <= i < j < |goals| ==> goals[i] != goals[j]
  }

  /** `filter(g => g !== goal)`: every occurrence of `goal` goes, the rest keep their order. */
  function RemoveAll(goals: seq<Goal>, goal: Goal): (r: seq<Goal>)
    ensures multiset(r) == multiset(goals)[goal := 0]
    ensures forall g :: g in r <==> g in goals && g != goal
  {
    if goals == [] then []
    else
      assert goals == [goals[0]] + goals[1..];
      if goals[0] == goal then RemoveAll(goals[1..], goal)
    else [goals[0]] + RemoveAll(goals[1..], goal)
  }

  /** The toggle: drop the goal when it is selected, append it otherwise. */
  function Toggle(goals: seq<Goal>, goal: Goal): (r: seq<Goal>)
    ensures goal in r <==> goal !in goals
    ensures forall g :: g != goal ==> (g in r <==> g in goals)
  {
    if goal in goals then RemoveAll(goals, goal) else goals + [goal]
  }

  /** Filtering distributes over concatenation, which is to say it keeps the order of what stays. */
  lemma {:induction false} RemoveAllAppend(s: seq<Goal>, t: seq<Goal>, goal: Goal)
    ensures RemoveAll(s + t, goal) == RemoveAll(s, goal) + RemoveAll(t, goal)
  {
    if s != [] {
      assert (s + t)[1..] == s[1..] + t;
      RemoveAllAppend(s[1..], t, goal);
    } else {
      assert s + t == t;
    }
  }

  /** Filtering out an absent goal changes nothing. */
  lemma {:induction false} RemoveAllAbsent(goals: seq<Goal>, goal: Goal)
    requires goal !in goals
    ensures RemoveAll(goals, goal) == goals
  {
    if goals != [] {
      RemoveAllAbsent(goals[1..], goal);
    }
  }

  /** Filtering keeps a list duplicate-free. */
  lemma {:induction false} RemoveAllNoDuplicates(goals: seq<Goal>, goal: Goal)
    requires NoDuplicates(goals)
    ensures NoDuplicates(RemoveAll(goals, goal))
  {
    if goals != [] {
      RemoveAllNoDuplicates(goals[1..], goal);
      assert goals[0] !in goals[1..];
    }
  }

  /** Toggling keeps the list duplicate-free. */
  lemma ToggleNoDuplicates(goals: seq<Goal>, goal: Goal)
    requires NoDuplicates(goals)
    ensures NoDuplicates(Toggle(goals, goal))
  {
    if goal in goals {
      RemoveAllNoDuplicates(goals, goal);
    }
  }

  /** Selecting an unselected goal and deselecting it again restores the list exactly. */
  lemma ToggleTwiceFromAbsent(goals: seq<Goal>, goal: Goal)
    requires goal !in goals
    ensures Toggle(Toggle(goals, goal), goal) == goals
  {
    RemoveAllAppend(goals, [goal], goal);
    RemoveAllAbsent(goals, goal);
  }

  /** In a duplicate-free list a present goal occurs exactly once. */
  lemma OccursOnce(goals: seq<Goal>, goal: Goal)
    requires NoDuplicates(goals) && goal in goals
    ensures multiset(goals)[goal] == 1
  {
    var k :| 0 <= k < |goals| && goals[k] == goal;
    assert goals == goals[..k] + [goal] + goals[k + 1..];
    assert goal !in goals[..k] && goal !in goals[k + 1..];
  }

  /**
   * Deselecting a selected goal and selecting it again restores the selection as a
   * multiset, but the goal moves to the end: the list is the same only if it was last.
   */
  lemma ToggleTwiceFromPresent(goals: seq<Goal>, goal: Goal)
    requires NoDuplicates(goals) && goal in goals
    ensures Toggle(Toggle(goals, goal), goal) == RemoveAll(goals, goal) + [goal]
    ensures multiset(Toggle(Toggle(goals, goal), goal)) == multiset(goals)
    ensures Toggle(Toggle(goals, goal), goal) == goals <==> goals[|goals| - 1] == goal
  {
    var removed := RemoveAll(goals, goal);
    assert Toggle(goals, goal) == removed;
    assert Toggle(removed, goal) == removed + [goal];
    OccursOnce(goals, goal);
    MultisetRestored(goals, removed, goal);
    if goals[|goals| - 1] == goal {
      LastGoalRestored(goals, goal);
    }
  }

  /** Putting back the one removed occurrence restores the multiset. */
  lemma MultisetRestored(goals: seq<Goal>, removed: seq<Goal>, goal: Goal)
    requires multiset(goals)[goal] == 1
    requires multiset(removed) == multiset(goals)[goal := 0]
    ensures multiset(removed + [goal]) == multiset(goals)
  {
  }

  /** Filtering out the last goal and appending it again gives the list back. */
  lemma {:induction false} LastGoalRestored(goals: seq<Goal>, goal: Goal)
    requires NoDuplicates(goals) && goals != [] && goals[|goals| - 1] == goal
    ensures RemoveAll(goals, goal) + [goal] == goals
  {
    var n := |goals|;
    var prefix := goals[..n - 1];
    assert goals == prefix + [goal];
    forall i | 0 <= i < n - 1
      ensures prefix[i] != goal
    {
      assert prefix[i] == goals[i];
    }
    RemoveAllAppend(prefix, [goal], goal);
    RemoveAllAbsent(prefix, goal);
    assert [goal][1..] == [];
    assert RemoveAll([goal], goal) == [];
  }

  /** A concrete case: deselecting and reselecting the first of two goals moves it to the end. */
  lemma ToggleTwiceReorders()
    ensures Toggle(Toggle(["Retirement", "College Fund"], "Retirement"), "Retirement")
         == ["College Fund", "Retirement"]
  {
  }

  /** What the form can hold: offered goals, each at most once. */
  predicate ValidSelection(goals: seq<Goal>) {
    NoDuplicates(goals) && forall g :: g in goals ==> g in OfferedGoals
  }

  /** The form starts empty, and clicking any offered goal keeps the selection valid. */
  lemma ToggleKeepsSelectionValid(goals: seq<Goal>, goal: Goal)
    requires ValidSelection(goals) && goal in OfferedGoals
    ensures ValidSelection(Toggle(goals, goal))
    ensures ValidSelection([])
    ensures |Toggle(goals, goal)| <= |OfferedGoals|
  {
    ToggleNoDuplicates(goals, goal);
    var r := Toggle(goals, goal);
    DistinctOfferedBound(r);
  }

  /** A duplicate-free list of offered goals is no longer than the offer. */
  lemma DistinctOfferedBound(goals: seq<Goal>)
    requires ValidSelection(goals)
    ensures |goals| <= |OfferedGoals|
  {
    var elems := set g | g in goals;
    var offered := set g | g in OfferedGoals;
    DistinctCard(goals);
    assert elems <= offered;
    SubsetCard(elems, offered);
    SeqCardBound(OfferedGoals);
  }

  lemma {:induction false} DistinctCard(goals: seq<Goal>)
    requires NoDuplicates(goals)
    ensures |set g | g in goals| == |goals|
  {
    if goals != [] {
      DistinctCard(goals[1..]);
      assert (set g | g in goals) == (set g | g in goals[1..]) + {goals[0]};
      assert goals[0] !in goals[1..];
    }
  }

  lemma {:induction false} SeqCardBound(goals: seq<Goal>)
    ensures |set g | g in goals| <= |goals|
  {
    if goals != [] {
      SeqCardBound(goals[1..]);
      assert (set g | g in goals) == (set g | g in goals[1..]) + {goals[0]};
    }
  }

  lemma SubsetCard(a: set<Goal>, b: set<Goal>)
    requires a <= b
    ensures |a| <= |b|
  {
    assert b == a + (b - a);
  }
}
