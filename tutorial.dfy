/** A model of the tutorial pager of the TypeScript tutorial page: a fixed table
    of six lessons, a cursor into it that "Next" and "Previous" move with
    wrap-around, and the views derived from the cursor (the current lesson, the
    difficulty badge and its colour, the "Section k of n" label and the fill of
    the progress bar). */
module Tutorial {

  /** One lesson record. The code sample is display-only text. */
  datatype TutorialSection = TutorialSection(
    id: int,
    title: string,
    description: string,
    codeExample: string)

  /** The three difficulty levels shown on the badge. */
  datatype Difficulty = Beginner | Intermediate | Advanced

  /** The fixed lesson table, in display order. */
  const TUTORIAL_SECTIONS: seq<TutorialSection> := [
    TutorialSection(1, "Type Annotations",
      "TypeScript allows you to define types for variables, function parameters, and return values.", ""),
    TutorialSection(2, "Interfaces",
      "Interfaces define the structure of objects, making your code more predictable and self-documenting.", ""),
    TutorialSection(3, "Generics",
      "Generics allow you to create reusable components that work with multiple types.", ""),
    TutorialSection(4, "Union Types",
      "Union types allow a value to be one of several types.", ""),
    TutorialSection(5, "React with TypeScript - Function Components",
      "Using TypeScript with React enhances type safety and developer experience in your components.", ""),
    TutorialSection(6, "React with TypeScript - Class Components",
      "Discover how to use TypeScript in React class components for better type safety.", "")
  ]

  /** Lesson ids run 1..6 in table order, so the id of the lesson at index i is i + 1. */
  lemma SectionIdsFollowTableOrder()
    ensures |TUTORIAL_SECTIONS| == 6
    ensures forall i :: 0 <= i < |TUTORIAL_SECTIONS| ==> TUTORIAL_SECTIONS[i].id == i + 1
  {
  }

  // ---------------------------------------------------------------------------
  // Difficulty badge

  /** The badge for a cursor position: the first two lessons are for beginners,
      the third is intermediate, the rest are advanced. */
  function GetDifficultyBadge(sectionIndex: int): (d: Difficulty)
    ensures d == Beginner <==> sectionIndex < 2
    ensures d == Intermediate <==> sectionIndex == 2
    ensures d == Advanced <==> sectionIndex >= 3
  {
    if sectionIndex < 2 then Beginner
    else if sectionIndex < 3 then Intermediate
    else Advanced
  }

  /** The order Beginner < Intermediate < Advanced. */
  function Level(d: Difficulty): nat {
    match d
    case Beginner => 0
    case Intermediate => 1
    case Advanced => 2
  }

  /** A later lesson is never easier than an earlier one. */
  lemma BadgeMonotone(i: int, j: int)
    requires i <= j
    ensures Level(GetDifficultyBadge(i)) <= Level(GetDifficultyBadge(j))
  {
  }

  /** Over the table, two lessons are for beginners, one is intermediate and
      three are advanced. */
  function CountWithBadge(d: Difficulty, n: nat): nat
  {
    if n == 0 then 0
    else CountWithBadge(d, n - 1) + (if GetDifficultyBadge(n - 1) == d then 1 else 0)
  }

  /** Every one of the first n lessons carries exactly one of the three badges. */
  lemma {:induction false} BadgeCountsPartition(n: nat)
    ensures CountWithBadge(Beginner, n) + CountWithBadge(Intermediate, n) + CountWithBadge(Advanced, n) == n
  {
    if n > 0 {
      BadgeCountsPartition(n - 1);
    }
  }

  lemma BadgeDistribution()
    ensures CountWithBadge(Beginner, |TUTORIAL_SECTIONS|) == 2
    ensures CountWithBadge(Intermediate, |TUTORIAL_SECTIONS|) == 1
    ensures CountWithBadge(Advanced, |TUTORIAL_SECTIONS|) == 3
  {
  }

  /** The badge background colour: green, orange or red. */
  function BadgeColor(d: Difficulty): (color: string)
    ensures d == Beginner ==> color == "#4CAF50"
    ensures d == Intermediate ==> color == "#FF9800"
    ensures d == Advanced ==> color == "#f44336"
  {
    if d == Beginner then "#4CAF50"
    else if d == Intermediate then "#FF9800"
    else "#f44336"
  }

  /** Different difficulties are always shown in different colours. */
  lemma BadgeColorDistinguishes(d1: Difficulty, d2: Difficulty)
    ensures BadgeColor(d1) == BadgeColor(d2) <==> d1 == d2
  {
  }

  // ---------------------------------------------------------------------------
  // Cursor steps

  /** The cursor after "Next" on a table of `length` lessons. */
  function NextSection(prev: int, length: int): (r: int)
    ensures 0 <= prev < length ==> 0 <= r < length && r == (prev + 1) % length
  {
    if prev < length - 1 then prev + 1 else 0
  }

  /** The cursor after "Previous" on a table of `length` lessons. */
  function PrevSection(prev: int, length: int): (r: int)
    ensures 0 <= prev < length ==> 0 <= r < length && r == (prev - 1) % length
  {
    if prev > 0 then prev - 1 else length - 1
  }

  /** "Previous" undoes "Next" and "Next" undoes "Previous" on every valid cursor. */
  lemma NextPrevInverse(cursor: int, length: int)
    requires 0 <= cursor < length
    ensures PrevSection(NextSection(cursor, length), length) == cursor
    ensures NextSection(PrevSection(cursor, length), length) == cursor
  {
  }

  /** The cursor after k clicks on "Next". */
  function NextTimes(cursor: int, length: int, k: nat): int
  {
    if k == 0 then cursor else NextSection(NextTimes(cursor, length, k - 1), length)
  }

  /** The cursor after k clicks on "Previous". */
  function PrevTimes(cursor: int, length: int, k: nat): int
    decreases k
  {
    if k == 0 then cursor else PrevTimes(PrevSection(cursor, length), length, k - 1)
  }

  /** Euclidean division is unique: a quotient and a remainder in 0..n-1 are THE quotient and remainder. */
  lemma DivModUnique(x: int, n: int, q: int, m: int)
    requires n > 0 && 0 <= m < n && x == q * n + m
    ensures x % n == m
  {
    var d := q - x / n;
    assert d * n == x % n - m;
  }

  /** Adding one commutes with reducing modulo n. */
  lemma ModStep(x: int, n: int)
    requires n > 0
    ensures (x % n + 1) % n == (x + 1) % n
  {
    var q, m := x / n, x % n;
    if m + 1 < n {
      DivModUnique(x + 1, n, q, m + 1);
      DivModUnique(m + 1, n, 0, m + 1);
    } else {
      DivModUnique(x + 1, n, q + 1, 0);
      DivModUnique(m + 1, n, 1, 0);
    }
  }

  /** k clicks on "Next" rotate the cursor by k positions. */
  lemma {:induction false} NextTimesRotates(cursor: int, length: int, k: nat)
    requires 0 <= cursor < length
    ensures NextTimes(cursor, length, k) == (cursor + k) % length
  {
    if k > 0 {
      NextTimesRotates(cursor, length, k - 1);
      var r := NextTimes(cursor, length, k - 1);
      assert r == (cursor + k - 1) % length;
      assert 0 <= r < length;
      assert NextTimes(cursor, length, k) == NextSection(r, length) == (r + 1) % length;
      ModStep(cursor + k - 1, length);
    }
  }

  /** As many clicks on "Next" as there are lessons bring the cursor back. */
  lemma NextCycle(cursor: int, length: int)
    requires 0 <= cursor < length
    ensures NextTimes(cursor, length, length) == cursor
  {
    NextTimesRotates(cursor, length, length);
    DivModUnique(cursor + length, length, 1, cursor);
  }

  /** k clicks on "Next" followed by k clicks on "Previous" bring the cursor back. */
  lemma {:induction false} PrevTimesUndoesNextTimes(cursor: int, length: int, k: nat)
    requires 0 <= cursor < length
    ensures 0 <= NextTimes(cursor, length, k) < length
    ensures PrevTimes(NextTimes(cursor, length, k), length, k) == cursor
  {
    if k > 0 {
      PrevTimesUndoesNextTimes(cursor, length, k - 1);
      var before := NextTimes(cursor, length, k - 1);
      NextPrevInverse(before, length);
    }
  }

  // ---------------------------------------------------------------------------
  // The pager component

  /** The tutorial page: its one piece of state is the index of the lesson shown. */
  class TypeScriptTutorial {
    var currentSection: int

    /** The cursor always indexes the lesson table. */
    ghost predicate Valid()
      reads this
    {
      0 <= currentSection < |TUTORIAL_SECTIONS|
    }

    /** The page opens on the first lesson. */
    constructor ()
      ensures Valid() && currentSection == 0
    {
      currentSection := 0;
    }

    /** The "Next" button: one lesson forward, from the last back to the first. */
    method HandleNextSection()
      requires Valid()
      modifies this
      ensures Valid()
      ensures currentSection == NextSection(old(currentSection), |TUTORIAL_SECTIONS|)
      ensures old(currentSection) == |TUTORIAL_SECTIONS| - 1 ==> currentSection == 0
      ensures old(currentSection) < |TUTORIAL_SECTIONS| - 1 ==> currentSection == old(currentSection) + 1
    {
      currentSection := NextSection(currentSection, |TUTORIAL_SECTIONS|);
    }

    /** The "Previous" button: one lesson back, from the first to the last. */
    method HandlePrevSection()
      requires Valid()
      modifies this
      ensures Valid()
      ensures currentSection == PrevSection(old(currentSection), |TUTORIAL_SECTIONS|)
      ensures old(currentSection) == 0 ==> currentSection == |TUTORIAL_SECTIONS| - 1
      ensures old(currentSection) > 0 ==> currentSection == old(currentSection) - 1
    {
      currentSection := PrevSection(currentSection, |TUTORIAL_SECTIONS|);
    }

    /** The lesson on display; its id is one more than the cursor. */
    function CurrentTutorial(): (t: TutorialSection)
      reads this
      requires Valid()
      ensures t in TUTORIAL_SECTIONS
      ensures t.id == currentSection + 1
    {
      TUTORIAL_SECTIONS[currentSection]
    }

    /** The badge shown next to the current lesson's title. */
    function CurrentDifficulty(): (d: Difficulty)
      reads this
      requires Valid()
      ensures d == Beginner <==> CurrentTutorial().id <= 2
      ensures d == Intermediate <==> CurrentTutorial().id == 3
      ensures d == Advanced <==> CurrentTutorial().id >= 4
    {
      GetDifficultyBadge(currentSection)
    }

    /** The "Section k of n" label: k is the current lesson's id and lies in 1..n. */
    function ProgressLabel(): (shown: (int, int))
      reads this
      requires Valid()
      ensures shown.1 == |TUTORIAL_SECTIONS|
      ensures 1 <= shown.0 <= shown.1
      ensures shown.0 == CurrentTutorial().id
    {
      (currentSection + 1, |TUTORIAL_SECTIONS|)
    }

    /** The filled fraction of the progress bar; full exactly on the last lesson. */
    function ProgressFraction(): (f: real)
      reads this
      requires Valid()
      ensures 0.0 < f <= 1.0
      ensures f == 1.0 <==> currentSection == |TUTORIAL_SECTIONS| - 1
    {
      (currentSection + 1) as real / |TUTORIAL_SECTIONS| as real
    }
  }

  /** A reader's walk through the page: open it, click "Next" once, then five
      more times, then "Previous" once. */
  method ClickThrough()
  {
    var page := new TypeScriptTutorial();
    assert page.CurrentTutorial().title == "Type Annotations";
    assert page.CurrentDifficulty() == Beginner;
    page.HandleNextSection();
    assert page.CurrentTutorial().id == 2 && page.CurrentTutorial().title == "Interfaces";
    page.HandleNextSection();
    page.HandleNextSection();
    page.HandleNextSection();
    page.HandleNextSection();
    assert page.ProgressFraction() == 1.0;
    page.HandleNextSection();
    assert page.currentSection == 0 && page.CurrentTutorial().id == 1;
    page.HandlePrevSection();
    assert page.ProgressLabel() == (6, 6) && BadgeColor(page.CurrentDifficulty()) == "#f44336";
  }
}
