/**
 * The Quest Board page (src/pages/Projects.tsx): two filter selections kept as
 * page state, the filtered quest list, and the statistics panel.
 */
module QuestBoard {
  import opened ProjectData

  /** A filter badge: the "All" wildcard or one member of the union. */
  datatype Selection<T> = All | Only(value: T)

  /** The difficulty badges, in display order. */
  const DifficultyOptions: seq<Selection<Difficulty>> := [All, Only(Easy), Only(Medium), Only(Hard), Only(Legendary)]

  /** The status badges, in display order. */
  const StatusOptions: seq<Selection<Status>> := [All, Only(Completed), Only(InProgress), Only(Available)]

  predicate Selects<T(==)>(sel: Selection<T>, v: T) {
    sel.All? || sel.value == v
  }

  /** The predicate handed to `projects.filter`: each selection is "All" or equal to the project's value. */
  predicate Matches(p: Project, d: Selection<Difficulty>, s: Selection<Status>): (b: bool)
    ensures b <==> (d == All || d == Only(p.difficulty)) && (s == All || s == Only(p.status))
    ensures d == All && s == All ==> b
  {
    Selects(d, p.difficulty) && Selects(s, p.status)
  }

  /** `a` is `b` with some entries dropped and the rest kept in order. */
  predicate IsSubsequence<T(==)>(a: seq<T>, b: seq<T>) {
    if a == [] then true
    else if b == [] then false
    else if a[0] == b[0] then IsSubsequence(a[1..], b[1..])
    else IsSubsequence(a, b[1..])
  }

  /** The number of entries of `ps` that pass the filter. */
  function CountMatching(ps: seq<Project>, d: Selection<Difficulty>, s: Selection<Status>): nat {
    if ps == [] then 0 else (if Matches(ps[0], d, s) then 1 else 0) + CountMatching(ps[1..], d, s)
  }

  /** filteredProjects, over an arbitrary catalogue. */
  function FilterProjects(ps: seq<Project>, d: Selection<Difficulty>, s: Selection<Status>): (r: seq<Project>)
    ensures IsSubsequence(r, ps)
    ensures forall p | p in r :: p in ps && Matches(p, d, s)
    ensures forall p | p in ps && Matches(p, d, s) :: p in r
    ensures |r| == CountMatching(ps, d, s) <= |ps|
  {
    if ps == [] then []
    else if Matches(ps[0], d, s) then [ps[0]] + FilterProjects(ps[1..], d, s)
    else FilterProjects(ps[1..], d, s)
  }

  /** What the page shows for a pair of selections. */
  datatype BoardView = BoardView(stats: ProjectStats, quests: seq<Project>, noQuestsFound: bool)

  function Render(d: Selection<Difficulty>, s: Selection<Status>): (v: BoardView)
    ensures v.quests == FilterProjects(AllProjects, d, s)
    ensures v.noQuestsFound <==> forall p | p in AllProjects :: !Matches(p, d, s)
  {
    NothingKeptIff(AllProjects, d, s);
    var quests := FilterProjects(AllProjects, d, s);
    BoardView(GetProjectStats(), quests, |quests| == 0)
  }

  /** The page component: the two useState slots and their badge handlers. */
  class QuestBoardPage {
    var selectedDifficulty: Selection<Difficulty>
    var selectedStatus: Selection<Status>

    constructor ()
      ensures selectedDifficulty == All && selectedStatus == All
    {
      selectedDifficulty := All;
      selectedStatus := All;
    }

    /** What the page renders for the current selections. */
    function View(): BoardView
      reads this
    {
      Render(selectedDifficulty, selectedStatus)
    }

    /** A click on a difficulty badge. */
    method ClickDifficulty(d: Selection<Difficulty>)
      modifies this
      ensures selectedDifficulty == d
      ensures selectedStatus == old(selectedStatus)
      ensures View() == Render(d, old(selectedStatus))
    {
      selectedDifficulty := d;
    }

    /** A click on a status badge. */
    method ClickStatus(s: Selection<Status>)
      modifies this
      ensures selectedStatus == s
      ensures selectedDifficulty == old(selectedDifficulty)
      ensures View() == Render(old(selectedDifficulty), s)
    {
      selectedStatus := s;
    }
  }

  /** With both wildcards the filter returns the catalogue unchanged, in order. */
  lemma {:induction false} AllAllKeepsEverything(ps: seq<Project>)
    ensures FilterProjects(ps, All, All) == ps
  {
    if ps != [] {
      AllAllKeepsEverything(ps[1..]);
    }
  }

  /** A kept sublist is never longer than the list it was taken from. */
  lemma {:induction false} SubsequenceNoLonger<T>(a: seq<T>, b: seq<T>)
    requires IsSubsequence(a, b)
    ensures |a| <= |b|
  {
    if a != [] && b != [] {
      if a[0] == b[0] {
        SubsequenceNoLonger(a[1..], b[1..]);
      } else {
        SubsequenceNoLonger(a, b[1..]);
      }
    }
  }

  /** The badges are "All" followed by each member of the union exactly once. */
  lemma DifficultyOptionsComplete()
    ensures |DifficultyOptions| == 5 && DifficultyOptions[0] == All
    ensures forall d: Difficulty :: Only(d) in DifficultyOptions[1..]
    ensures forall i, j | 0 <= i < j < |DifficultyOptions| :: DifficultyOptions[i] != DifficultyOptions[j]
  {
    forall d: Difficulty ensures Only(d) in DifficultyOptions[1..] {
      match d
      case Easy => assert DifficultyOptions[1..][0] == Only(d);
      case Medium => assert DifficultyOptions[1..][1] == Only(d);
      case Hard => assert DifficultyOptions[1..][2] == Only(d);
      case Legendary => assert DifficultyOptions[1..][3] == Only(d);
    }
  }

  lemma StatusOptionsComplete()
    ensures |StatusOptions| == 4 && StatusOptions[0] == All
    ensures forall s: Status :: Only(s) in StatusOptions[1..]
    ensures forall i, j | 0 <= i < j < |StatusOptions| :: StatusOptions[i] != StatusOptions[j]
  {
    forall s: Status ensures Only(s) in StatusOptions[1..] {
      match s
      case Completed => assert StatusOptions[1..][0] == Only(s);
      case InProgress => assert StatusOptions[1..][1] == Only(s);
      case Available => assert StatusOptions[1..][2] == Only(s);
    }
  }

  /** The filter keeps nothing exactly when no project matches the selections. */
  lemma {:induction false} NothingKeptIff(ps: seq<Project>, d: Selection<Difficulty>, s: Selection<Status>)
    ensures FilterProjects(ps, d, s) == [] <==> forall p | p in ps :: !Matches(p, d, s)
  {
    if ps != [] {
      NothingKeptIff(ps[1..], d, s);
      assert forall p | p in ps :: p == ps[0] || p in ps[1..];
    }
  }

  /** The statistics panel counts the whole catalogue whatever the selections are. */
  lemma StatsIgnoreFilters(d1: Selection<Difficulty>, s1: Selection<Status>, d2: Selection<Difficulty>, s2: Selection<Status>)
    ensures Render(d1, s1).stats == Render(d2, s2).stats == GetProjectStats()
  {
  }

  /** On the shipped catalogue, selecting "In Progress" or "Available" shows "No Quests Found". */
  lemma ShippedUnfinishedShowNothing(d: Selection<Difficulty>)
    ensures Render(d, Only(InProgress)).noQuestsFound
    ensures Render(d, Only(Available)).noQuestsFound
  {
    forall p | p in AllProjects ensures p.status == Completed { }
    assert forall p | p in AllProjects :: !Matches(p, d, Only(InProgress)) && !Matches(p, d, Only(Available));
    NothingKeptIff(AllProjects, d, Only(InProgress));
    NothingKeptIff(AllProjects, d, Only(Available));
  }

  /** When exactly one entry matches, the filter returns exactly that entry. */
  lemma {:induction false} KeepsSingleMatch(ps: seq<Project>, i: nat, d: Selection<Difficulty>, s: Selection<Status>)
    requires i < |ps| && Matches(ps[i], d, s)
    requires forall j | 0 <= j < |ps| && j != i :: !Matches(ps[j], d, s)
    ensures FilterProjects(ps, d, s) == [ps[i]]
  {
    if i == 0 {
      NothingKeptIff(ps[1..], d, s);
    } else {
      KeepsSingleMatch(ps[1..], i - 1, d, s);
    }
  }

  /** On the shipped catalogue the Legendary badge keeps exactly the NLP chatbot. */
  lemma ShippedLegendary()
    ensures FilterProjects(AllProjects, Only(Legendary), All) == [AllProjects[2]]
  {
    KeepsSingleMatch(AllProjects, 2, Only(Legendary), All);
  }
}
