/**
 * The character profile (src/pages/Profile.tsx): the skill list shown in four
 * groups, and the four headline stats derived from the project catalogue.
 */
module Profile {
  import ProjectData
  import Decimal

  datatype SkillColor = Magic | Gold | Health | Mana | Exp

  /** A skill bar; `name` is the label shown on it. */
  datatype Skill = Skill(name: string, value: int, maxValue: int, color: SkillColor, level: int)

  const Skills: seq<Skill> := [
    Skill("Requirement Gathering", 95, 100, Magic, 95),
    Skill("Stakeholder Management", 98, 100, Health, 98),
    Skill("Business Process Analysis", 90, 100, Mana, 90),
    Skill("Documentation & Reporting", 92, 100, Gold, 92),
    Skill("Data Analysis & Visualization", 88, 100, Exp, 88),
    Skill("SQL & Database Management", 85, 100, Mana, 85),
    Skill("Python Programming", 82, 100, Magic, 82),
    Skill("Machine Learning & AI", 80, 100, Gold, 80),
    Skill("Power BI & Tableau", 87, 100, Health, 87),
    Skill("Excel & Advanced Analytics", 95, 100, Exp, 95),
    Skill("API Integration & Testing", 75, 100, Mana, 75),
    Skill("Agile & Scrum Methodologies", 88, 100, Magic, 88),
    Skill("Project Management", 85, 100, Gold, 85),
    Skill("Problem Solving", 93, 100, Health, 93),
    Skill("Communication & Presentation", 90, 100, Exp, 90)
  ]

  /** `Array.prototype.slice(start, end)` for non-negative bounds: both are clamped to the length. */
  function Slice<T>(s: seq<T>, start: nat, end: nat): (r: seq<T>)
    ensures start <= end <= |s| ==> r == s[start..end]
    ensures start <= |s| <= end ==> r == s[start..]
    ensures end <= start || |s| <= start ==> r == []
  {
    var hi := if end <= |s| then end else |s|;
    var lo := if start <= hi then start else hi;
    s[lo..hi]
  }

  /** `slice(start)`: from `start`, clamped, to the end. */
  function SliceFrom<T>(s: seq<T>, start: nat): seq<T> {
    Slice(s, start, |s|)
  }

  /** The four skill cards: slice(0, 4), slice(4, 8), slice(8, 12) and slice(12). */
  function SkillGroups(s: seq<Skill>): (groups: seq<seq<Skill>>)
    ensures |groups| == 4
    ensures groups[0] + groups[1] + groups[2] + groups[3] == s
    ensures forall k | 0 <= k < 3 :: |groups[k]| <= 4
  {
    var g := [Slice(s, 0, 4), Slice(s, 4, 8), Slice(s, 8, 12), SliceFrom(s, 12)];
    GroupsConcatenate(s);
    g
  }

  /** Whatever the length of the list, the four slices put back together are the list. */
  lemma GroupsConcatenate(s: seq<Skill>)
    ensures Slice(s, 0, 4) + Slice(s, 4, 8) + Slice(s, 8, 12) + SliceFrom(s, 12) == s
  {
    var n := |s|;
    var a := if n < 4 then n else 4;
    var b := if n < 8 then n else 8;
    var c := if n < 12 then n else 12;
    assert Slice(s, 0, 4) == s[..a];
    assert Slice(s, 4, 8) == s[a..b];
    assert Slice(s, 8, 12) == s[b..c];
    assert SliceFrom(s, 12) == s[c..];
    assert s[..a] + s[a..b] + s[b..c] + s[c..] == s;
  }

  /** A skill bar the StatBar can draw: out of 100, value in range, level equal to value. */
  predicate WellFormedSkill(sk: Skill) {
    sk.maxValue == 100 && 0 <= sk.value <= sk.maxValue && sk.level == sk.value
  }

  /** A list of at least twelve skills fills the first three groups and leaves the rest to the fourth. */
  lemma GroupSizes(s: seq<Skill>)
    requires |s| >= 12
    ensures var g := SkillGroups(s); |g[0]| == 4 && |g[1]| == 4 && |g[2]| == 4 && |g[3]| == |s| - 12
  {
  }

  /** The fifteen shipped skills are shown as groups of 4, 4, 4 and 3. */
  lemma ShippedGroupSizes()
    ensures |Skills| == 15
    ensures var g := SkillGroups(Skills); |g[0]| == 4 && |g[1]| == 4 && |g[2]| == 4 && |g[3]| == 3
  {
    GroupSizes(Skills);
  }

  /** Every shipped skill is out of 100, within range, and has its level equal to its value. */
  lemma ShippedSkillsWellFormed()
    ensures forall sk | sk in Skills :: WellFormedSkill(sk)
  {
  }

  /** Labels are used as list keys, and they are distinct. */
  lemma SkillLabelsDistinct()
    ensures forall i, j | 0 <= i < j < |Skills| :: Skills[i].name != Skills[j].name
  {
  }

  /** A headline stat; `name` is its label. */
  datatype Stat = Stat(name: string, value: string)

  /** The four headline stats for a given set of project statistics. */
  function StatsPanel(ps: ProjectData.ProjectStats): (stats: seq<Stat>)
    ensures |stats| == 4
    ensures stats[0].name == "Projects Completed" && stats[1].name == "Years of Experience"
    ensures stats[2].name == "Technologies Mastered" && stats[3].name == "Coffee Consumed"
    ensures stats[1].value == "1+" && stats[3].value == "\U{221E}"
    ensures Decimal.IsDigits(stats[0].value) && Decimal.ParseDecimal(stats[0].value) == ps.completed
    ensures |stats[0].value| > 1 ==> stats[0].value[0] != '0'
    ensures |stats[2].value| >= 2 && stats[2].value[|stats[2].value| - 1] == '+'
    ensures Decimal.IsDigits(stats[2].value[..|stats[2].value| - 1])
    ensures Decimal.ParseDecimal(stats[2].value[..|stats[2].value| - 1]) == ps.technologiesCount
    ensures |stats[2].value| > 2 ==> stats[2].value[0] != '0'
  {
    Decimal.ParseRendered(ps.completed);
    Decimal.ParseRendered(ps.technologiesCount);
    var tech := Decimal.NatToString(ps.technologiesCount);
    assert (tech + "+")[..|tech|] == tech;
    [
      Stat("Projects Completed", Decimal.NatToString(ps.completed)),
      Stat("Years of Experience", "1+"),
      Stat("Technologies Mastered", tech + "+"),
      Stat("Coffee Consumed", "\U{221E}")
    ]
  }

  lemma TenAndEighteenRendered()
    ensures Decimal.NatToString(10) == "10" && Decimal.NatToString(18) == "18"
  {
    assert Decimal.NatToString(10) == Decimal.NatToString(1) + [Decimal.DigitChar(0)];
    assert Decimal.NatToString(18) == Decimal.NatToString(1) + [Decimal.DigitChar(8)];
  }

  /** The panel for completed 10 and 18 technologies shows "10" and "18+". */
  lemma ShippedPanel()
    ensures StatsPanel(ProjectData.ProjectStats(10, 0, 0, 10, 18))[0].value == "10"
    ensures StatsPanel(ProjectData.ProjectStats(10, 0, 0, 10, 18))[2].value == "18+"
  {
    TenAndEighteenRendered();
  }

  /**
   * The stats the page shows, from getProjectStats(): on the shipped data
   * "10" projects completed and "18+" technologies.
   */
  function ShownStats(): (stats: seq<Stat>)
    ensures |stats| == 4
    ensures stats[0].name == "Projects Completed" && stats[0].value == "10"
    ensures stats[2].name == "Technologies Mastered" && stats[2].value == "18+"
  {
    ProjectData.ShippedStats();
    ShippedPanel();
    StatsPanel(ProjectData.GetProjectStats())
  }
}
