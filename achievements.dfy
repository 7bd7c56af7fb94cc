/** The Trophy Hall (src/pages/Achievements.tsx): certifications, rarity counts and overall progress. */
module Achievements {

  /** The rarity union of the achievement badge component. */
  datatype Rarity = Common | Rare | Epic | Legendary

  datatype Icon = Trophy | Award | Star | Zap

  datatype Achievement = Achievement(title: string, description: string, icon: Icon, rarity: Rarity, dateEarned: string)

  const AllAchievements: seq<Achievement> := [
    Achievement("Power BI", "Certified by PwC", Award, Rare, "2023"),
    Achievement("Data Analytics & Visualization", "Certified by Accenture", Award, Rare, "2023"),
    Achievement("SQL & Python for Data Analysis", "Certified by Anudip Foundation", Award, Rare, "2024"),
    Achievement("Business Analytics", "Certified by Agile Enterprise Coach", Award, Rare, "2025"),
    Achievement("RPA Essentials", "Certified by Automation Anywhere", Award, Rare, "2025"),
    Achievement("Alteryx Designer Core", "Certified by Alteryx", Award, Rare, "2025"),
    Achievement("OCI AI Foundation", "Certified by Oracle", Award, Rare, "2025")
  ]

  /** The fixed denominator of the "n/20" progress display. */
  const ProgressDenominator: nat := 20

  /** The length of `list.filter(a => a.rarity === r)`. */
  function CountRarity(list: seq<Achievement>, r: Rarity): (n: nat)
    ensures n <= |list|
  {
    if list == [] then 0 else (if list[0].rarity == r then 1 else 0) + CountRarity(list[1..], r)
  }

  datatype RarityStats = RarityStats(common: nat, rare: nat, epic: nat, legendary: nat)

  /** rarityStats, over an arbitrary list of achievements. */
  function RarityStatsOf(list: seq<Achievement>): (r: RarityStats)
    ensures r.common + r.rare + r.epic + r.legendary == |list|
  {
    RarityCountsPartition(list);
    RarityStats(CountRarity(list, Common), CountRarity(list, Rare), CountRarity(list, Epic), CountRarity(list, Legendary))
  }

  /** Rarity is a four-valued union, so the four counts cover every achievement exactly once. */
  lemma {:induction false} RarityCountsPartition(list: seq<Achievement>)
    ensures CountRarity(list, Common) + CountRarity(list, Rare) + CountRarity(list, Epic) + CountRarity(list, Legendary) == |list|
  {
    if list != [] {
      RarityCountsPartition(list[1..]);
    }
  }

  /** A rarity count is the whole list exactly when every achievement has that rarity. */
  lemma {:induction false} CountRarityAll(list: seq<Achievement>, r: Rarity)
    ensures CountRarity(list, r) == |list| <==> forall a | a in list :: a.rarity == r
  {
    if list != [] {
      CountRarityAll(list[1..], r);
      assert forall a | a in list :: a == list[0] || a in list[1..];
    }
  }

  /** The shipped certifications are all rare: 7 rare, no other rarity. */
  lemma ShippedRarityStats()
    ensures RarityStatsOf(AllAchievements) == RarityStats(0, 7, 0, 0)
  {
    forall a | a in AllAchievements ensures a.rarity == Rare { }
    CountRarityAll(AllAchievements, Rare);
    RarityCountsPartition(AllAchievements);
  }

  /** The unlocked count shown over 20 is within it, so the progress bar's ratio lies in [0, 1]. */
  lemma ProgressWithinDenominator()
    ensures |AllAchievements| == 7 <= ProgressDenominator
  {
  }

  /** Titles are used as list keys, and they are distinct. */
  lemma TitlesDistinct()
    ensures forall i, j | 0 <= i < j < |AllAchievements| :: AllAchievements[i].title != AllAchievements[j].title
  {
  }
}
