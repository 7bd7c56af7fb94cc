/**
 * The quest (project) catalogue of the portfolio and the statistics derived
 * from it (src/data/projects.ts).
 */
module ProjectData {

  datatype Difficulty = Easy | Medium | Hard | Legendary

  datatype Status = Completed | InProgress | Available

  /** A project card; the prose fields (description, reward, links) are display-only. */
  datatype Project = Project(title: string, difficulty: Difficulty, technologies: seq<string>, status: Status)

  /** The shipped catalogue, in source order. */
  const AllProjects: seq<Project> := [
    Project("Stock Market Prediction", Hard, ["Python", "Pandas", "scikit-learn"], Completed),
    Project("Customer Churn Prediction", Hard, ["Python", "scikit-learn", "Power BI", "SMOTE"], Completed),
    Project("Chatbot with NLP", Legendary, ["Python", "TensorFlow", "Keras", "NLTK", "BERT"], Completed),
    Project("Diversity and Inclusion Dashboard", Medium, ["Power BI", "DAX", "SQL"], Completed),
    Project("Call Center Dashboard", Medium, ["Power BI", "DAX", "SQL"], Completed),
    Project("Playing Obstacle Games using OpenCV", Hard, ["Python", "OpenCV", "TensorFlow"], Completed),
    Project("AI Desktop Voice Assistant", Hard, ["Python", "SpeechRecognition", "pyttsx3"], Completed),
    Project("MCQ Quiz in Java", Easy, ["Java", "Swing"], Completed),
    Project("Data Analysis of Fraudulent Transactions", Hard, ["Python", "Pandas", "scikit-learn", "Matplotlib"], Completed),
    Project("Data Analysis on Zomato Orders", Medium, ["Python", "Pandas", "Matplotlib", "Seaborn"], Completed)
  ]

  /** The length of `ps.filter(p => p.status === s)`. */
  function CountStatus(ps: seq<Project>, s: Status): (n: nat)
    ensures n <= |ps|
  {
    if ps == [] then 0 else (if ps[0].status == s then 1 else 0) + CountStatus(ps[1..], s)
  }

  /** `ps.flatMap(p => p.technologies)`: every technology entry, in order, repeats kept. */
  function AllTechnologies(ps: seq<Project>): seq<string> {
    if ps == [] then [] else ps[0].technologies + AllTechnologies(ps[1..])
  }

  /** The members of `new Set(s)`. */
  function Elements(s: seq<string>): set<string> {
    set x | x in s
  }

  datatype ProjectStats = ProjectStats(completed: nat, inProgress: nat, available: nat, total: nat, technologiesCount: nat)

  /** The statistics of an arbitrary catalogue, computed as getProjectStats does. */
  function StatsOf(ps: seq<Project>): (r: ProjectStats)
    ensures r.total == |ps|
    ensures r.completed + r.inProgress + r.available == r.total
    ensures r.technologiesCount <= |AllTechnologies(ps)|
    ensures forall p | p in ps :: |Elements(p.technologies)| <= r.technologiesCount
  {
    StatusCountsPartition(ps);
    DistinctAtMostLength(AllTechnologies(ps));
    SingleProjectBound(ps);
    ProjectStats(
      CountStatus(ps, Completed),
      CountStatus(ps, InProgress),
      CountStatus(ps, Available),
      |ps|,
      |Elements(AllTechnologies(ps))|)
  }

  /** getProjectStats(): the statistics of the shipped catalogue. */
  function GetProjectStats(): (st: ProjectStats)
    ensures st.total == |AllProjects| == 10
    ensures st.completed + st.inProgress + st.available == st.total
  {
    StatsOf(AllProjects)
  }

  /** Status is a three-valued union, so the three counts cover every project exactly once. */
  lemma {:induction false} StatusCountsPartition(ps: seq<Project>)
    ensures CountStatus(ps, Completed) + CountStatus(ps, InProgress) + CountStatus(ps, Available) == |ps|
  {
    if ps != [] {
      StatusCountsPartition(ps[1..]);
    }
  }

  /** A status count is the whole catalogue exactly when every project has that status. */
  lemma {:induction false} CountStatusAll(ps: seq<Project>, s: Status)
    ensures CountStatus(ps, s) == |ps| <==> forall p | p in ps :: p.status == s
  {
    if ps != [] {
      CountStatusAll(ps[1..], s);
      assert forall p | p in ps :: p == ps[0] || p in ps[1..];
    }
  }

  /** A status count is zero exactly when no project has that status. */
  lemma {:induction false} CountStatusNone(ps: seq<Project>, s: Status)
    ensures CountStatus(ps, s) == 0 <==> forall p | p in ps :: p.status != s
  {
    if ps != [] {
      CountStatusNone(ps[1..], s);
      assert forall p | p in ps :: p == ps[0] || p in ps[1..];
    }
  }

  /** A set built from a list never has more members than the list has entries. */
  lemma {:induction false} DistinctAtMostLength(s: seq<string>)
    ensures |Elements(s)| <= |s|
  {
    if s != [] {
      DistinctAtMostLength(s[1..]);
      assert Elements(s) == Elements(s[1..]) + {s[0]};
    }
  }

  /** The technologies of a project in the catalogue all appear in the flattened list. */
  lemma {:induction false} TechnologiesIncluded(ps: seq<Project>, p: Project)
    requires p in ps
    ensures Elements(p.technologies) <= Elements(AllTechnologies(ps))
  {
    if ps[0] != p {
      TechnologiesIncluded(ps[1..], p);
    }
  }

  lemma SingleProjectBound(ps: seq<Project>)
    ensures forall p | p in ps :: |Elements(p.technologies)| <= |Elements(AllTechnologies(ps))|
  {
    forall p | p in ps
      ensures |Elements(p.technologies)| <= |Elements(AllTechnologies(ps))|
    {
      TechnologiesIncluded(ps, p);
      SubsetCardinality(Elements(p.technologies), Elements(AllTechnologies(ps)));
    }
  }

  lemma SubsetCardinality(a: set<string>, b: set<string>)
    requires a <= b
    ensures |a| <= |b|
  {
    assert b == a + (b - a);
  }

  /** A list without repeated entries has as many distinct members as entries. */
  lemma {:induction false} DistinctListCardinality(s: seq<string>)
    requires forall i, j | 0 <= i < j < |s| :: s[i] != s[j]
    ensures |Elements(s)| == |s|
  {
    if s != [] {
      DistinctListCardinality(s[1..]);
      assert Elements(s) == Elements(s[1..]) + {s[0]};
      assert s[0] !in Elements(s[1..]);
    }
  }

  /** The eighteen distinct technologies of the shipped catalogue, in first-use order. */
  const ShippedTechnologies: seq<string> := [
    "Python", "Pandas", "scikit-learn", "Power BI", "SMOTE", "TensorFlow", "Keras", "NLTK", "BERT",
    "DAX", "SQL", "OpenCV", "SpeechRecognition", "pyttsx3", "Java", "Swing", "Matplotlib", "Seaborn"
  ]

  /** Every shipped project is Completed: 10 of 10, none in progress, none available. */
  lemma ShippedStatusCounts()
    ensures CountStatus(AllProjects, Completed) == 10
    ensures CountStatus(AllProjects, InProgress) == 0
    ensures CountStatus(AllProjects, Available) == 0
  {
    forall p | p in AllProjects ensures p.status == Completed { }
    CountStatusAll(AllProjects, Completed);
    CountStatusNone(AllProjects, InProgress);
    CountStatusNone(AllProjects, Available);
  }

  lemma ShippedTechnologiesDistinct()
    ensures forall i, j | 0 <= i < j < |ShippedTechnologies| :: ShippedTechnologies[i] != ShippedTechnologies[j]
  {
  }

  /** If every project draws its technologies from `known`, so does the flattened list. */
  lemma {:induction false} TechnologiesDrawnFrom(ps: seq<Project>, known: set<string>)
    requires forall p | p in ps :: Elements(p.technologies) <= known
    ensures Elements(AllTechnologies(ps)) <= known
  {
    if ps != [] {
      TechnologiesDrawnFrom(ps[1..], known);
      ElementsConcat(ps[0].technologies, AllTechnologies(ps[1..]));
    }
  }

  lemma ElementsConcat(a: seq<string>, b: seq<string>)
    ensures Elements(a + b) == Elements(a) + Elements(b)
  {
  }

  lemma ShippedTechnologiesCovered()
    ensures Elements(AllTechnologies(AllProjects)) <= Elements(ShippedTechnologies)
  {
    var known := Elements(ShippedTechnologies);
    forall p | p in AllProjects ensures Elements(p.technologies) <= known {
      forall x | x in p.technologies ensures x in ShippedTechnologies { }
    }
    TechnologiesDrawnFrom(AllProjects, known);
  }

  lemma ShippedTechnologiesUsed()
    ensures Elements(ShippedTechnologies) <= Elements(AllTechnologies(AllProjects))
  {
    var ps := AllProjects;
    var all := Elements(AllTechnologies(ps));
    TechnologiesIncluded(ps, ps[0]);
    TechnologiesIncluded(ps, ps[1]);
    TechnologiesIncluded(ps, ps[2]);
    TechnologiesIncluded(ps, ps[3]);
    TechnologiesIncluded(ps, ps[5]);
    TechnologiesIncluded(ps, ps[6]);
    TechnologiesIncluded(ps, ps[7]);
    TechnologiesIncluded(ps, ps[8]);
    TechnologiesIncluded(ps, ps[9]);
    assert Elements(ShippedTechnologies) <= Elements(ps[0].technologies) + Elements(ps[1].technologies)
      + Elements(ps[2].technologies) + Elements(ps[3].technologies) + Elements(ps[5].technologies)
      + Elements(ps[6].technologies) + Elements(ps[7].technologies) + Elements(ps[8].technologies)
      + Elements(ps[9].technologies);
  }

  /** The shipped catalogue uses exactly the eighteen technologies above. */
  lemma ShippedTechnologySet()
    ensures Elements(AllTechnologies(AllProjects)) == Elements(ShippedTechnologies)
  {
    ShippedTechnologiesCovered();
    ShippedTechnologiesUsed();
  }

  /** getProjectStats() on the shipped data: 10 completed of 10 and 18 distinct technologies. */
  lemma ShippedStats()
    ensures GetProjectStats() == ProjectStats(10, 0, 0, 10, 18)
  {
    ShippedStatusCounts();
    ShippedTechnologySet();
    ShippedTechnologiesDistinct();
    DistinctListCardinality(ShippedTechnologies);
  }
}
