/**
 * The courses page's card helpers: the colour classes of the level badge and
 * the topic list that shows the first three topics and then "+N more topics".
 */
module Courses {
  import opened Wrappers
  import opened Text

  const BeginnerClasses := "bg-green-100 text-green-800"
  const IntermediateClasses := "bg-yellow-100 text-yellow-800"
  const AdvancedClasses := "bg-red-100 text-red-800"
  const FallbackClasses := "bg-gray-100 text-gray-800"

  /** The topics a card lists before summarising the rest. */
  const ShownTopics := 3

  predicate KnownLevel(level: string) {
    level == "Beginner" || level == "Intermediate" || level == "Advanced"
  }

  /**
   * `getLevelColor`: each known level has its own colour, compared exactly
   * (case included); every other string falls back to gray.
   */
  function LevelColor(level: string): (cls: string)
    ensures cls == BeginnerClasses <==> level == "Beginner"
    ensures cls == IntermediateClasses <==> level == "Intermediate"
    ensures cls == AdvancedClasses <==> level == "Advanced"
    ensures cls == FallbackClasses <==> !KnownLevel(level)
  {
    match level
    case "Beginner" => BeginnerClasses
    case "Intermediate" => IntermediateClasses
    case "Advanced" => AdvancedClasses
    case _ => FallbackClasses
  }

  /** What a card's topic list shows: some topics, then possibly a "+N more topics" line. */
  datatype TopicSummary = TopicSummary(shown: seq<string>, hidden: Option<nat>)

  /**
   * `topics.slice(0, 3)` and `topics.length > 3 && "+{topics.length - 3} more topics"`:
   * the first `min(3, n)` topics in order, and a count of the rest exactly when
   * there is a rest, so that shown and hidden add up to all the topics.
   */
  function Summarize(topics: seq<string>): (s: TopicSummary)
    ensures |s.shown| == (if |topics| < ShownTopics then |topics| else ShownTopics)
    ensures s.shown == topics[..|s.shown|]
    ensures s.hidden.Some? <==> |topics| > ShownTopics
    ensures s.hidden.Some? ==> |s.shown| + s.hidden.value == |topics| && s.hidden.value > 0
    ensures s.hidden.None? ==> s.shown == topics
  {
    TopicSummary(Slice(topics, 0, ShownTopics),
                 if |topics| > ShownTopics then Some(|topics| - ShownTopics) else None)
  }

  /** The text of the summary line. */
  function MoreTopicsLabel(n: nat): string {
    "+" + Decimal(n) + " more topics"
  }

  /** The label reads back: a '+', the numeral of the hidden count, then " more topics". */
  lemma MoreTopicsLabelReadsBack(n: nat)
    ensures var line := MoreTopicsLabel(n);
            var digits := line[1..|line| - |" more topics"|];
            line[0] == '+' && IsDigits(digits) && DecimalValue(digits) == n
  {
    var line := MoreTopicsLabel(n);
    assert line[1..|line| - |" more topics"|] == Decimal(n);
    DecimalRoundTrip(n);
  }

  datatype Course = Course(title: string, duration: string, level: string, topics: seq<string>)

  const CourseList := [
    Course("Data Management with Python", "6 weeks", "Beginner",
           ["Python Fundamentals", "Data Structures and Pandas", "Data Cleaning and Preprocessing",
            "File I/O and Data Formats", "Basic Data Visualization"]),
    Course("Introduction to Statistics", "8 weeks", "Beginner",
           ["Basic Statistical Concepts", "Data Collection and Organization", "Descriptive Statistics",
            "Introduction to Probability", "Basic Hypothesis Testing"]),
    Course("Advanced Statistical Methods", "12 weeks", "Advanced",
           ["Multivariate Analysis", "Advanced Regression Techniques", "Time Series Analysis",
            "Bayesian Statistics", "Machine Learning Basics"]),
    Course("Data Analysis with R", "6 weeks", "Intermediate",
           ["R Programming Fundamentals", "Data Manipulation with dplyr", "Data Visualization with ggplot2",
            "Statistical Analysis in R", "Reproducible Research"]),
    Course("Survey Methodology", "10 weeks", "Intermediate",
           ["Survey Design Principles", "Sampling Techniques", "Questionnaire Development",
            "Data Collection Methods", "Survey Data Analysis"])
  ]

  /**
   * On the page's own data no badge falls back to gray, and every card lists
   * three topics and then "+2 more topics".
   */
  lemma CourseCardsOnPage()
    ensures forall c :: c in CourseList ==> LevelColor(c.level) != FallbackClasses
    ensures forall c :: c in CourseList ==> Summarize(c.topics).hidden == Some(2)
  {
  }
}
