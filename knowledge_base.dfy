/** The chat widget's knowledge base: five subject handlers that map a question
    to one of a fixed set of explanatory articles (or to nothing), the follow-up
    detector, and the conversation context (a window of the last five subject
    tags and a user level that can only go up).

    Each article's text is an opaque constant: the model records WHICH article
    is chosen, never its wording. */
module KnowledgeBase {
  import opened Wrappers
  import opened Strings

  datatype Topic = Mathematics | Physics | Chemistry | Biology | Programming

  datatype UserLevel = Beginner | Intermediate | Advanced

  /** The fixed articles of the five handlers, in the order each handler tests them. */
  datatype Article =
    | QuadraticEquations | Limits | LinearAlgebra | Statistics
    | NewtonsLaws | Energy
    | PeriodicTable | AcidsAndBases
    | CellBiology
    | Recursion

  /** The handler an article belongs to. */
  function SubjectOf(a: Article): Topic
  {
    match a
    case QuadraticEquations | Limits | LinearAlgebra | Statistics => Mathematics
    case NewtonsLaws | Energy => Physics
    case PeriodicTable | AcidsAndBases => Chemistry
    case CellBiology => Biology
    case Recursion => Programming
  }

  /** Position of an article's test inside its handler (0 is tested first). */
  function Rank(a: Article): nat
  {
    match a
    case QuadraticEquations | NewtonsLaws | PeriodicTable | CellBiology | Recursion => 0
    case Limits | Energy | AcidsAndBases => 1
    case LinearAlgebra => 2
    case Statistics => 3
  }

  /** The trigger of each article, as a rule table over the lowercased question. */
  predicate Triggers(a: Article, q: string)
  {
    match a
    case QuadraticEquations => Contains(q, "quadratic") || (Contains(q, "equation") && Contains(q, "x^2"))
    case Limits => Contains(q, "limit") && (Contains(q, "calculus") || Contains(q, "infinity"))
    case LinearAlgebra =>
      Contains(q, "matrix") || Contains(q, "matrices") || Contains(q, "linear algebra") || Contains(q, "eigenvector")
    case Statistics =>
      Contains(q, "statistics") || Contains(q, "probability") || Contains(q, "standard deviation") || Contains(q, "mean")
    case NewtonsLaws => Contains(q, "newton") && (Contains(q, "law") || Contains(q, "motion"))
    case Energy => Contains(q, "energy") || Contains(q, "kinetic") || Contains(q, "potential")
    case PeriodicTable => Contains(q, "periodic table") || Contains(q, "element") || Contains(q, "atom")
    case AcidsAndBases => Contains(q, "acid") || Contains(q, "base") || Contains(q, "ph")
    case CellBiology => Contains(q, "cell") || Contains(q, "mitochondria") || Contains(q, "organelle")
    case Recursion => Contains(q, "recursion") || Contains(q, "recursive")
  }

  /** `r` is what a first-match handler for `subject` must answer on the
      lowercased question `q`: the lowest-ranked article of that subject whose
      trigger holds, or nothing when no trigger of the subject holds. */
  ghost predicate FirstMatch(subject: Topic, q: string, r: Option<Article>)
  {
    match r
    case Some(a) =>
      && SubjectOf(a) == subject && Triggers(a, q)
      && forall b :: SubjectOf(b) == subject && Rank(b) < Rank(a) ==> !Triggers(b, q)
    case None =>
      forall b :: SubjectOf(b) == subject ==> !Triggers(b, q)
  }

  /** The first-match specification leaves no choice: two answers meeting it agree. */
  lemma FirstMatchUnique(subject: Topic, q: string, r1: Option<Article>, r2: Option<Article>)
    requires FirstMatch(subject, q, r1) && FirstMatch(subject, q, r2)
    ensures r1 == r2
  {
  }

  /** `getMathResponse`. */
  function MathResponse(question: string): (r: Option<Article>)
    ensures FirstMatch(Mathematics, Lower(question), r)
  {
    var q := Lower(question);
    if Contains(q, "quadratic") || (Contains(q, "equation") && Contains(q, "x^2")) then Some(QuadraticEquations)
    else if Contains(q, "limit") && (Contains(q, "calculus") || Contains(q, "infinity")) then Some(Limits)
    else if Contains(q, "matrix") || Contains(q, "matrices") || Contains(q, "linear algebra") || Contains(q, "eigenvector") then
      Some(LinearAlgebra)
    else if Contains(q, "statistics") || Contains(q, "probability") || Contains(q, "standard deviation") || Contains(q, "mean") then
      Some(Statistics)
    else None
  }

  /** `getPhysicsResponse`. */
  function PhysicsResponse(question: string): (r: Option<Article>)
    ensures FirstMatch(Physics, Lower(question), r)
  {
    var q := Lower(question);
    if Contains(q, "newton") && (Contains(q, "law") || Contains(q, "motion")) then Some(NewtonsLaws)
    else if Contains(q, "energy") || Contains(q, "kinetic") || Contains(q, "potential") then Some(Energy)
    else None
  }

  /** `getChemistryResponse`. */
  function ChemistryResponse(question: string): (r: Option<Article>)
    ensures FirstMatch(Chemistry, Lower(question), r)
  {
    var q := Lower(question);
    if Contains(q, "periodic table") || Contains(q, "element") || Contains(q, "atom") then Some(PeriodicTable)
    else if Contains(q, "acid") || Contains(q, "base") || Contains(q, "ph") then Some(AcidsAndBases)
    else None
  }

  /** `getBiologyResponse`. */
  function BiologyResponse(question: string): (r: Option<Article>)
    ensures FirstMatch(Biology, Lower(question), r)
  {
    var q := Lower(question);
    if Contains(q, "cell") || Contains(q, "mitochondria") || Contains(q, "organelle") then Some(CellBiology)
    else None
  }

  /** `getProgrammingResponse`. */
  function ProgrammingResponse(question: string): (r: Option<Article>)
    ensures FirstMatch(Programming, Lower(question), r)
  {
    var q := Lower(question);
    if Contains(q, "recursion") || Contains(q, "recursive") then Some(Recursion) else None
  }

  /** Newton's laws need "newton" together with "law" or "motion"; a question
      that only names Newton and energy gets the energy article. */
  lemma NewtonNeedsLawOrMotion(question: string)
    requires Contains(Lower(question), "newton") && Contains(Lower(question), "kinetic")
    requires !Contains(Lower(question), "law") && !Contains(Lower(question), "motion")
    ensures PhysicsResponse(question) == Some(Energy)
  {
  }

  /** Raw containment: any question mentioning a "graph" (which contains "ph")
      and none of the periodic-table words gets the acids-and-bases article. */
  lemma GraphGetsAcidsAndBases(question: string)
    requires Contains(Lower(question), "graph")
    requires !Contains(Lower(question), "periodic table") && !Contains(Lower(question), "element")
    requires !Contains(Lower(question), "atom")
    ensures ChemistryResponse(question) == Some(AcidsAndBases)
  {
    assert OccursAt("graph", "ph", 3);
    ContainsVia(Lower(question), "graph", "ph", 3);
  }

  /** Raw containment: "meaning" contains "mean", so a question about meaning,
      with no earlier mathematics trigger, gets the statistics article. */
  lemma MeaningGetsStatistics(question: string)
    requires Contains(Lower(question), "meaning")
    requires !Triggers(QuadraticEquations, Lower(question)) && !Triggers(Limits, Lower(question))
    requires !Triggers(LinearAlgebra, Lower(question))
    ensures MathResponse(question) == Some(Statistics)
  {
    assert OccursAt("meaning", "mean", 0);
    ContainsVia(Lower(question), "meaning", "mean", 0);
  }

  /** The fixed text that opens every elaboration. */
  const ElaborationOpening: string := "Let me elaborate on that in more detail...\n\nBased on your question \""
  /** The fixed text that closes every elaboration. */
  const ElaborationClosing: string := "\", here's a deeper explanation:\n\n"

  /** `getElaboration`: the question quoted inside a fixed frame; the previous
      message it is given takes no part in the result. */
  function Elaboration(previousTopic: string, question: string): (r: string)
    ensures Contains(r, "\"" + question + "\"")
  {
    QuotedBetween(ElaborationOpening, question, ElaborationClosing);
    ElaborationOpening + question + ElaborationClosing
  }

  /** The elaboration does not depend on the previous message it is handed. */
  lemma ElaborationIgnoresPrevious(p1: string, p2: string, question: string)
    ensures Elaboration(p1, question) == Elaboration(p2, question)
  {
  }

  /** The current message asks "what", "how" or "why" (after lowercasing). */
  predicate AsksFollowUp(message: string)
  {
    Contains(Lower(message), "what") || Contains(Lower(message), "how") || Contains(Lower(message), "why")
  }

  /** `getContextualResponse`: an elaboration when at least two user messages
      are known and the current one asks a follow-up question, otherwise ''. */
  function ContextualResponse(currentMessage: string, previousMessages: seq<string>): (r: string)
    ensures r != "" <==> |previousMessages| > 1 && AsksFollowUp(currentMessage)
    ensures r != "" ==> Contains(r, "\"" + currentMessage + "\"")
  {
    if |previousMessages| > 1 then
      var lastUserMessage := previousMessages[|previousMessages| - 2];
      if AsksFollowUp(currentMessage) then Elaboration(lastUserMessage, currentMessage) else ""
    else ""
  }

  /** How many subject tags the context remembers. */
  const MaxTopics: nat := 5

  /** The words taken as a sign of an advanced user. */
  const ComplexWords: seq<string> := ["however", "furthermore", "nevertheless", "consequently"]

  predicate HasComplexLanguage(message: string)
  {
    ContainsAny(Lower(message), ComplexWords)
  }

  function Min(a: int, b: int): int
  {
    if a < b then a else b
  }

  /** The topic window after pushing `t`: the pushed sequence, less its oldest
      element when that makes it too long. */
  function PushTopic(window: seq<Topic>, t: Topic): (w: seq<Topic>)
    requires |window| <= MaxTopics
    ensures |w| == Min(|window| + 1, MaxTopics)
    ensures w == (window + [t])[|window| + 1 - |w|..]
  {
    var pushed := window + [t];
    if |pushed| > MaxTopics then pushed[1..] else pushed
  }

  /** The user level after one context update with `message`. */
  function NextLevel(level: UserLevel, message: string): (l: UserLevel)
    ensures l == Advanced <==> level == Advanced || HasComplexLanguage(message)
    ensures l != Advanced ==> l == level
  {
    if HasComplexLanguage(message) then Advanced else level
  }

  /** The topic window after updates with `topics`, starting from the empty window. */
  function ReplayTopics(topics: seq<Topic>): (w: seq<Topic>)
    ensures |w| <= MaxTopics
  {
    if topics == [] then [] else PushTopic(ReplayTopics(topics[..|topics| - 1]), topics[|topics| - 1])
  }

  /** FIFO eviction: after any run of updates the window holds exactly the
      last (at most five) topics, oldest first. */
  lemma {:induction false} WindowHoldsLastTopics(topics: seq<Topic>)
    ensures ReplayTopics(topics) == topics[|topics| - Min(|topics|, MaxTopics)..]
    decreases |topics|
  {
    if topics != [] {
      var init := topics[..|topics| - 1];
      WindowHoldsLastTopics(init);
      var t := topics[|topics| - 1];
      var m := Min(|init|, MaxTopics);
      var w := ReplayTopics(init);
      assert w == init[|init| - m..];
      assert w + [t] == topics[|init| - m..];
      var w' := PushTopic(w, t);
      assert w' == (w + [t])[|w| + 1 - |w'|..];
      assert (w + [t])[|w| + 1 - |w'|..] == topics[|init| - m + |w| + 1 - |w'|..];
    }
  }

  /** The user level after updates with `messages`. */
  function LevelAfter(level: UserLevel, messages: seq<string>): UserLevel
  {
    if messages == [] then level else NextLevel(LevelAfter(level, messages[..|messages| - 1]), messages[|messages| - 1])
  }

  /** The level is advanced after a run of updates exactly when it started
      advanced or one of the messages used complex language; otherwise it is
      still the starting level, so it never goes back down. */
  lemma {:induction false} LevelAfterUpdates(level: UserLevel, messages: seq<string>)
    ensures LevelAfter(level, messages) == Advanced <==>
              level == Advanced || exists i :: 0 <= i < |messages| && HasComplexLanguage(messages[i])
    ensures LevelAfter(level, messages) != Advanced ==> LevelAfter(level, messages) == level
    decreases |messages|
  {
    if messages != [] {
      var init := messages[..|messages| - 1];
      LevelAfterUpdates(level, init);
      if exists i :: 0 <= i < |init| && HasComplexLanguage(init[i]) {
        var i :| 0 <= i < |init| && HasComplexLanguage(init[i]);
        assert messages[i] == init[i];
      }
      if exists i :: 0 <= i < |messages| && HasComplexLanguage(messages[i]) {
        var i :| 0 <= i < |messages| && HasComplexLanguage(messages[i]);
        if i < |init| { assert init[i] == messages[i]; }
      }
    }
  }

  /** `AIKnowledgeBase`: the conversation context that `updateContext` changes
      in place. The application uses one shared instance. */
  class AIKnowledgeBase {
    var previousTopics: seq<Topic>
    var userLevel: UserLevel

    ghost predicate Valid()
      reads this
    {
      |previousTopics| <= MaxTopics
    }

    constructor ()
      ensures Valid()
      ensures previousTopics == [] && userLevel == Intermediate
    {
      previousTopics := [];
      userLevel := Intermediate;
    }

    /** `updateContext`: push the topic (dropping the oldest beyond five) and
        raise the level to advanced on complex language. */
    method UpdateContext(topic: Topic, userMessage: string)
      requires Valid()
      modifies this
      ensures Valid()
      ensures previousTopics == PushTopic(old(previousTopics), topic)
      ensures userLevel == NextLevel(old(userLevel), userMessage)
    {
      previousTopics := previousTopics + [topic];
      if |previousTopics| > MaxTopics {
        previousTopics := previousTopics[1..];
      }
      if HasComplexLanguage(userMessage) {
        userLevel := Advanced;
      }
    }
  }
}
