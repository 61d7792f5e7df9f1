/** The chat widget: how one user message is answered (image first, then the
    five subject handlers in a fixed order, then the follow-up elaboration,
    then the fallback cascade), the small arithmetic solver inside the
    cascade's mathematics branch, the message list the widget keeps, the
    word-by-word typing of a reply and the line formatting of reply text.

    Reply texts are opaque: a reply is named by a constructor, and only the
    parts of a reply computed from the input (the echoed question, the
    arithmetic problem and its value) are carried as data. */
module FloatingParrot {
  import opened Wrappers
  import opened Strings
  import opened KnowledgeBase

  // ---------------------------------------------------------------------
  // The arithmetic sub-rule: /(\d+\.?\d*)\s*([\+\-\*\/\^])\s*(\d+\.?\d*)/

  predicate IsOperator(c: char)
  {
    c == '+' || c == '-' || c == '*' || c == '/' || c == '^'
  }

  /** The end of the run of digits that starts at `i` (`\d*`). */
  function DigitsEnd(s: string, i: nat): (j: nat)
    requires i <= |s|
    ensures i <= j <= |s| && (j == |s| || !IsDigit(s[j]))
    decreases |s| - i
  {
    if i < |s| && IsDigit(s[i]) then DigitsEnd(s, i + 1) else i
  }

  /** Everything `DigitsEnd` passes over is a digit. */
  lemma {:induction false} DigitsRun(s: string, i: nat)
    requires i <= |s|
    ensures AllDigits(s[i..DigitsEnd(s, i)])
    decreases |s| - i
  {
    if i < |s| && IsDigit(s[i]) {
      DigitsRun(s, i + 1);
      var j := DigitsEnd(s, i);
      forall k | 0 <= k < j - i ensures IsDigit(s[i..j][k]) {
        if k > 0 { assert s[i..j][k] == s[i + 1..j][k - 1]; }
      }
    }
  }

  /** The end of the run of whitespace that starts at `i` (`\s*`). */
  function SpacesEnd(s: string, i: nat): (j: nat)
    requires i <= |s|
    ensures i <= j <= |s| && (j == |s| || !IsSpace(s[j]))
    decreases |s| - i
  {
    if i < |s| && IsSpace(s[i]) then SpacesEnd(s, i + 1) else i
  }

  /** A decimal numeral as `\d+\.?\d*` accepts it. */
  predicate IsNumeral(t: string)
  {
    if '.' in t then
      var k := IndexOf(t, '.');
      k > 0 && AllDigits(t[..k]) && AllDigits(t[k + 1..])
    else |t| > 0 && AllDigits(t)
  }

  /** The end of the numeral that starts at `i`, taken greedily, or `i` when
      no digit starts there. Greedy is exact here: giving characters back
      always leaves a digit or a '.' next, which neither `\s` nor an operator
      accepts. */
  function NumeralEnd(s: string, i: nat): (j: nat)
    requires i <= |s|
    ensures i <= j <= |s|
    ensures j == i <==> i == |s| || !IsDigit(s[i])
  {
    var a := DigitsEnd(s, i);
    if a == i then i
    else if a < |s| && s[a] == '.' then DigitsEnd(s, a + 1)
    else a
  }

  /** What `NumeralEnd` passes over is a numeral. */
  lemma NumeralRun(s: string, i: nat)
    requires i <= |s| && NumeralEnd(s, i) > i
    ensures IsNumeral(s[i..NumeralEnd(s, i)])
  {
    var a := DigitsEnd(s, i);
    DigitsRun(s, i);
    if a < |s| && s[a] == '.' {
      var b := DigitsEnd(s, a + 1);
      DigitsRun(s, a + 1);
      var t := s[i..b];
      assert t[..a - i] == s[i..a] && t[a - i + 1..] == s[a + 1..b];
      assert '.' !in t[..a - i] by {
        forall k | 0 <= k < a - i ensures t[k] != '.' { assert IsDigit(s[i..a][k]); }
      }
      assert t[a - i] == '.';
      assert IndexOf(t, '.') == a - i;
    } else {
      assert '.' !in s[i..a] by {
        forall k | 0 <= k < a - i ensures s[i..a][k] != '.' { assert IsDigit(s[i..a][k]); }
      }
    }
  }

  function Pow10(n: nat): (p: nat)
    ensures p >= 1
  {
    if n == 0 then 1 else 10 * Pow10(n - 1)
  }

  /** `parseFloat` of a numeral, as an exact real. */
  function NumeralValue(t: string): real
    requires IsNumeral(t)
  {
    if '.' in t then
      var k := IndexOf(t, '.');
      DigitsValue(t[..k]) as real + DigitsValue(t[k + 1..]) as real / Pow10(|t| - k - 1) as real
    else DigitsValue(t) as real
  }

  /** A numeral written with zeros only (and perhaps a point), such as "0", "00" or "0.0". */
  predicate IsZeroNumeral(t: string)
  {
    forall i :: 0 <= i < |t| ==> t[i] == '0' || t[i] == '.'
  }

  /** A numeral denotes zero exactly when it is written with zeros only. */
  lemma ZeroNumeral(t: string)
    requires IsNumeral(t)
    ensures NumeralValue(t) == 0.0 <==> IsZeroNumeral(t)
  {
    if '.' in t {
      var k := IndexOf(t, '.');
      var whole, frac := t[..k], t[k + 1..];
      DigitsValueZero(whole);
      DigitsValueZero(frac);
      FractionZero(DigitsValue(whole), DigitsValue(frac), Pow10(|t| - k - 1));
      assert t == whole + "." + frac;
      if IsZeroNumeral(t) {
        forall i | 0 <= i < |whole| ensures whole[i] == '0' { assert whole[i] == t[i]; }
        forall i | 0 <= i < |frac| ensures frac[i] == '0' { assert frac[i] == t[k + 1 + i]; }
      }
      if NumeralValue(t) == 0.0 {
        assert DigitsValue(whole) == 0 && DigitsValue(frac) == 0;
        forall i | 0 <= i < |t| ensures t[i] == '0' || t[i] == '.' {
          if i < k { assert t[i] == whole[i]; }
          else if i > k { assert t[i] == frac[i - k - 1]; }
        }
      }
    } else {
      DigitsValueZero(t);
    }
  }

  /** A whole part plus a fraction is zero only when both are. */
  lemma FractionZero(whole: nat, frac: nat, scale: nat)
    requires scale >= 1
    ensures whole as real + frac as real / scale as real == 0.0 <==> whole == 0 && frac == 0
  {
    assert frac as real / scale as real >= 0.0;
  }

  /** The part of the input the arithmetic pattern matched: where the match
      starts, the two numerals and the operator between them. */
  datatype Problem = Problem(at: nat, left: string, op: char, right: string)

  /** The arithmetic pattern tried at position `i` only. */
  function MatchAt(s: string, i: nat): (r: Option<Problem>)
    requires i <= |s|
    ensures r.Some? ==> r.value.at == i && IsOperator(r.value.op)
  {
    var e1 := NumeralEnd(s, i);
    if e1 == i then None
    else
      var o := SpacesEnd(s, e1);
      if o < |s| && IsOperator(s[o]) then
        var b := SpacesEnd(s, o + 1);
        var e2 := NumeralEnd(s, b);
        if e2 == b then None else Some(Problem(i, s[i..e1], s[o], s[b..e2]))
      else None
  }

  /** Both operands of a match are numerals. */
  lemma MatchAtNumerals(s: string, i: nat)
    requires i <= |s| && MatchAt(s, i).Some?
    ensures IsNumeral(MatchAt(s, i).value.left) && IsNumeral(MatchAt(s, i).value.right)
  {
    var e1 := NumeralEnd(s, i);
    NumeralRun(s, i);
    var o := SpacesEnd(s, e1);
    var b := SpacesEnd(s, o + 1);
    NumeralRun(s, b);
  }

  /** `userInput.match(...)` from position `from` on: the leftmost position
      where the pattern matches. */
  function FindProblem(s: string, from: nat): (r: Option<Problem>)
    requires from <= |s|
    ensures r.Some? ==> from <= r.value.at <= |s| && MatchAt(s, r.value.at) == r
    ensures r.Some? ==> IsNumeral(r.value.left) && IsNumeral(r.value.right)
    decreases |s| - from
  {
    var m := MatchAt(s, from);
    if m.Some? then MatchAtNumerals(s, from); m
    else if from == |s| then None
    else FindProblem(s, from + 1)
  }

  /** The match found is the leftmost one: the pattern matches at no earlier
      position, and at no position at all when nothing is found. */
  lemma {:induction false} FindProblemLeftmost(s: string, from: nat, i: nat)
    requires from <= i <= |s|
    requires FindProblem(s, from).None? || i < FindProblem(s, from).value.at
    ensures MatchAt(s, i).None?
    decreases |s| - from
  {
    if i > from {
      FindProblemSkip(s, from);
      FindProblemLeftmost(s, from + 1, i);
    } else {
      NoMatchBeforeFound(s, from);
    }
  }

  /** When the search from `from` finds nothing there, nothing matches at `from`. */
  lemma NoMatchBeforeFound(s: string, from: nat)
    requires from <= |s|
    requires FindProblem(s, from).None? || from < FindProblem(s, from).value.at
    ensures MatchAt(s, from).None?
  {
  }

  /** With no match at `from`, the search goes on at `from + 1`. */
  lemma FindProblemSkip(s: string, from: nat)
    requires from < |s|
    requires FindProblem(s, from).None? || from < FindProblem(s, from).value.at
    ensures FindProblem(s, from + 1) == FindProblem(s, from)
  {
    NoMatchBeforeFound(s, from);
  }

  datatype Operation = Addition | Subtraction | Multiplication | Division | Exponentiation

  /** The operation named by an operator character. */
  function OperationOf(op: char): Operation
    requires IsOperator(op)
  {
    match op
    case '+' => Addition
    case '-' => Subtraction
    case '*' => Multiplication
    case '/' => Division
    case '^' => Exponentiation
  }

  /** The computed result: a value, the text "undefined (division by zero)",
      or a power whose value is left to floating point. */
  datatype ArithValue = Value(x: real) | Undefined | Power(base: real, exponent: real)

  /** The `switch (operator)` of the solver, over exact reals. */
  function Evaluate(a: real, op: char, b: real): (v: ArithValue)
    requires IsOperator(op)
    ensures v.Undefined? <==> op == '/' && b == 0.0
    ensures op == '/' && b != 0.0 ==> v.Value? && v.x * b == a
    ensures op == '+' ==> v == Value(a + b)
    ensures op == '-' ==> v.Value? && v.x + b == a
  {
    match OperationOf(op)
    case Addition => Value(a + b)
    case Subtraction => Value(a - b)
    case Multiplication => Value(a * b)
    case Division => if b != 0.0 then Value(a / b) else Undefined
    case Exponentiation => Power(a, b)
  }

  // ---------------------------------------------------------------------
  // The fallback cascade (`generateFallbackResponse`); each predicate is
  // the keyword test of one branch, on the lowercased input.

  predicate SaysHello(q: string) { Contains(q, "hello") || Contains(q, "hi") || Contains(q, "hey") }
  predicate SaysBye(q: string) { Contains(q, "bye") || Contains(q, "goodbye") || Contains(q, "see you") }
  predicate AsksHowAreYou(q: string) { Contains(q, "how are you") || Contains(q, "how do you do") }
  predicate SaysThanks(q: string) { Contains(q, "thank") || Contains(q, "thanks") }
  predicate MentionsMath(q: string)
  {
    Contains(q, "math") || Contains(q, "calculus") || Contains(q, "algebra") || Contains(q, "equation")
    || Contains(q, "solve") || Contains(q, "derivative") || Contains(q, "geometry")
    || Contains(q, "trigonometry") || Contains(q, "statistics")
  }
  predicate MentionsDerivative(q: string) { Contains(q, "derivative") || Contains(q, "differentiate") }
  predicate MentionsIntegral(q: string) { Contains(q, "integral") || Contains(q, "integrate") }
  predicate MentionsScience(q: string)
  {
    Contains(q, "science") || Contains(q, "physics") || Contains(q, "chemistry") || Contains(q, "biology")
    || Contains(q, "experiment") || Contains(q, "scientific")
  }
  predicate MentionsHistory(q: string)
  {
    Contains(q, "history") || Contains(q, "historical") || Contains(q, "event") || Contains(q, "period")
    || Contains(q, "war") || Contains(q, "revolution")
  }
  predicate MentionsLiterature(q: string)
  {
    Contains(q, "literature") || Contains(q, "book") || Contains(q, "novel") || Contains(q, "author")
    || Contains(q, "poem") || Contains(q, "poetry") || Contains(q, "essay") || Contains(q, "write")
    || Contains(q, "writing")
  }
  predicate MentionsEssay(q: string) { Contains(q, "essay") || Contains(q, "thesis") || Contains(q, "argument") }
  predicate MentionsProgramming(q: string)
  {
    Contains(q, "code") || Contains(q, "program") || Contains(q, "python") || Contains(q, "javascript")
    || Contains(q, "java") || Contains(q, "algorithm") || Contains(q, "function") || Contains(q, "debug")
    || Contains(q, "c++")
  }
  predicate MentionsJavaScript(q: string) { Contains(q, "javascript") || Contains(q, "js") }
  predicate MentionsStudy(q: string)
  {
    Contains(q, "study") || Contains(q, "learn") || Contains(q, "memorize") || Contains(q, "focus")
    || Contains(q, "concentrate") || Contains(q, "remember") || Contains(q, "exam") || Contains(q, "test")
    || Contains(q, "quiz")
  }
  predicate MentionsNotes(q: string)
  {
    Contains(q, "note") || Contains(q, "notes") || Contains(q, "summary") || Contains(q, "outline")
    || Contains(q, "take notes")
  }
  predicate MentionsTime(q: string)
  {
    Contains(q, "time") || Contains(q, "schedule") || Contains(q, "plan") || Contains(q, "manage")
    || Contains(q, "deadline") || Contains(q, "procrastinate") || Contains(q, "organize")
  }
  predicate MentionsImage(q: string)
  {
    Contains(q, "image") || Contains(q, "picture") || Contains(q, "photo") || Contains(q, "diagram")
    || Contains(q, "chart") || Contains(q, "graph")
  }
  predicate SoundsStruggling(q: string)
  {
    Contains(q, "hard") || Contains(q, "difficult") || Contains(q, "struggling") || Contains(q, "confused")
    || Contains(q, "frustrated") || Contains(q, "stuck")
  }
  predicate AsksCapabilities(q: string)
  {
    Contains(q, "what can you") || Contains(q, "help me with") || Contains(q, "what do you") || Contains(q, "capabilities")
  }
  predicate SoundsDefeated(q: string)
  {
    Contains(q, "give up") || Contains(q, "quit") || Contains(q, "can't do") || Contains(q, "too hard")
    || Contains(q, "failing")
  }
  predicate MentionsEconomics(q: string)
  {
    Contains(q, "economics") || Contains(q, "supply") || Contains(q, "demand") || Contains(q, "market")
    || Contains(q, "inflation") || Contains(q, "gdp")
  }
  predicate MentionsPsychology(q: string)
  {
    Contains(q, "psychology") || Contains(q, "behavior") || Contains(q, "cognitive") || Contains(q, "memory")
    || Contains(q, "learning theory")
  }
  /** Homework help: "homework" or "assignment" anywhere, or "question" in an
      input shorter than 100 characters (`&&` binds tighter than `||`). */
  predicate AsksHomework(q: string)
  {
    Contains(q, "homework") || Contains(q, "assignment") || (Contains(q, "question") && |q| < 100)
  }
  predicate MentionsExam(q: string)
  {
    Contains(q, "exam") || Contains(q, "test") || Contains(q, "midterm") || Contains(q, "final")
    || Contains(q, "quiz") || Contains(q, "prepare")
  }

  /** The replies of the fallback cascade. */
  datatype FallbackReply =
    | Greeting | Farewell | StatusCheck | Gratitude
    | Solved(problem: Problem, operation: Operation, result: ArithValue)
    | Derivatives | Integrals | MathOverview
    | ScienceOverview | HistoryOverview | EssayWriting | LiteratureOverview
    | PythonHelp | JavaScriptHelp | ProgrammingHelp
    | StudyTips | NoteTaking | TimeManagement | ImageUploadHint | Encouragement | Capabilities
    | DontGiveUp | Economics | Psychology | HomeworkHelper | ExamPreparation
    | Overview(echo: string)

  /** `generateFallbackResponse`: total, first keyword test wins. */
  function FallbackResponse(userInput: string): (r: FallbackReply)
    ensures r.Overview? ==> r.echo == userInput
    ensures r.Solved? ==> MentionsMath(Lower(userInput)) && FindProblem(userInput, 0) == Some(r.problem)
    ensures r.Solved? ==> r.operation == OperationOf(r.problem.op)
    ensures r.Solved? ==> r.result == Evaluate(NumeralValue(r.problem.left), r.problem.op, NumeralValue(r.problem.right))
    ensures r.Solved? ==> (r.result.Undefined? <==> r.problem.op == '/' && IsZeroNumeral(r.problem.right))
    ensures SaysHello(Lower(userInput)) <==> r == Greeting
    ensures var q := Lower(userInput);
              (!SaysHello(q) && !SaysBye(q) && !AsksHowAreYou(q) && !SaysThanks(q) && MentionsMath(q)
               && FindProblem(userInput, 0).Some?) ==> r.Solved?
  {
    var q := Lower(userInput);
    if SaysHello(q) then Greeting
    else if SaysBye(q) then Farewell
    else if AsksHowAreYou(q) then StatusCheck
    else if SaysThanks(q) then Gratitude
    else if MentionsMath(q) then MathReply(userInput, q)
    else TopicReply(userInput, q)
  }

  /** The math branch: a solved problem when the input holds one, else a
      calculus or general math overview. */
  function MathReply(userInput: string, q: string): (r: FallbackReply)
    ensures r.Solved? ==> FindProblem(userInput, 0) == Some(r.problem)
    ensures r.Solved? ==> r.operation == OperationOf(r.problem.op)
    ensures r.Solved? ==> r.result == Evaluate(NumeralValue(r.problem.left), r.problem.op, NumeralValue(r.problem.right))
    ensures r.Solved? ==> (r.result.Undefined? <==> r.problem.op == '/' && IsZeroNumeral(r.problem.right))
    ensures r.Solved? || r in {Derivatives, Integrals, MathOverview}
    ensures r.Solved? <==> FindProblem(userInput, 0).Some?
  {
    match FindProblem(userInput, 0)
    case Some(p) =>
      ZeroNumeral(p.right);
      Solved(p, OperationOf(p.op), Evaluate(NumeralValue(p.left), p.op, NumeralValue(p.right)))
    case None =>
      if MentionsDerivative(q) then Derivatives
      else if MentionsIntegral(q) then Integrals
      else MathOverview
  }

  /** The topic cascade after the math test, ending in the echoing overview. */
  function TopicReply(userInput: string, q: string): (r: FallbackReply)
    ensures r.Overview? ==> r.echo == userInput
    ensures !r.Solved? && r != Greeting
  {
    if MentionsScience(q) then ScienceOverview
    else if MentionsHistory(q) then HistoryOverview
    else if MentionsLiterature(q) then (if MentionsEssay(q) then EssayWriting else LiteratureOverview)
    else if MentionsProgramming(q) then
      if Contains(q, "python") then PythonHelp
      else if MentionsJavaScript(q) then JavaScriptHelp
      else ProgrammingHelp
    else AdviceReply(userInput, q)
  }

  /** The second half of the topic cascade: study advice, encouragement,
      other subjects, and the echoing overview. */
  function AdviceReply(userInput: string, q: string): (r: FallbackReply)
    ensures r.Overview? ==> r.echo == userInput
    ensures !r.Solved? && r != Greeting
  {
    if MentionsStudy(q) then StudyTips
    else if MentionsNotes(q) then NoteTaking
    else if MentionsTime(q) then TimeManagement
    else if MentionsImage(q) then ImageUploadHint
    else if SoundsStruggling(q) then Encouragement
    else if AsksCapabilities(q) then Capabilities
    else if SoundsDefeated(q) then DontGiveUp
    else if MentionsEconomics(q) then Economics
    else if MentionsPsychology(q) then Psychology
    else if AsksHomework(q) then HomeworkHelper
    else if MentionsExam(q) then ExamPreparation
    else Overview(userInput)
  }

  /** The fixed text in front of the echoed input in the default reply. */
  const OverviewOpening: string := "🤔 **I'm here to help with \""

  /** The heading of the default reply, which quotes the raw input. */
  function OverviewHeading(userInput: string): (h: string)
    ensures Contains(h, "\"" + userInput + "\"")
  {
    QuotedBetween(OverviewOpening, userInput, "\"!**");
    OverviewOpening + userInput + "\"!**"
  }

  /** Greetings are matched inside words: "this", "which", "history" and
      "think" all contain "hi", so any of them yields the greeting. */
  lemma HiInsideWords(userInput: string)
    requires Contains(Lower(userInput), "this") || Contains(Lower(userInput), "history")
    ensures FallbackResponse(userInput) == Greeting
  {
    var q := Lower(userInput);
    if Contains(q, "this") {
      assert OccursAt("this", "hi", 1);
      ContainsVia(q, "this", "hi", 1);
    } else {
      assert OccursAt("history", "hi", 0);
      ContainsVia(q, "history", "hi", 0);
    }
  }

  /** The history branch can never fire on "history" or "historical": both
      contain "hi", which the greeting test has already claimed. */
  lemma HistoryBranchNeedsOtherWords(userInput: string)
    requires FallbackResponse(userInput) == HistoryOverview
    ensures !Contains(Lower(userInput), "history") && !Contains(Lower(userInput), "historical")
  {
    var q := Lower(userInput);
    if Contains(q, "historical") {
      assert OccursAt("historical", "hi", 0);
      ContainsVia(q, "historical", "hi", 0);
    }
    if Contains(q, "history") {
      HiInsideWords(userInput);
    }
  }

  /** A farewell wins over thanks ("thanks, bye"). */
  lemma FarewellBeatsGratitude(userInput: string)
    requires SaysBye(Lower(userInput)) && SaysThanks(Lower(userInput))
    requires !SaysHello(Lower(userInput))
    ensures FallbackResponse(userInput) == Farewell
  {
  }

  /** "too hard" contains "hard", which the struggling test catches first, so
      "too hard" never selects the give-up reply. */
  lemma TooHardIsStruggling(userInput: string)
    requires Contains(Lower(userInput), "too hard")
    ensures FallbackResponse(userInput) != DontGiveUp
  {
    assert OccursAt("too hard", "hard", 4);
    ContainsVia(Lower(userInput), "too hard", "hard", 4);
  }

  /** "exam", "test" and "quiz" are claimed by the study-tips branch, so exam
      preparation needs "midterm", "final" or "prepare". */
  lemma ExamPreparationNeedsOtherWords(userInput: string)
    requires FallbackResponse(userInput) == ExamPreparation
    ensures !Contains(Lower(userInput), "exam") && !Contains(Lower(userInput), "test") && !Contains(Lower(userInput), "quiz")
    ensures Contains(Lower(userInput), "midterm") || Contains(Lower(userInput), "final") || Contains(Lower(userInput), "prepare")
  {
  }

  /** "question" only asks for homework help in an input under 100 characters. */
  lemma LongQuestionIsNotHomework(userInput: string)
    requires |userInput| >= 100
    requires !Contains(Lower(userInput), "homework") && !Contains(Lower(userInput), "assignment")
    ensures FallbackResponse(userInput) != HomeworkHelper
  {
  }

  // ---------------------------------------------------------------------
  // Dispatch (`getAIResponse`)

  datatype Reply =
    | ImageAnalysis
    | Knowledge(article: Article)
    | Elaborated(text: string)
    | Fallback(fallback: FallbackReply)

  /** The reply to one message, and the topic tag it pushes onto the context (if any). */
  datatype Turn = Turn(reply: Reply, topic: Option<Topic>)

  /** JavaScript truthiness of the image argument: present and not empty. */
  predicate HasImage(image: Option<string>)
  {
    image.Some? && image.value != ""
  }

  /** The subject handler for a topic. */
  function Handle(t: Topic, userInput: string): Option<Article>
  {
    match t
    case Mathematics => MathResponse(userInput)
    case Physics => PhysicsResponse(userInput)
    case Chemistry => ChemistryResponse(userInput)
    case Biology => BiologyResponse(userInput)
    case Programming => ProgrammingResponse(userInput)
  }

  /** The position of each handler in the dispatch order. */
  function HandlerRank(t: Topic): nat
  {
    match t
    case Mathematics => 0
    case Physics => 1
    case Chemistry => 2
    case Biology => 3
    case Programming => 4
  }

  /** The chat messages; a user message keeps its text, a reply keeps what was answered. */
  datatype Message =
    | UserMessage(id: string, text: string, image: Option<string>)
    | AiMessage(id: string, body: AiBody)

  datatype AiBody = Welcome | Answer(reply: Reply)

  /** `conversationHistory.filter(m => m.sender === 'user').map(m => m.text)`. */
  function UserTexts(history: seq<Message>): (texts: seq<string>)
    ensures |texts| <= |history|
  {
    if history == [] then []
    else
      var last := history[|history| - 1];
      UserTexts(history[..|history| - 1]) + (if last.UserMessage? then [last.text] else [])
  }

  /** The texts of a history split in two are those of the first part,
      followed by those of the second. */
  lemma {:induction false} UserTextsAppend(h1: seq<Message>, h2: seq<Message>)
    ensures UserTexts(h1 + h2) == UserTexts(h1) + UserTexts(h2)
    decreases |h2|
  {
    if h2 == [] {
      assert h1 + h2 == h1;
    } else {
      var init := h2[..|h2| - 1];
      var last := h2[|h2| - 1];
      UserTextsAppend(h1, init);
      assert (h1 + h2)[..|h1 + h2| - 1] == h1 + init;
      assert (h1 + h2)[|h1 + h2| - 1] == last;
    }
  }

  /** A text is listed exactly when some user message of the history carries it. */
  lemma {:induction false} UserTextsMembers(history: seq<Message>)
    ensures forall t :: t in UserTexts(history) <==>
              exists k :: 0 <= k < |history| && history[k].UserMessage? && history[k].text == t
    decreases |history|
  {
    if history != [] {
      var init := history[..|history| - 1];
      UserTextsMembers(init);
      assert forall k :: 0 <= k < |init| ==> init[k] == history[k];
    }
  }

  /** What `getAIResponse` answers and which topic it records. */
  function Respond(userInput: string, history: seq<Message>, image: Option<string>): (t: Turn)
    ensures HasImage(image) ==> t == Turn(ImageAnalysis, None)
    ensures t.reply.ImageAnalysis? <==> HasImage(image)
    ensures t.topic.Some? <==> t.reply.Knowledge?
    ensures t.reply.Knowledge? ==>
              && t.topic == Some(SubjectOf(t.reply.article))
              && Handle(SubjectOf(t.reply.article), userInput) == Some(t.reply.article)
              && forall d :: HandlerRank(d) < HandlerRank(SubjectOf(t.reply.article)) ==> Handle(d, userInput).None?
    ensures !HasImage(image) && !t.reply.Knowledge? ==> forall d :: Handle(d, userInput).None?
    ensures t.reply.Elaborated? ==>
              t.reply.text == ContextualResponse(userInput, UserTexts(history)) && t.reply.text != ""
    ensures t.reply.Fallback? ==>
              && !HasImage(image)
              && ContextualResponse(userInput, UserTexts(history)) == ""
              && t.reply.fallback == FallbackResponse(userInput)
  {
    if HasImage(image) then Turn(ImageAnalysis, None)
    else
      var math := MathResponse(userInput);
      if math.Some? then Turn(Knowledge(math.value), Some(Mathematics))
      else
        var physics := PhysicsResponse(userInput);
        if physics.Some? then Turn(Knowledge(physics.value), Some(Physics))
        else
          var chemistry := ChemistryResponse(userInput);
          if chemistry.Some? then Turn(Knowledge(chemistry.value), Some(Chemistry))
          else
            var biology := BiologyResponse(userInput);
            if biology.Some? then Turn(Knowledge(biology.value), Some(Biology))
            else
              var programming := ProgrammingResponse(userInput);
              if programming.Some? then Turn(Knowledge(programming.value), Some(Programming))
              else
                var contextual := ContextualResponse(userInput, UserTexts(history));
                if contextual != "" then Turn(Elaborated(contextual), None)
                else Turn(Fallback(FallbackResponse(userInput)), None)
  }

  /** The follow-up elaboration can answer from the second user message on:
      the history handed over already ends with the current message. */
  lemma ElaborationFromSecondMessage(earlier: seq<Message>, id: string, userInput: string)
    requires AsksFollowUp(userInput)
    requires forall d :: Handle(d, userInput).None?
    requires exists k :: 0 <= k < |earlier| && earlier[k].UserMessage?
    ensures Respond(userInput, earlier + [UserMessage(id, userInput, None)], None).reply.Elaborated?
  {
    var k :| 0 <= k < |earlier| && earlier[k].UserMessage?;
    UserTextsCount(earlier, k);
    var h := earlier + [UserMessage(id, userInput, None)];
    assert h[..|h| - 1] == earlier;
    assert Handle(Mathematics, userInput).None? && Handle(Physics, userInput).None?;
    assert Handle(Chemistry, userInput).None? && Handle(Biology, userInput).None?;
    assert Handle(Programming, userInput).None?;
  }

  lemma {:induction false} UserTextsCount(history: seq<Message>, k: nat)
    requires k < |history| && history[k].UserMessage?
    ensures |UserTexts(history)| >= 1
    decreases |history|
  {
    if k < |history| - 1 {
      UserTextsCount(history[..|history| - 1], k);
    }
  }

  /** An uploaded image short-circuits everything: the reply is the image
      analysis, whatever the text says, and no topic is recorded. */
  lemma ImageFirst(userInput: string, history: seq<Message>, image: string)
    requires image != ""
    ensures Respond(userInput, history, Some(image)) == Turn(ImageAnalysis, None)
  {
  }


  // ---------------------------------------------------------------------
  // Typing and formatting

  /** `typeMessage`: the successive texts shown while a reply is typed word by
      word; the last one is the whole reply. */
  method TypeMessage(message: string) returns (frames: seq<string>)
    ensures |frames| == |Split(message, ' ')|
    ensures frames[|frames| - 1] == message
    ensures forall k :: 0 <= k < |frames| ==> frames[k] <= message
    ensures forall k :: 0 <= k < |frames| ==> frames[k] == Join(Split(message, ' ')[..k + 1], ' ')
  {
    var words := Split(message, ' ');
    var currentText := "";
    frames := [];
    for i := 0 to |words|
      invariant |frames| == i
      invariant i == 0 ==> currentText == ""
      invariant i > 0 ==> currentText == Join(words[..i], ' ')
      invariant forall k :: 0 <= k < i ==> frames[k] == Join(words[..k + 1], ' ')
    {
      ghost var before := currentText;
      currentText := currentText + (if i > 0 then " " else "") + words[i];
      assert words[..i + 1][..i] == words[..i] && words[..i + 1][i] == words[i];
      if i == 0 {
        assert currentText == words[0];
      } else {
        assert currentText == before + [' '] + words[i];
      }
      frames := frames + [currentText];
    }
    JoinSplit(message, ' ');
    assert words[..|words|] == words;
    forall k | 0 <= k < |frames| ensures frames[k] <= message {
      JoinPrefix(words, k + 1, ' ');
    }
  }

  /** `line.replace(/\*\*(.*?)\*\*\/g, '<strong>$1</strong>')`. */
  function BoldToStrong(s: string): (r: string)
    ensures !Contains(s, "**") ==> r == s
    decreases |s|
  {
    if |s| < 2 then s
    else if s[..2] == "**" && CloseBold(s, 2).Some? then
      assert OccursAt(s, "**", 0);
      var j := CloseBold(s, 2).value;
      "<strong>" + s[2..j] + "</strong>" + BoldToStrong(s[j + 2..])
    else
      NoBoldInTail(s);
      [s[0]] + BoldToStrong(s[1..])
  }

  lemma NoBoldInTail(s: string)
    requires |s| >= 1
    ensures !Contains(s, "**") ==> !Contains(s[1..], "**")
  {
    if Contains(s[1..], "**") {
      var i :| 0 <= i <= |s[1..]| && OccursAt(s[1..], "**", i);
      assert s[i + 1..i + 3] == s[1..][i..i + 2];
      assert OccursAt(s, "**", i + 1);
    }
  }

  /** Where the lazy `(.*?)` stops: the first "**" at or after `j` with no
      line terminator before it. */
  function CloseBold(s: string, j: nat): (r: Option<nat>)
    requires 2 <= j <= |s|
    ensures r.Some? ==> j <= r.value && r.value + 2 <= |s| && s[r.value..r.value + 2] == "**"
    ensures r.Some? ==> forall k :: j <= k < r.value ==> !OccursAt(s, "**", k) && !IsLineTerminator(s[k])
    ensures r.None? ==> forall k :: j <= k && OccursAt(s, "**", k) ==> exists m :: j <= m < k && IsLineTerminator(s[m])
    decreases |s| - j
  {
    if j + 2 > |s| then None
    else if s[j..j + 2] == "**" then Some(j)
    else if IsLineTerminator(s[j]) then None
    else CloseBold(s, j + 1)
  }

  datatype LineKind = BulletLine | NumberedLine | MarkupLine

  /** One rendered line: its kind, its content after the bold conversion, and
      whether the content is inserted as HTML (otherwise shown as text). */
  datatype RenderedLine = RenderedLine(kind: LineKind, content: string, asHtml: bool)

  /** The text opens with a bullet sign, '•' or '✓'. */
  predicate StartsWithBullet(t: string)
  {
    |t| > 0 && (t[0] == '•' || t[0] == '✓')
  }

  /** The text opens with one or more digits and a dot (`/^\d+\./`). */
  predicate StartsNumbered(t: string)
  {
    exists e :: 0 < e < |t| && AllDigits(t[..e]) && t[e] == '.'
  }

  /** The kind of a line, judged on its trimmed form: a bullet, a numbered
      item, or anything else. */
  function KindOf(line: string): (r: LineKind)
    ensures r == BulletLine <==> StartsWithBullet(TrimStart(line))
    ensures r == NumberedLine <==> !StartsWithBullet(TrimStart(line)) && StartsNumbered(TrimStart(line))
  {
    var t := TrimStart(line);
    if StartsWithBullet(t) then BulletLine
    else
      var e := DigitsEnd(t, 0);
      NumberedAtDigitsEnd(t);
      if e > 0 && e < |t| && t[e] == '.' then NumberedLine else MarkupLine
  }

  /** `/^\d+\./` can only match with its dot right after the leading run of
      digits. */
  lemma NumberedAtDigitsEnd(t: string)
    ensures StartsNumbered(t) <==> DigitsEnd(t, 0) > 0 && DigitsEnd(t, 0) < |t| && t[DigitsEnd(t, 0)] == '.'
  {
    var d := DigitsEnd(t, 0);
    if d > 0 && d < |t| && t[d] == '.' {
      DigitsRun(t, 0);
      assert t[0..d] == t[..d];
    }
    if StartsNumbered(t) {
      var e :| 0 < e < |t| && AllDigits(t[..e]) && t[e] == '.';
      assert forall k :: 0 <= k < e ==> t[..e][k] == t[k];
      DigitsEndAt(t, 0, e);
    }
  }

  /** The digit run starting at `i` ends at the first non-digit. */
  lemma {:induction false} DigitsEndAt(s: string, i: nat, e: nat)
    requires i <= e < |s| && !IsDigit(s[e])
    requires forall k :: i <= k < e ==> IsDigit(s[k])
    ensures DigitsEnd(s, i) == e
    decreases e - i
  {
    if i < e {
      DigitsEndAt(s, i + 1, e);
    }
  }

  /** The rendering of one line by `formatMessageText`, as written: bullets and
      numbered items are shown as TEXT after the bold conversion, anything
      else is inserted as markup, an empty line as a break. */
  function FormatLine(line: string): (r: RenderedLine)
    ensures r.kind == KindOf(BoldToStrong(line))
    ensures r.asHtml <==> r.kind == MarkupLine
    ensures line == "" ==> r.content == "<br/>"
    ensures line != "" && !Contains(line, "**") ==> r.content == line
  {
    var content := BoldToStrong(line);
    match KindOf(content)
    case BulletLine => RenderedLine(BulletLine, content, false)
    case NumberedLine => RenderedLine(NumberedLine, content, false)
    case MarkupLine => RenderedLine(MarkupLine, if content == "" then "<br/>" else content, true)
  }

  /** A line that shows the generated `<strong>` tags to the reader. */
  predicate ShowsRawMarkup(r: RenderedLine)
  {
    !r.asHtml && Contains(r.content, "<strong>")
  }

  /** A character other than '*' is copied and the conversion goes on after it. */
  lemma BoldSkip(c: char, rest: string)
    requires c != '*' && |rest| >= 1
    ensures BoldToStrong([c] + rest) == [c] + BoldToStrong(rest)
  {
    var s := [c] + rest;
    assert s[..2][0] == c;
    assert s[1..] == rest;
  }

  /** The lazy group stops at the closing "**" of a word with no '*' and no
      line break in it. */
  lemma {:induction false} CloseBoldScan(word: string, j: nat)
    requires '*' !in word && forall k :: 0 <= k < |word| ==> !IsLineTerminator(word[k])
    requires 2 <= j <= |word| + 2
    ensures CloseBold("**" + word + "**", j) == Some(|word| + 2)
    decreases |word| + 2 - j
  {
    var s := "**" + word + "**";
    if j < |word| + 2 {
      assert s[j] == word[j - 2];
      assert s[j..j + 2] != "**" by { assert s[j..j + 2][0] == s[j]; }
      CloseBoldScan(word, j + 1);
    } else {
      assert s[j..j + 2] == "**";
    }
  }

  /** A bold pair around such a word becomes a `<strong>` element. */
  lemma BoldPair(word: string)
    requires '*' !in word && forall k :: 0 <= k < |word| ==> !IsLineTerminator(word[k])
    ensures BoldToStrong("**" + word + "**") == "<strong>" + word + "</strong>"
  {
    var s := "**" + word + "**";
    var j := |word| + 2;
    CloseBoldScan(word, 2);
    assert s[..2] == "**";
    assert s[2..j] == word;
    assert s[j + 2..] == [];
    assert BoldToStrong(s[j + 2..]) == [];
    assert BoldToStrong(s) == "<strong>" + s[2..j] + "</strong>" + BoldToStrong(s[j + 2..]);
  }

  /** As written, a bullet with bold text shows literal `<strong>` tags. */
  lemma BoldBulletShowsRawTags(word: string)
    requires '*' !in word && forall k :: 0 <= k < |word| ==> !IsLineTerminator(word[k])
    ensures ShowsRawMarkup(FormatLine("• **" + word + "**"))
  {
    var strong := "<strong>" + word + "</strong>";
    var content := ['•'] + ([' '] + strong);
    BoldBulletConverts(word);
    BulletKind(content);
    StrongTagAtTwo(word, content);
  }

  /** The bold pair of a bullet line becomes a `<strong>` element. */
  lemma BoldBulletConverts(word: string)
    requires '*' !in word && forall k :: 0 <= k < |word| ==> !IsLineTerminator(word[k])
    ensures BoldToStrong("• **" + word + "**") == ['•'] + ([' '] + ("<strong>" + word + "</strong>"))
  {
    var bold := "**" + word + "**";
    var tail := [' '] + bold;
    var strong := "<strong>" + word + "</strong>";
    BulletBoldSplit(word);
    BoldSkip('•', tail);
    BoldSkip(' ', bold);
    BoldPair(word);
    assert BoldToStrong(tail) == [' '] + strong;
    assert BoldToStrong(['•'] + tail) == ['•'] + ([' '] + strong);
  }

  lemma BulletBoldSplit(word: string)
    ensures "• **" + word + "**" == ['•'] + ([' '] + ("**" + word + "**"))
  {
    assert "• **" == ['•'] + ([' '] + "**");
  }

  lemma StrongTagAtTwo(word: string, content: string)
    requires content == ['•'] + ([' '] + ("<strong>" + word + "</strong>"))
    ensures Contains(content, "<strong>")
  {
    assert content[2..10] == "<strong>";
    assert OccursAt(content, "<strong>", 2);
  }

  lemma BulletKind(line: string)
    requires |line| > 0 && line[0] == '•'
    ensures KindOf(line) == BulletLine
  {
    assert !IsSpace(line[0]);
    assert TrimStart(line) == line;
  }

  /** The corrected rendering the cascade's bullet texts call for: every line
      goes in as markup, so converted bold text is displayed as emphasis; it
      differs from the line as written only in that flag. */
  function FormatLineAsMarkup(line: string): (r: RenderedLine)
    ensures !ShowsRawMarkup(r)
    ensures r == FormatLine(line).(asHtml := true)
  {
    var content := BoldToStrong(line);
    RenderedLine(KindOf(content), if content == "" then "<br/>" else content, true)
  }

  /** `formatMessageText` as written: one rendered line per '\n'-separated line. */
  function FormatMessageText(text: string): (lines: seq<RenderedLine>)
    ensures |lines| == |Split(text, '\n')|
    ensures forall k :: 0 <= k < |lines| ==> lines[k] == FormatLine(Split(text, '\n')[k])
  {
    var parts := Split(text, '\n');
    seq(|parts|, k requires 0 <= k < |parts| => FormatLine(parts[k]))
  }

  /** As written, a reply made of one bold bullet shows the `<strong>` tags. */
  lemma BoldBulletReplyShowsRawTags(word: string)
    requires '*' !in word && forall k :: 0 <= k < |word| ==> !IsLineTerminator(word[k])
    ensures ShowsRawMarkup(FormatMessageText("• **" + word + "**")[0])
  {
    var text := "• **" + word + "**";
    assert '\n' !in text by {
      forall k | 0 <= k < |text| ensures text[k] != '\n' {
        if 4 <= k < 4 + |word| { assert text[k] == word[k - 4]; }
      }
    }
    BoldBulletShowsRawTags(word);
  }

  /** The corrected `formatMessageText`: the same lines, each inserted as
      markup, so none shows raw tags. */
  function FormatMessageTextAsMarkup(text: string): (lines: seq<RenderedLine>)
    ensures |lines| == |FormatMessageText(text)|
    ensures forall k :: 0 <= k < |lines| ==> lines[k] == FormatMessageText(text)[k].(asHtml := true)
    ensures forall k :: 0 <= k < |lines| ==> !ShowsRawMarkup(lines[k])
  {
    var parts := Split(text, '\n');
    seq(|parts|, k requires 0 <= k < |parts| => FormatLineAsMarkup(parts[k]))
  }

  // ---------------------------------------------------------------------
  // The widget's state

  /** The text of the user message `handleSendMessage` composes. */
  function ComposeUserText(inputValue: string, uploadedImage: Option<string>, imagePreview: Option<string>): (t: string)
    ensures t != ""
    ensures inputValue != "" && !HasImage(uploadedImage) ==> t == inputValue
  {
    var content := inputValue + (if HasImage(uploadedImage) && HasImage(imagePreview) then " [Image uploaded]" else "");
    if content == "" then "Please analyze this image" else content
  }

  /** `FloatingParrot`: the messages shown, the input box, the attached image,
      and the module-wide `aiKnowledge` instance whose context
      `getAIResponse` updates. */
  class ParrotWidget {
    var messages: seq<Message>
    var inputValue: string
    var uploadedImage: Option<string>
    var imagePreview: Option<string>
    var isTyping: bool
    const knowledge: AIKnowledgeBase

    constructor (knowledge: AIKnowledgeBase)
      ensures this.knowledge == knowledge
      ensures messages == [AiMessage("1", Welcome)]
      ensures inputValue == "" && uploadedImage == None && imagePreview == None && !isTyping
    {
      this.knowledge := knowledge;
      messages := [AiMessage("1", Welcome)];
      inputValue := "";
      uploadedImage := None;
      imagePreview := None;
      isTyping := false;
    }

    /** `getAIResponse`: the reply `Respond` names, and the context updated
        with its topic exactly when a subject handler answered. */
    method GetAIResponse(userInput: string, history: seq<Message>, image: Option<string>) returns (reply: Reply)
      requires knowledge.Valid()
      modifies knowledge
      ensures knowledge.Valid()
      ensures reply == Respond(userInput, history, image).reply
      ensures Respond(userInput, history, image).topic.Some? ==>
                && knowledge.previousTopics
                   == PushTopic(old(knowledge.previousTopics), Respond(userInput, history, image).topic.value)
                && knowledge.userLevel == NextLevel(old(knowledge.userLevel), userInput)
      ensures Respond(userInput, history, image).topic.None? ==>
                knowledge.previousTopics == old(knowledge.previousTopics) && knowledge.userLevel == old(knowledge.userLevel)
    {
      var turn := Respond(userInput, history, image);
      if turn.topic.Some? {
        knowledge.UpdateContext(turn.topic.value, userInput);
      }
      reply := turn.reply;
    }

    /** `handleSendMessage`: nothing happens for a blank input without an
        image; otherwise the user message and the finished reply are appended
        and the input and the attachment are cleared. */
    method HandleSendMessage(userMessageId: string, replyId: string) returns (sent: bool)
      requires knowledge.Valid()
      modifies this, knowledge
      ensures knowledge.Valid()
      ensures sent <==> !IsBlank(old(inputValue)) || HasImage(old(uploadedImage))
      ensures !sent ==>
                && messages == old(messages) && inputValue == old(inputValue)
                && uploadedImage == old(uploadedImage) && imagePreview == old(imagePreview)
                && isTyping == old(isTyping)
                && knowledge.previousTopics == old(knowledge.previousTopics)
                && knowledge.userLevel == old(knowledge.userLevel)
      ensures sent ==>
                var text := ComposeUserText(old(inputValue), old(uploadedImage), old(imagePreview));
                var user := UserMessage(userMessageId, text, if HasImage(old(imagePreview)) then old(imagePreview) else None);
                var turn := Respond(text, old(messages) + [user], old(uploadedImage));
                && messages == old(messages) + [user, AiMessage(replyId, Answer(turn.reply))]
                && inputValue == "" && uploadedImage == None && imagePreview == None && !isTyping
                && (turn.topic.Some? ==> knowledge.previousTopics == PushTopic(old(knowledge.previousTopics), turn.topic.value))
                && (turn.topic.None? ==> knowledge.previousTopics == old(knowledge.previousTopics))
                && (turn.topic.Some? ==> knowledge.userLevel == NextLevel(old(knowledge.userLevel), text))
                && (turn.topic.None? ==> knowledge.userLevel == old(knowledge.userLevel))
    {
      var blank := TrimsToEmpty(inputValue);
      if blank && !HasImage(uploadedImage) {
        return false;
      }
      var text := ComposeUserText(inputValue, uploadedImage, imagePreview);
      var user := UserMessage(userMessageId, text, if HasImage(imagePreview) then imagePreview else None);
      var history := messages + [user];
      messages := history;
      inputValue := "";
      var imageToSend := uploadedImage;
      uploadedImage := None;
      imagePreview := None;
      isTyping := true;
      var reply := GetAIResponse(text, history, imageToSend);
      messages := messages + [AiMessage(replyId, Answer(reply))];
      isTyping := false;
      sent := true;
    }
  }
}
