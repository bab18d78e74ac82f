/** The create-question form: five editable draft lists, each with an
    append, a change-at-index and a remove-at-index handler, and the
    submit step that prunes blank entries and builds the `Question`. */
module AddQuestionForm {
  import opened Sequences
  import opened Text
  import opened Questions

  // ---------------------------------------------------------------------
  // Blank entries and per-field edits
  // ---------------------------------------------------------------------

  /** The entry an "add test case" button appends. */
  const BlankTestCase := TestCase("", "", "")

  /** The entry an "add solution" button appends. */
  const BlankSolution := Solution("", "", "", "")

  /** `keyof TestCase`. */
  datatype TestCaseField = Input | Output | Explanation

  /** `keyof Solution`. */
  datatype SolutionField = Name | Explanation | Example | Code

  function TestCaseFieldValue(tc: TestCase, f: TestCaseField): string {
    match f
    case Input => tc.input
    case Output => tc.output
    case Explanation => tc.explanation
  }

  /** `{ ...tc, [field]: value }`: field `f` becomes `v`, the others keep
      their values. */
  function WithTestCaseField(tc: TestCase, f: TestCaseField, v: string): (r: TestCase)
    ensures TestCaseFieldValue(r, f) == v
    ensures forall g :: g != f ==> TestCaseFieldValue(r, g) == TestCaseFieldValue(tc, g)
  {
    match f
    case Input => tc.(input := v)
    case Output => tc.(output := v)
    case Explanation => tc.(explanation := v)
  }

  function SolutionFieldValue(s: Solution, f: SolutionField): string {
    match f
    case Name => s.name
    case Explanation => s.explanation
    case Example => s.example
    case Code => s.code
  }

  /** `{ ...s, [field]: value }`: field `f` becomes `v`, the others keep
      their values. */
  function WithSolutionField(s: Solution, f: SolutionField, v: string): (r: Solution)
    ensures SolutionFieldValue(r, f) == v
    ensures forall g :: g != f ==> SolutionFieldValue(r, g) == SolutionFieldValue(s, g)
  {
    match f
    case Name => s.(name := v)
    case Explanation => s.(explanation := v)
    case Example => s.(example := v)
    case Code => s.(code := v)
  }

  // ---------------------------------------------------------------------
  // Submit-time pruning
  // ---------------------------------------------------------------------

  /** A test case is sent when both its input and its output are non-blank,
      that is, each holds a character that is not whitespace. */
  predicate KeepTestCase(tc: TestCase)
    ensures KeepTestCase(tc) <==>
      (exists k :: 0 <= k < |tc.input| && !IsWhitespace(tc.input[k]))
      && (exists k :: 0 <= k < |tc.output| && !IsWhitespace(tc.output[k]))
  {
    NonBlank(tc.input) && NonBlank(tc.output)
  }

  /** A solution is sent when both its name and its code are non-blank,
      that is, each holds a character that is not whitespace. */
  predicate KeepSolution(s: Solution)
    ensures KeepSolution(s) <==>
      (exists k :: 0 <= k < |s.name| && !IsWhitespace(s.name[k]))
      && (exists k :: 0 <= k < |s.code| && !IsWhitespace(s.code[k]))
  {
    NonBlank(s.name) && NonBlank(s.code)
  }

  /** `list.filter(c => c.trim() !== '')`, for constraints and topics: the
      non-blank entries, untrimmed, in their order, each as often as in the
      draft. */
  function PruneTexts(s: seq<string>): (r: seq<string>)
    ensures IsSubseq(r, s)
    ensures forall x :: x in r <==> x in s && Trim(x) != ""
    ensures forall x :: multiset(r)[x] == if Trim(x) != "" then multiset(s)[x] else 0
  {
    FilterIsSubseq(NonBlank, s);
    FilterMembershipAll(NonBlank, s);
    FilterCount(NonBlank, s);
    Filter(NonBlank, s)
  }

  /** The test cases whose trimmed input and trimmed output are both
      non-empty, in their order, each as often as in the draft. */
  function PruneTestCases(s: seq<TestCase>): (r: seq<TestCase>)
    ensures IsSubseq(r, s)
    ensures forall tc :: tc in r <==> tc in s && Trim(tc.input) != "" && Trim(tc.output) != ""
    ensures forall tc :: multiset(r)[tc] == (if Trim(tc.input) != "" && Trim(tc.output) != "" then multiset(s)[tc] else 0)
  {
    assert forall tc :: KeepTestCase(tc) == (Trim(tc.input) != "" && Trim(tc.output) != "");
    FilterIsSubseq(KeepTestCase, s);
    FilterMembershipAll(KeepTestCase, s);
    FilterCount(KeepTestCase, s);
    Filter(KeepTestCase, s)
  }

  /** The solutions whose trimmed name and trimmed code are both non-empty,
      in their order, each as often as in the draft. */
  function PruneSolutions(s: seq<Solution>): (r: seq<Solution>)
    ensures IsSubseq(r, s)
    ensures forall x :: x in r <==> x in s && Trim(x.name) != "" && Trim(x.code) != ""
    ensures forall x :: multiset(r)[x] == (if Trim(x.name) != "" && Trim(x.code) != "" then multiset(s)[x] else 0)
  {
    assert forall x :: KeepSolution(x) == (Trim(x.name) != "" && Trim(x.code) != "");
    FilterIsSubseq(KeepSolution, s);
    FilterMembershipAll(KeepSolution, s);
    FilterCount(KeepSolution, s);
    Filter(KeepSolution, s)
  }

  /** The explanation and the example of a solution play no part in whether
      it is sent. */
  lemma KeepSolutionIgnoresProse(s: Solution, explanation: string, example: string)
    ensures KeepSolution(s.(explanation := explanation, example := example)) == KeepSolution(s)
  {
  }

  /** The explanation of a test case plays no part in whether it is sent. */
  lemma KeepTestCaseIgnoresExplanation(tc: TestCase, explanation: string)
    ensures KeepTestCase(tc.(explanation := explanation)) == KeepTestCase(tc)
  {
  }

  /** The empty string is blank. */
  lemma EmptyIsBlank()
    ensures !NonBlank("")
  {
    assert AllWhitespace("");
  }

  /** Test cases whose inputs are all empty are all pruned. */
  lemma PruneEmptyInputs(s: seq<TestCase>)
    requires forall k :: 0 <= k < |s| ==> s[k].input == ""
    ensures PruneTestCases(s) == []
  {
    EmptyIsBlank();
    FilterDropsAll(KeepTestCase, s);
  }

  /** Solutions whose names are all empty are all pruned. */
  lemma PruneEmptyNames(s: seq<Solution>)
    requires forall k :: 0 <= k < |s| ==> s[k].name == ""
    ensures PruneSolutions(s) == []
  {
    EmptyIsBlank();
    FilterDropsAll(KeepSolution, s);
  }

  /** Lists of empty texts are pruned to nothing. */
  lemma PruneEmptyTexts(s: seq<string>)
    requires forall k :: 0 <= k < |s| ==> s[k] == ""
    ensures PruneTexts(s) == []
  {
    EmptyIsBlank();
    FilterDropsAll(NonBlank, s);
  }

  /** The initial `['']` of constraints and of topics is pruned to
      nothing. */
  lemma InitialTextsPruneToEmpty()
    ensures PruneTexts([""]) == []
  {
    PruneEmptyTexts([""]);
  }

  /** The initial one-blank list of sample or actual test cases is pruned
      to nothing. */
  lemma InitialTestCasesPruneToEmpty()
    ensures PruneTestCases([BlankTestCase]) == []
  {
    PruneEmptyInputs([BlankTestCase]);
  }

  /** The initial one-blank list of solutions is pruned to nothing. */
  lemma InitialSolutionsPruneToEmpty()
    ensures PruneSolutions([BlankSolution]) == []
  {
    PruneEmptyNames([BlankSolution]);
  }

  // ---------------------------------------------------------------------
  // The notice after a sent request
  // ---------------------------------------------------------------------

  /** What the create form reports once a request was sent. */
  datatype Notice = Added | AddFailed

  /** The notice as the create form decides it: only a thrown error (the
      request could not be made) reports a failure; the `response.ok` that
      `addNewQuestion` returns is awaited and discarded. */
  function NoticeAsWritten(transportFailed: bool, responseOk: bool): (o: Notice)
    ensures o == Added <==> !transportFailed
  {
    if transportFailed then AddFailed else Added
  }

  /** A create that the server refuses (`response.ok` false, nothing
      thrown) is reported as added. */
  lemma RefusedCreateReportedAsAdded()
    ensures NoticeAsWritten(false, false) == Added
  {
  }

  /** The notice as the boolean result of `addNewQuestion` evidently
      intends: success exactly when the request went through and the server
      accepted it. */
  function SubmitNotice(transportFailed: bool, responseOk: bool): (o: Notice)
    ensures o == Added <==> !transportFailed && responseOk
  {
    if transportFailed || !responseOk then AddFailed else Added
  }

  /** The two notices differ exactly on a refused create. */
  lemma NoticesDifferOnRefusal(transportFailed: bool, responseOk: bool)
    ensures NoticeAsWritten(transportFailed, responseOk) != SubmitNotice(transportFailed, responseOk)
      <==> !transportFailed && !responseOk
  {
  }

  // ---------------------------------------------------------------------
  // The form's state and its handlers
  // ---------------------------------------------------------------------

  class Draft {
    var questionName: string
    var questionDescription: string
    var constraints: seq<string>
    var sampleTestCases: seq<TestCase>
    var actualTestCases: seq<TestCase>
    var topics: seq<string>
    var questionDifficulty: Difficulty
    var questionSource: Source
    var questionSolutions: seq<Solution>

    /** Every draft list keeps at least one editable row. */
    ghost predicate Valid()
      reads this
    {
      && |constraints| >= 1
      && |sampleTestCases| >= 1
      && |actualTestCases| >= 1
      && |topics| >= 1
      && |questionSolutions| >= 1
    }

    /** The initial state: empty texts, one blank entry in every list,
        difficulty EASY and source LeetCode. */
    constructor ()
      ensures Valid()
      ensures questionName == "" && questionDescription == ""
      ensures constraints == [""] && topics == [""]
      ensures sampleTestCases == [BlankTestCase] && actualTestCases == [BlankTestCase]
      ensures questionSolutions == [BlankSolution]
      ensures questionDifficulty == Easy && questionSource == LeetCode
    {
      questionName := "";
      questionDescription := "";
      constraints := [""];
      sampleTestCases := [BlankTestCase];
      actualTestCases := [BlankTestCase];
      topics := [""];
      questionDifficulty := Easy;
      questionSource := LeetCode;
      questionSolutions := [BlankSolution];
    }

    // Scalar fields

    method SetQuestionName(value: string)
      requires Valid()
      modifies this`questionName
      ensures Valid()
      ensures questionName == value
    {
      questionName := value;
    }

    method SetQuestionDescription(value: string)
      requires Valid()
      modifies this`questionDescription
      ensures Valid()
      ensures questionDescription == value
    {
      questionDescription := value;
    }

    method SetQuestionDifficulty(value: Difficulty)
      requires Valid()
      modifies this`questionDifficulty
      ensures Valid()
      ensures questionDifficulty == value
    {
      questionDifficulty := value;
    }

    method SetQuestionSource(value: Source)
      requires Valid()
      modifies this`questionSource
      ensures Valid()
      ensures questionSource == value
    {
      questionSource := value;
    }

    // Constraints

    method AddConstraint()
      requires Valid()
      modifies this`constraints
      ensures Valid()
      ensures constraints == old(constraints) + [""]
    {
      constraints := constraints + [""];
    }

    method ChangeConstraint(index: nat, value: string)
      requires Valid()
      requires index < |constraints|
      modifies this`constraints
      ensures Valid()
      ensures constraints == old(constraints)[index := value]
    {
      var updated := constraints;
      updated := updated[index := value];
      constraints := updated;
    }

    method RemoveConstraint(index: nat)
      requires Valid()
      requires index < |constraints|
      modifies this`constraints
      ensures Valid()
      ensures constraints == if |old(constraints)| > 1 then RemoveAt(old(constraints), index) else old(constraints)
    {
      if |constraints| > 1 {
        constraints := RemoveAt(constraints, index);
      }
    }

    // Sample test cases

    method AddSampleTestCase()
      requires Valid()
      modifies this`sampleTestCases
      ensures Valid()
      ensures sampleTestCases == old(sampleTestCases) + [BlankTestCase]
    {
      sampleTestCases := sampleTestCases + [BlankTestCase];
    }

    method ChangeSampleTestCase(index: nat, field: TestCaseField, value: string)
      requires Valid()
      requires index < |sampleTestCases|
      modifies this`sampleTestCases
      ensures Valid()
      ensures sampleTestCases == old(sampleTestCases)[index := WithTestCaseField(old(sampleTestCases)[index], field, value)]
    {
      var updated := sampleTestCases;
      updated := updated[index := WithTestCaseField(updated[index], field, value)];
      sampleTestCases := updated;
    }

    method RemoveSampleTestCase(index: nat)
      requires Valid()
      requires index < |sampleTestCases|
      modifies this`sampleTestCases
      ensures Valid()
      ensures sampleTestCases == if |old(sampleTestCases)| > 1 then RemoveAt(old(sampleTestCases), index) else old(sampleTestCases)
    {
      if |sampleTestCases| > 1 {
        sampleTestCases := RemoveAt(sampleTestCases, index);
      }
    }

    // Actual test cases

    method AddActualTestCase()
      requires Valid()
      modifies this`actualTestCases
      ensures Valid()
      ensures actualTestCases == old(actualTestCases) + [BlankTestCase]
    {
      actualTestCases := actualTestCases + [BlankTestCase];
    }

    method ChangeActualTestCase(index: nat, field: TestCaseField, value: string)
      requires Valid()
      requires index < |actualTestCases|
      modifies this`actualTestCases
      ensures Valid()
      ensures actualTestCases == old(actualTestCases)[index := WithTestCaseField(old(actualTestCases)[index], field, value)]
    {
      var updated := actualTestCases;
      updated := updated[index := WithTestCaseField(updated[index], field, value)];
      actualTestCases := updated;
    }

    method RemoveActualTestCase(index: nat)
      requires Valid()
      requires index < |actualTestCases|
      modifies this`actualTestCases
      ensures Valid()
      ensures actualTestCases == if |old(actualTestCases)| > 1 then RemoveAt(old(actualTestCases), index) else old(actualTestCases)
    {
      if |actualTestCases| > 1 {
        actualTestCases := RemoveAt(actualTestCases, index);
      }
    }

    // Topics

    method AddTopic()
      requires Valid()
      modifies this`topics
      ensures Valid()
      ensures topics == old(topics) + [""]
    {
      topics := topics + [""];
    }

    method ChangeTopic(index: nat, value: string)
      requires Valid()
      requires index < |topics|
      modifies this`topics
      ensures Valid()
      ensures topics == old(topics)[index := value]
    {
      var updated := topics;
      updated := updated[index := value];
      topics := updated;
    }

    method RemoveTopic(index: nat)
      requires Valid()
      requires index < |topics|
      modifies this`topics
      ensures Valid()
      ensures topics == if |old(topics)| > 1 then RemoveAt(old(topics), index) else old(topics)
    {
      if |topics| > 1 {
        topics := RemoveAt(topics, index);
      }
    }

    // Solutions

    method AddSolution()
      requires Valid()
      modifies this`questionSolutions
      ensures Valid()
      ensures questionSolutions == old(questionSolutions) + [BlankSolution]
    {
      questionSolutions := questionSolutions + [BlankSolution];
    }

    method ChangeSolution(index: nat, field: SolutionField, value: string)
      requires Valid()
      requires index < |questionSolutions|
      modifies this`questionSolutions
      ensures Valid()
      ensures questionSolutions == old(questionSolutions)[index := WithSolutionField(old(questionSolutions)[index], field, value)]
    {
      var updated := questionSolutions;
      updated := updated[index := WithSolutionField(updated[index], field, value)];
      questionSolutions := updated;
    }

    method RemoveSolution(index: nat)
      requires Valid()
      requires index < |questionSolutions|
      modifies this`questionSolutions
      ensures Valid()
      ensures questionSolutions == if |old(questionSolutions)| > 1 then RemoveAt(old(questionSolutions), index) else old(questionSolutions)
    {
      if |questionSolutions| > 1 {
        questionSolutions := RemoveAt(questionSolutions, index);
      }
    }

    /** `handleSubmit`: without a token nothing is sent; with one, the
        question sent carries the pruned lists and the form's own name,
        description, difficulty and source, and no `id` or `questionId`.
        The draft itself is left as it is. */
    method Submit(jwt: Option<string>) returns (request: Option<Question>)
      ensures request.Some? <==> HasJwt(jwt)
      ensures request.Some? ==>
        && request.value.id.None?
        && request.value.questionId.None?
        && request.value.questionName == questionName
        && request.value.questionDescription == questionDescription
        && request.value.constraints == PruneTexts(constraints)
        && request.value.sampleTestCases == PruneTestCases(sampleTestCases)
        && request.value.actualTestCases == PruneTestCases(actualTestCases)
        && request.value.topics == PruneTexts(topics)
        && request.value.questionDifficulty == questionDifficulty
        && request.value.questionSource == questionSource
        && request.value.questionSolutions == PruneSolutions(questionSolutions)
    {
      if !HasJwt(jwt) {
        return None;
      }
      var filteredConstraints := PruneTexts(constraints);
      var filteredTopics := PruneTexts(topics);
      var filteredSampleTestCases := PruneTestCases(sampleTestCases);
      var filteredActualTestCases := PruneTestCases(actualTestCases);
      var filteredSolutions := PruneSolutions(questionSolutions);
      request := Some(Question(
        None, None, questionName, questionDescription,
        filteredConstraints, filteredSampleTestCases, filteredActualTestCases,
        filteredTopics, questionDifficulty, questionSource, filteredSolutions));
    }
  }

  /** Changing field `f` of entry `i` touches nothing but that field of that
      entry: the length, every other entry, and the other fields of entry `i`
      stay as they were. */
  lemma ChangeTestCaseIsLocal(s: seq<TestCase>, i: nat, f: TestCaseField, v: string)
    requires i < |s|
    ensures var r := s[i := WithTestCaseField(s[i], f, v)];
      && |r| == |s|
      && (forall j :: 0 <= j < |s| && j != i ==> r[j] == s[j])
      && TestCaseFieldValue(r[i], f) == v
      && (forall g :: g != f ==> TestCaseFieldValue(r[i], g) == TestCaseFieldValue(s[i], g))
  {
  }
}
