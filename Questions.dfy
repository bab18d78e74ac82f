/** The record shapes the client exchanges with the question API. */
module Questions {

  /** An optional (`?:`) member: `None` is `undefined`. */
  datatype Option<T> = None | Some(value: T)

  datatype Difficulty = Easy | Medium | Hard {
    /** The string the API and the difficulty selector use. */
    function Name(): string {
      match this
      case Easy => "EASY"
      case Medium => "MEDIUM"
      case Hard => "HARD"
    }
  }

  datatype Source = LeetCode | CodeForces

  datatype TestCase = TestCase(input: string, output: string, explanation: string)

  datatype Solution = Solution(name: string, explanation: string, example: string, code: string)

  datatype Question = Question(
    id: Option<string>,
    questionId: Option<int>,
    questionName: string,
    questionDescription: string,
    constraints: seq<string>,
    sampleTestCases: seq<TestCase>,
    actualTestCases: seq<TestCase>,
    topics: seq<string>,
    questionDifficulty: Difficulty,
    questionSource: Source,
    questionSolutions: seq<Solution>)

  /** The reduced projection the question list is built from. */
  datatype QuestionSummary = QuestionSummary(
    questionId: int,
    questionName: string,
    questionDifficulty: Difficulty,
    topics: seq<string>)

  /** `if (!user?.jwt) return;` lets a submit through only with a token
      that is present and not the empty string: the two falsy values a
      token can take are `undefined` and `''`. */
  predicate HasJwt(jwt: Option<string>)
    ensures !HasJwt(jwt) <==> jwt == None || jwt == Some("")
  {
    jwt.Some? && jwt.value != ""
  }

  /** The three difficulty names are pairwise different, so a difficulty
      is determined by its name. */
  lemma DifficultyNameInjective(d: Difficulty, e: Difficulty)
    ensures d.Name() == e.Name() <==> d == e
  {
  }
}
