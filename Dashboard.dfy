/** The question list view: the search-and-difficulty filter over the
    summaries, the difficulty badge colour and the per-difficulty counts. */
module Dashboard {
  import opened Sequences
  import opened Text
  import opened Questions

  /** The difficulty selector's value that switches the difficulty test off. */
  const AllDifficulties := "all"

  // ---------------------------------------------------------------------
  // The two tests a summary must pass to be shown
  // ---------------------------------------------------------------------

  /** The lower-cased term is a substring of the lower-cased name or of some
      lower-cased topic: it occurs at some position of one of them. */
  predicate MatchesSearch(q: QuestionSummary, term: string)
    ensures MatchesSearch(q, term) <==>
      (exists i :: OccursAt(Lower(q.questionName), Lower(term), i))
      || (exists k, i :: 0 <= k < |q.topics| && OccursAt(Lower(q.topics[k]), Lower(term), i))
  {
    Includes(Lower(q.questionName), Lower(term))
    || exists k :: 0 <= k < |q.topics| && Includes(Lower(q.topics[k]), Lower(term))
  }

  /** The selector is "all" or names the summary's difficulty exactly. A
      difficulty's name selects exactly the summaries of that difficulty,
      and any other string than "all" and the three names selects none. */
  predicate MatchesDifficulty(q: QuestionSummary, selector: string)
    ensures forall d: Difficulty :: selector == d.Name() ==> (MatchesDifficulty(q, selector) <==> q.questionDifficulty == d)
    ensures selector != AllDifficulties && selector !in {"EASY", "MEDIUM", "HARD"} ==> !MatchesDifficulty(q, selector)
  {
    forall d: Difficulty | selector == d.Name() ensures q.questionDifficulty.Name() == selector <==> q.questionDifficulty == d {
      DifficultyNameInjective(q.questionDifficulty, d);
    }
    selector == AllDifficulties || q.questionDifficulty.Name() == selector
  }

  /** A summary is shown when it passes the search test (switched off by an
      empty term) and the difficulty test. Since every summary matches the
      empty term, the guard on the search changes nothing: a summary is
      shown exactly when it passes both tests. */
  predicate Shown(q: QuestionSummary, term: string, selector: string)
    ensures Shown(q, term, selector) <==> MatchesSearch(q, term) && MatchesDifficulty(q, selector)
  {
    EmptyTermMatchesAll(q);
    (term == "" || MatchesSearch(q, term)) && MatchesDifficulty(q, selector)
  }

  /** The visible list as one filter by the combined test: an
      order-preserving subsequence of the summaries holding exactly those
      that pass both tests, each as often as in the input. */
  function Visible(questions: seq<QuestionSummary>, term: string, selector: string): (r: seq<QuestionSummary>)
    ensures IsSubseq(r, questions)
    ensures forall q :: q in r <==>
      q in questions && (term == "" || MatchesSearch(q, term)) && MatchesDifficulty(q, selector)
    ensures forall q :: multiset(r)[q] == if Shown(q, term, selector) then multiset(questions)[q] else 0
  {
    var p := q => Shown(q, term, selector);
    FilterIsSubseq(p, questions);
    FilterMembershipAll(p, questions);
    FilterCount(p, questions);
    Filter(p, questions)
  }

  /** `filterQuestions`: start from all summaries, narrow by the search term
      when it is non-empty, then by the difficulty when the selector is not
      "all". The result is the visible list. */
  method FilterQuestions(questions: seq<QuestionSummary>, searchTerm: string, difficultyFilter: string)
    returns (filtered: seq<QuestionSummary>)
    ensures filtered == Visible(questions, searchTerm, difficultyFilter)
  {
    var bySearch := q => searchTerm == "" || MatchesSearch(q, searchTerm);
    var byDifficulty := q => MatchesDifficulty(q, difficultyFilter);
    filtered := questions;
    if searchTerm != "" {
      var matches := q => MatchesSearch(q, searchTerm);
      FilterSamePredicate(matches, bySearch, filtered);
      filtered := Filter(matches, filtered);
    } else {
      FilterKeepsAll(bySearch, filtered);
    }
    ghost var searched := filtered;
    if difficultyFilter != AllDifficulties {
      var sameDifficulty := (q: QuestionSummary) => q.questionDifficulty.Name() == difficultyFilter;
      FilterSamePredicate(sameDifficulty, byDifficulty, filtered);
      filtered := Filter(sameDifficulty, filtered);
    } else {
      FilterKeepsAll(byDifficulty, filtered);
    }
    assert filtered == Filter(byDifficulty, searched);
    FilterFilter(bySearch, byDifficulty, q => Shown(q, searchTerm, difficultyFilter), questions);
  }

  /** With an empty term and the "all" selector, every summary is shown. */
  lemma VisibleUnfiltered(questions: seq<QuestionSummary>)
    ensures Visible(questions, "", AllDifficulties) == questions
  {
    FilterKeepsAll(q => Shown(q, "", AllDifficulties), questions);
  }

  /** Filtering the visible list again with the same inputs changes nothing. */
  lemma VisibleIdempotent(questions: seq<QuestionSummary>, term: string, selector: string)
    ensures Visible(Visible(questions, term, selector), term, selector) == Visible(questions, term, selector)
  {
    FilterIdempotent(q => Shown(q, term, selector), questions);
  }

  /** The `if (searchTerm)` guard changes nothing: an empty term is a
      substring of every name. */
  lemma EmptyTermMatchesAll(q: QuestionSummary)
    ensures MatchesSearch(q, "")
  {
    IncludesEmpty(Lower(q.questionName));
  }

  /** A summary whose lower-cased name and topics all lack a character of
      the lower-cased term does not match it. */
  lemma MissesWithoutChar(q: QuestionSummary, term: string, c: char)
    requires c in Lower(term)
    requires c !in Lower(q.questionName)
    requires forall k :: 0 <= k < |q.topics| ==> c !in Lower(q.topics[k])
    ensures !MatchesSearch(q, term)
  {
    IncludesNeedsEveryChar(Lower(q.questionName), Lower(term), c);
    forall k | 0 <= k < |q.topics| ensures !Includes(Lower(q.topics[k]), Lower(term)) {
      IncludesNeedsEveryChar(Lower(q.topics[k]), Lower(term), c);
    }
  }

  /** The search is case-insensitive: a term and its lower-cased form
      select the same summaries. */
  lemma SearchIgnoresCase(q: QuestionSummary, term: string)
    ensures MatchesSearch(q, term) <==> MatchesSearch(q, Lower(term))
  {
    LowerIdempotent(term);
  }

  // ---------------------------------------------------------------------
  // Badge colour and statistics
  // ---------------------------------------------------------------------

  /** `getDifficultyColor`: total on strings; EASY, MEDIUM and HARD get
      green, yellow and red, anything else grey. */
  function DifficultyColor(difficulty: string): (color: string)
    ensures color == "bg-gray-600" <==> difficulty !in {"EASY", "MEDIUM", "HARD"}
  {
    match difficulty
    case "EASY" => "bg-green-600"
    case "MEDIUM" => "bg-yellow-600"
    case "HARD" => "bg-red-600"
    case _ => "bg-gray-600"
  }

  /** Different difficulties get different badge colours, none of them grey. */
  lemma DifficultyColorsDistinct(d: Difficulty, e: Difficulty)
    ensures DifficultyColor(d.Name()) != "bg-gray-600"
    ensures d != e ==> DifficultyColor(d.Name()) != DifficultyColor(e.Name())
  {
  }

  /** `questions.filter(q => q.questionDifficulty === name).length`. */
  function CountWithDifficulty(questions: seq<QuestionSummary>, name: string): (c: nat)
    ensures c <= |questions|
    ensures name !in {"EASY", "MEDIUM", "HARD"} ==> c == 0
  {
    var sameDifficulty := (q: QuestionSummary) => q.questionDifficulty.Name() == name;
    if name !in {"EASY", "MEDIUM", "HARD"} then
      FilterDropsAll(sameDifficulty, questions);
      |Filter(sameDifficulty, questions)|
    else
      |Filter(sameDifficulty, questions)|
  }

  /** The Easy, Medium and Hard counts add up to the total. */
  lemma {:induction false} CountsSumToTotal(questions: seq<QuestionSummary>)
    ensures CountWithDifficulty(questions, "EASY") + CountWithDifficulty(questions, "MEDIUM")
            + CountWithDifficulty(questions, "HARD") == |questions|
    decreases |questions|
  {
    if questions != [] {
      CountsSumToTotal(questions[1..]);
    }
  }

  // ---------------------------------------------------------------------
  // The view's state
  // ---------------------------------------------------------------------

  /** The three inputs of the filter and the list it last produced. */
  class DashboardView {
    var questions: seq<QuestionSummary>
    var filteredQuestions: seq<QuestionSummary>
    var searchTerm: string
    var difficultyFilter: string

    /** The list shown is the filter of the current inputs. */
    ghost predicate Valid()
      reads this
    {
      filteredQuestions == Visible(questions, searchTerm, difficultyFilter)
    }

    constructor ()
      ensures questions == [] && filteredQuestions == []
      ensures searchTerm == "" && difficultyFilter == AllDifficulties
      ensures Valid()
    {
      questions := [];
      filteredQuestions := [];
      searchTerm := "";
      difficultyFilter := AllDifficulties;
    }

    /** Recomputes the shown list from the three inputs (`setFilteredQuestions`). */
    method Refresh()
      modifies this`filteredQuestions
      ensures Valid()
      ensures filteredQuestions == Visible(questions, searchTerm, difficultyFilter)
    {
      var filtered := FilterQuestions(questions, searchTerm, difficultyFilter);
      filteredQuestions := filtered;
    }

    /** The fetched summaries replace the list (`setQuestions`), and the
        effect that watches the list recomputes what is shown. */
    method LoadQuestions(data: seq<QuestionSummary>)
      modifies this`questions, this`filteredQuestions
      ensures questions == data
      ensures Valid()
    {
      questions := data;
      Refresh();
    }

    /** Typing in the search box (`setSearchTerm`), then the effect. */
    method SetSearchTerm(term: string)
      modifies this`searchTerm, this`filteredQuestions
      ensures searchTerm == term
      ensures Valid()
    {
      searchTerm := term;
      Refresh();
    }

    /** Choosing in the difficulty selector (`setDifficultyFilter`), then
        the effect. */
    method SetDifficultyFilter(selector: string)
      modifies this`difficultyFilter, this`filteredQuestions
      ensures difficultyFilter == selector
      ensures Valid()
    {
      difficultyFilter := selector;
      Refresh();
    }
  }
}

module DashboardExample {
  import opened Sequences
  import opened Text
  import opened Questions
  import opened Dashboard

  function TwoSum(): QuestionSummary {
    QuestionSummary(1, "Two Sum", Easy, ["Array"])
  }

  function LruCache(): QuestionSummary {
    QuestionSummary(2, "LRU Cache", Hard, ["HashMap", "Linked List"])
  }

  lemma TwoSumMatchesArray()
    ensures MatchesSearch(TwoSum(), "array")
  {
    assert Lower("Two Sum") == "two sum";
    assert Lower("array") == "array";
    assert Lower("Array") == "array";
    assert Includes(Lower(TwoSum().topics[0]), Lower("array"));
  }

  lemma LruCacheLowered()
    ensures Lower(LruCache().questionName) == "lru cache"
    ensures Lower(LruCache().topics[0]) == "hashmap"
    ensures Lower(LruCache().topics[1]) == "linked list"
  {
  }

  lemma LruCacheMissesArray()
    ensures !MatchesSearch(LruCache(), "array")
  {
    var q := LruCache();
    LruCacheLowered();
    assert Lower("array") == "array";
    assert 'y' !in Lower(q.questionName) && 'y' !in Lower(q.topics[0]) && 'y' !in Lower(q.topics[1]);
    MissesWithoutChar(q, "array", 'y');
  }

  lemma TwoSumMissesList()
    ensures !MatchesSearch(TwoSum(), "list")
  {
    assert Lower("list") == "list";
    assert Lower("Two Sum") == "two sum";
    assert Lower(TwoSum().topics[0]) == "array";
    IncludesNeedsEveryChar("two sum", "list", 'l');
    IncludesNeedsEveryChar("array", "list", 'l');
  }

  lemma LruCacheMatchesList()
    ensures MatchesSearch(LruCache(), "list")
  {
    assert Lower("list") == "list";
    assert Lower(LruCache().topics[1]) == "linked list";
    assert OccursAt("linked list", "list", 7);
  }

  /** Searching "array" finds "Two Sum" by its topic "Array" and nothing
      else. */
  lemma SearchByTopicExample()
    ensures Visible([TwoSum(), LruCache()], "array", AllDifficulties) == [TwoSum()]
  {
    TwoSumMatchesArray();
    LruCacheMissesArray();
    assert [TwoSum(), LruCache()][1..] == [LruCache()];
  }

  /** Selecting HARD with an empty search finds "LRU Cache" only. */
  lemma DifficultyExample()
    ensures Visible([TwoSum(), LruCache()], "", "HARD") == [LruCache()]
  {
    assert !Shown(TwoSum(), "", "HARD");
    assert Shown(LruCache(), "", "HARD");
    assert [TwoSum(), LruCache()][1..] == [LruCache()];
  }

  /** Searching "list" finds "LRU Cache" by its topic "Linked List". */
  lemma SearchByTopicWordExample()
    ensures Visible([TwoSum(), LruCache()], "list", AllDifficulties) == [LruCache()]
  {
    TwoSumMissesList();
    LruCacheMatchesList();
    assert [TwoSum(), LruCache()][1..] == [LruCache()];
  }
}
