/** The update-question form: a flat form record seeded from the summary
    that opened it, the comma-separated topics text, and the update
    payload built on submit. */
module UpdateQuestionForm {
  import opened Sequences
  import opened Text
  import opened Questions

  /** What `join(', ')` puts between topics. */
  const TopicSeparator := ", "

  /** The description every update payload carries. */
  const DefaultDescription := "Updated description"

  datatype FormData = FormData(
    id: string,
    questionId: int,
    questionName: string,
    questionDifficulty: Difficulty,
    topics: string)

  /** The form as first shown: no `id`, the summary's id, name and
      difficulty, and its topics joined with ", ". */
  function InitialFormData(q: QuestionSummary): (r: FormData)
    ensures r.id == "" && r.questionId == q.questionId
    ensures r.questionName == q.questionName && r.questionDifficulty == q.questionDifficulty
    ensures (forall k :: 0 <= k < |q.topics| ==> IsCleanTopic(q.topics[k])) ==> ParseTopics(r.topics) == q.topics
  {
    var r := FormData("", q.questionId, q.questionName, q.questionDifficulty, Join(q.topics, TopicSeparator));
    if forall k :: 0 <= k < |q.topics| ==> IsCleanTopic(q.topics[k]) then
      TopicsRoundTrip(q.topics);
      r
    else
      r
  }

  /** One `setFormData(prev => ({ ...prev, field: value }))` from an
      editable input. The question id input is read-only. */
  datatype FormEdit = EditId(id: string) | EditQuestionName(name: string) | EditTopics(topics: string)

  function ApplyEdit(f: FormData, e: FormEdit): (r: FormData)
    ensures r.questionId == f.questionId
    ensures r.questionDifficulty == f.questionDifficulty
    ensures e.EditId? ==> r.id == e.id && r.questionName == f.questionName && r.topics == f.topics
    ensures e.EditQuestionName? ==> r.questionName == e.name && r.id == f.id && r.topics == f.topics
    ensures e.EditTopics? ==> r.topics == e.topics && r.id == f.id && r.questionName == f.questionName
  {
    match e
    case EditId(v) => f.(id := v)
    case EditQuestionName(v) => f.(questionName := v)
    case EditTopics(v) => f.(topics := v)
  }

  /** The form after a series of edits, oldest first. No series of edits
      changes the question id or the difficulty. */
  function ApplyEdits(f: FormData, edits: seq<FormEdit>): (r: FormData)
    ensures r.questionId == f.questionId
    ensures r.questionDifficulty == f.questionDifficulty
    decreases |edits|
  {
    if edits == [] then f else ApplyEdits(ApplyEdit(f, edits[0]), edits[1..])
  }

  // ---------------------------------------------------------------------
  // The topics text
  // ---------------------------------------------------------------------

  function TrimAll(xs: seq<string>): (r: seq<string>)
    ensures |r| == |xs|
    ensures forall k :: 0 <= k < |xs| ==> r[k] == Trim(xs[k])
  {
    seq(|xs|, k requires 0 <= k < |xs| => Trim(xs[k]))
  }

  predicate IsNonEmpty(t: string) {
    t != ""
  }

  /** A topic that survives a join and a parse unchanged. */
  predicate IsCleanTopic(t: string) {
    t != "" && ',' !in t && IsTrimmed(t)
  }

  /** `text.split(',').map(t => t.trim()).filter(t => t !== '')`: the
      topics are non-empty, hold no comma and have no surrounding
      whitespace; they are the non-empty trimmed pieces between commas, in
      left-to-right order, each as often as among the pieces. */
  function ParseTopics(text: string): (r: seq<string>)
    ensures forall t :: t in r ==> IsCleanTopic(t)
    ensures IsSubseq(r, TrimAll(Split(text, ',')))
    ensures forall t :: multiset(r)[t] == if t != "" then multiset(TrimAll(Split(text, ',')))[t] else 0
  {
    var trimmed := TrimAll(Split(text, ','));
    TrimmedPiecesClean(Split(text, ','));
    FilterSound(IsNonEmpty, trimmed);
    FilterIsSubseq(IsNonEmpty, trimmed);
    FilterCount(IsNonEmpty, trimmed);
    Filter(IsNonEmpty, trimmed)
  }

  /** Trimmed comma-free pieces are comma-free and have no surrounding
      whitespace. */
  lemma TrimmedPiecesClean(pieces: seq<string>)
    requires forall k :: 0 <= k < |pieces| ==> ',' !in pieces[k]
    ensures forall t :: t in TrimAll(pieces) ==> ',' !in t && IsTrimmed(t)
  {
    var trimmed := TrimAll(pieces);
    forall t | t in trimmed ensures ',' !in t && IsTrimmed(t) {
      var k :| 0 <= k < |trimmed| && trimmed[k] == t;
      assert t == Trim(pieces[k]);
    }
  }

  /** Text made only of commas and whitespace gives no topics. */
  lemma ParseTopicsOfSeparators(text: string)
    requires forall k :: 0 <= k < |text| ==> text[k] == ',' || IsWhitespace(text[k])
    ensures ParseTopics(text) == []
  {
    var pieces := Split(text, ',');
    forall k | 0 <= k < |pieces| ensures !IsNonEmpty(Trim(pieces[k])) {
      forall j | 0 <= j < |pieces[k]| ensures IsWhitespace(pieces[k][j]) {
        SplitPiecesFromText(text, ',', k, pieces[k][j]);
        var i :| 0 <= i < |text| && text[i] == pieces[k][j];
      }
    }
    FilterDropsAll(IsNonEmpty, TrimAll(pieces));
  }

  /** `xs` with a space in front of each element. */
  function Spaced(xs: seq<string>): (r: seq<string>)
    ensures |r| == |xs|
    ensures forall k :: 0 <= k < |xs| ==> r[k] == " " + xs[k]
  {
    seq(|xs|, k requires 0 <= k < |xs| => " " + xs[k])
  }

  /** Splitting a ", "-join on ',' leaves each topic after the first with the
      space in front of it. */
  lemma {:induction false} SplitJoinedTopics(p: string, ts: seq<string>)
    requires |ts| >= 1
    requires ',' !in p
    requires forall k :: 0 <= k < |ts| ==> ',' !in ts[k]
    ensures Split(p + Join(ts, TopicSeparator), ',') == [p + ts[0]] + Spaced(ts[1..])
    decreases |ts|
  {
    if |ts| == 1 {
      SplitWithoutSeparator(p + ts[0], ',');
    } else {
      var rest := Join(ts[1..], TopicSeparator);
      assert p + Join(ts, TopicSeparator) == (p + ts[0]) + [','] + (" " + rest);
      SplitAtFirst(p + ts[0], ',', " " + rest);
      SplitJoinedTopics(" ", ts[1..]);
      assert [" " + ts[1]] + Spaced(ts[2..]) == Spaced(ts[1..]);
    }
  }

  /** Splitting a ", "-join of comma-free topics on ',' gives the first
      topic and then every later one with a space in front. */
  lemma SplitJoinedTopicsFromStart(ts: seq<string>)
    requires |ts| >= 1
    requires forall k :: 0 <= k < |ts| ==> ',' !in ts[k]
    ensures Split(Join(ts, TopicSeparator), ',') == [ts[0]] + Spaced(ts[1..])
  {
    var text := Join(ts, TopicSeparator);
    SplitJoinedTopics("", ts);
    assert "" + text == text;
    assert "" + ts[0] == ts[0];
  }

  /** Trimming the pieces of a ", "-join gives back clean topics. */
  lemma TrimJoinedPieces(ts: seq<string>)
    requires |ts| >= 1
    requires forall k :: 0 <= k < |ts| ==> IsCleanTopic(ts[k])
    ensures TrimAll([ts[0]] + Spaced(ts[1..])) == ts
  {
    var pieces := [ts[0]] + Spaced(ts[1..]);
    forall k | 0 <= k < |ts| ensures Trim(pieces[k]) == ts[k] {
      TrimTrimmed(ts[k]);
      if k > 0 {
        assert pieces[k] == " " + ts[k];
        TrimLeadingSpace(ts[k]);
      }
    }
  }

  /** Round trip of the topics field: joining clean topics with ", " and
      parsing the text gives back the same topics. */
  lemma TopicsRoundTrip(ts: seq<string>)
    requires forall k :: 0 <= k < |ts| ==> IsCleanTopic(ts[k])
    ensures ParseTopics(Join(ts, TopicSeparator)) == ts
  {
    if ts == [] {
      ParseTopicsOfSeparators("");
    } else {
      var text := Join(ts, TopicSeparator);
      SplitJoinedTopicsFromStart(ts);
      TrimJoinedPieces(ts);
      assert TrimAll(Split(text, ',')) == ts;
      FilterKeepsAll(IsNonEmpty, ts);
    }
  }

  // ---------------------------------------------------------------------
  // The update payload
  // ---------------------------------------------------------------------

  /** `formData.id || undefined`: the empty string is absent, anything
      else is passed through. */
  function IdOrAbsent(id: string): (r: Option<string>)
    ensures r.None? <==> id == ""
    ensures r.Some? ==> r.value == id
  {
    if id == "" then None else Some(id)
  }

  /** The `updateData` object. The `id` is absent exactly when the form's
      is empty; the question id, name and difficulty are the form's; the
      topics are clean; and whatever the form holds, the description is the
      default, every list other than topics is empty and the source is
      LeetCode. */
  function UpdatePayload(f: FormData): (q: Question)
    ensures q.id.None? <==> f.id == ""
    ensures q.id.Some? ==> q.id.value == f.id
    ensures q.questionId == Some(f.questionId)
    ensures q.questionName == f.questionName && q.questionDifficulty == f.questionDifficulty
    ensures forall t :: t in q.topics ==> IsCleanTopic(t)
    ensures q.questionDescription == "Updated description"
    ensures q.constraints == [] && q.sampleTestCases == [] && q.actualTestCases == []
    ensures q.questionSolutions == [] && q.questionSource == LeetCode
  {
    Question(
      IdOrAbsent(f.id),
      Some(f.questionId),
      f.questionName,
      DefaultDescription,
      [],
      [],
      [],
      ParseTopics(f.topics),
      f.questionDifficulty,
      LeetCode,
      [])
  }

  /** `handleSubmit`: without a token nothing is sent; with one, the update
      payload of the current form is. */
  function Submit(jwt: Option<string>, f: FormData): (request: Option<Question>)
    ensures request.Some? <==> HasJwt(jwt)
    ensures request.Some? ==> request.value == UpdatePayload(f)
  {
    if HasJwt(jwt) then Some(UpdatePayload(f)) else None
  }

  /** No series of edits changes the question id or the difficulty: the
      payload always carries those of the summary that opened the form. */
  lemma EditsKeepSummaryFields(q: QuestionSummary, edits: seq<FormEdit>)
    ensures UpdatePayload(ApplyEdits(InitialFormData(q), edits)).questionId == Some(q.questionId)
    ensures UpdatePayload(ApplyEdits(InitialFormData(q), edits)).questionDifficulty == q.questionDifficulty
  {
  }

  /** Submitting the form as it was opened sends the summary's own id, name,
      difficulty and topics (when its topics are clean), and no `id`. */
  lemma UneditedSubmitKeepsSummary(q: QuestionSummary)
    requires forall k :: 0 <= k < |q.topics| ==> IsCleanTopic(q.topics[k])
    ensures var p := UpdatePayload(InitialFormData(q));
      && p.id == None
      && p.questionId == Some(q.questionId)
      && p.questionName == q.questionName
      && p.questionDifficulty == q.questionDifficulty
      && p.topics == q.topics
  {
    TopicsRoundTrip(q.topics);
  }
}
