# Question admin client: verified model of its form and list logic

The client is a small React admin front end for a coding-question API. It has a
create-question form, an update-question form and a dashboard that lists question
summaries. Most of it is markup and `fetch` calls. This project models the
sequence and string logic inside its three components and proves properties of
that logic in Dafny:

- **Create form** (`AddQuestionForm.tsx`). The form keeps five ordered draft lists:
  constraints, topics, sample test cases, actual test cases and solutions. Each
  list has three handlers: append a blank entry, change an entry (or one field of
  an entry) at an index, and remove at an index. Removal is refused when only one
  entry is left. On submit, blank entries are pruned and a `Question` is built.
  This is the class `AddQuestionForm.Draft`: one `seq` field per list, one method
  per handler.
- **Dashboard** (`Dashboard.tsx`). `filterQuestions` narrows the summaries in two
  steps: first by a case-insensitive search over the name and the topics, then by
  a difficulty selector. The dashboard also has the difficulty badge colour and the
  per-difficulty counts. `Dashboard.FilterQuestions` is a method that mirrors the
  step-by-step reassignment. It is proved equal to one filter by the combined test
  (`Dashboard.Visible`), and the filter's properties are proved about that
  function. `Dashboard.DashboardView` holds the view's state.
- **Update form** (`UpdateQuestionForm.tsx`). The form is seeded from a summary and
  shows the topics as one comma-separated text. On submit, the text is parsed back
  (split on `,`, trim, drop empties) and an update payload is built with fixed
  defaults. This part is pure: datatypes, functions and lemmas.

Modules:

- `Sequences`: `filter`, `splice(i, 1)` and the subsequence relation.
- `Text`: ASCII `trim`, `toLowerCase`, `includes`, `split` and `join`.
- `Questions`: the record shapes from `src/lib/api.ts`.
- One module per component.
- `DashboardExample`: concrete searches worked through.

## Model

| member | source | states |
|---|---|---|
| AddQuestionForm.Draft.constructor | src/components/AddQuestionForm.tsx:23-33 | Empty name and description, exactly one blank entry in each of the five lists, difficulty EASY, source LeetCode; the "at least one entry per list" invariant holds from the start |
| AddQuestionForm.Draft.SetQuestionName | src/components/AddQuestionForm.tsx:200 | The name becomes the typed value; nothing else changes |
| AddQuestionForm.Draft.SetQuestionDescription | src/components/AddQuestionForm.tsx:211 | The description becomes the typed value; nothing else changes |
| AddQuestionForm.Draft.SetQuestionDifficulty | src/components/AddQuestionForm.tsx:220 | The difficulty becomes the chosen one; nothing else changes |
| AddQuestionForm.Draft.SetQuestionSource | src/components/AddQuestionForm.tsx:233 | The source becomes the chosen one; nothing else changes |
| AddQuestionForm.Draft.AddConstraint | src/components/AddQuestionForm.tsx:35-37 | Constraints become the old list plus one `""` at the end: earlier entries keep their values and order, other fields are untouched, the invariant is kept |
| AddQuestionForm.Draft.ChangeConstraint | src/components/AddQuestionForm.tsx:39-43 | Only the constraint at the index is replaced; the length and every other entry stay |
| AddQuestionForm.Draft.RemoveConstraint | src/components/AddQuestionForm.tsx:45-51 | With more than one entry, the result is the list without the indexed entry (later entries shift left in order); with one entry, nothing changes; the list never becomes empty |
| AddQuestionForm.Draft.AddSampleTestCase | src/components/AddQuestionForm.tsx:54-56 | Appends exactly one all-empty test case at the end; earlier entries unchanged |
| AddQuestionForm.Draft.ChangeSampleTestCase | src/components/AddQuestionForm.tsx:58-62 | Entry `index` gets field `field` set to the value, with its other fields kept; every other entry is unchanged |
| AddQuestionForm.Draft.RemoveSampleTestCase | src/components/AddQuestionForm.tsx:64-70 | Removal at the index when more than one entry is left, otherwise no change; never empties the list |
| AddQuestionForm.Draft.AddActualTestCase | src/components/AddQuestionForm.tsx:73-75 | Appends exactly one all-empty test case at the end; earlier entries unchanged |
| AddQuestionForm.Draft.ChangeActualTestCase | src/components/AddQuestionForm.tsx:77-81 | Entry `index` gets field `field` set, other fields and entries unchanged |
| AddQuestionForm.Draft.RemoveActualTestCase | src/components/AddQuestionForm.tsx:83-89 | Removal at the index when more than one entry is left, otherwise no change; never empties the list |
| AddQuestionForm.Draft.AddTopic | src/components/AddQuestionForm.tsx:92-94 | Appends exactly one `""` at the end; earlier entries unchanged |
| AddQuestionForm.Draft.ChangeTopic | src/components/AddQuestionForm.tsx:96-100 | Only the topic at the index is replaced; length and the other entries stay |
| AddQuestionForm.Draft.RemoveTopic | src/components/AddQuestionForm.tsx:102-108 | Removal at the index when more than one entry is left, otherwise no change; never empties the list |
| AddQuestionForm.Draft.AddSolution | src/components/AddQuestionForm.tsx:111-113 | Appends exactly one all-empty solution at the end; earlier entries unchanged |
| AddQuestionForm.Draft.ChangeSolution | src/components/AddQuestionForm.tsx:115-119 | Entry `index` gets field `field` set, other fields and entries unchanged |
| AddQuestionForm.Draft.RemoveSolution | src/components/AddQuestionForm.tsx:121-127 | Removal at the index when more than one entry is left, otherwise no change; never empties the list |
| AddQuestionForm.KeepTestCase | src/components/AddQuestionForm.tsx:139-140 | A test case is kept iff its input and its output each hold a character that is not whitespace |
| AddQuestionForm.KeepSolution | src/components/AddQuestionForm.tsx:141 | A solution is kept iff its name and its code each hold a character that is not whitespace |
| AddQuestionForm.PruneTexts | src/components/AddQuestionForm.tsx:137-138 | Pruned constraints or topics are an order-preserving subsequence of the draft list; an entry is in it iff it is in the draft and its trim is non-empty; each kept entry occurs as often as in the draft, untrimmed |
| AddQuestionForm.PruneTestCases | src/components/AddQuestionForm.tsx:139-140 | Pruned test cases are an order-preserving subsequence; a test case is in it iff it is in the draft and its trimmed input and trimmed output are both non-empty; each kept case occurs as often as in the draft |
| AddQuestionForm.PruneSolutions | src/components/AddQuestionForm.tsx:141 | Pruned solutions are an order-preserving subsequence; a solution is in it iff it is in the draft and its trimmed name and trimmed code are both non-empty; each kept solution occurs as often as in the draft |
| Questions.HasJwt | src/components/AddQuestionForm.tsx:131 | `!user?.jwt` stops the submit exactly when the token is absent or the empty string |
| AddQuestionForm.Draft.Submit | src/components/AddQuestionForm.tsx:129-153 | A request exists iff the token is present and non-empty. It carries no `id` or `questionId`, the form's own name, description, difficulty and source, and each list pruned by its own test. The draft is not changed |
| AddQuestionForm.WithTestCaseField | src/components/AddQuestionForm.tsx:60 | `{ ...tc, [field]: value }`: the named field reads back as the value, every other field as before |
| AddQuestionForm.WithSolutionField | src/components/AddQuestionForm.tsx:117 | The same for a solution's four fields |
| AddQuestionForm.ChangeTestCaseIsLocal | src/components/AddQuestionForm.tsx:58-62 | Changing one field of one test case keeps the length, every other entry and the other fields of that entry |
| AddQuestionForm.KeepSolutionIgnoresProse | src/components/AddQuestionForm.tsx:141 | A solution's explanation and example have no effect on whether it is kept |
| AddQuestionForm.KeepTestCaseIgnoresExplanation | src/components/AddQuestionForm.tsx:139-140 | A test case's explanation has no effect on whether it is kept |
| AddQuestionForm.EmptyIsBlank | src/components/AddQuestionForm.tsx:137 | `''.trim() !== ''` is false |
| AddQuestionForm.PruneEmptyTexts | src/components/AddQuestionForm.tsx:137-138 | A list of empty constraints or topics is pruned to nothing |
| AddQuestionForm.PruneEmptyInputs | src/components/AddQuestionForm.tsx:139-140 | Test cases with empty inputs are all pruned, whatever their outputs |
| AddQuestionForm.PruneEmptyNames | src/components/AddQuestionForm.tsx:141 | Solutions with empty names are all pruned, whatever their code |
| AddQuestionForm.InitialTextsPruneToEmpty | src/components/AddQuestionForm.tsx:25-28 | The initial `['']` of constraints and of topics prunes to the empty list |
| AddQuestionForm.InitialTestCasesPruneToEmpty | src/components/AddQuestionForm.tsx:26-27 | The initial one-blank test-case lists prune to the empty list |
| AddQuestionForm.InitialSolutionsPruneToEmpty | src/components/AddQuestionForm.tsx:31-33 | The initial one-blank solution list prunes to the empty list |
| AddQuestionForm.NoticeAsWritten | src/components/AddQuestionForm.tsx:155-166 | The success notice is shown exactly when no error was thrown, whatever `addNewQuestion` returned |
| AddQuestionForm.RefusedCreateReportedAsAdded | src/components/AddQuestionForm.tsx:155-159 | A create the server refuses (`response.ok` false, see `src/lib/api.ts:65`) is reported as added |
| AddQuestionForm.SubmitNotice | src/lib/api.ts:58-66 | Corrected notice: success iff the request went through and the server accepted it |
| AddQuestionForm.NoticesDifferOnRefusal | src/components/AddQuestionForm.tsx:155-166 | The written and the corrected notices differ exactly on a refused create |
| Dashboard.MatchesSearch | src/components/Dashboard.tsx:72-75 | A summary matches iff the lower-cased term occurs at some position of the lower-cased name or of some lower-cased topic |
| Dashboard.MatchesDifficulty | src/components/Dashboard.tsx:79-83 | A difficulty's name selects exactly the summaries of that difficulty; a selector other than "all" and the three names selects none |
| Dashboard.Shown | src/components/Dashboard.tsx:69-83 | With the `if (searchTerm)` guard, a summary is shown exactly when it passes the search test and the difficulty test |
| Dashboard.Visible | src/components/Dashboard.tsx:66-86 | The visible list is an order-preserving subsequence of the summaries. A summary is in it iff it is among them, the term is empty or matches, and the difficulty test passes. Each shown summary occurs as often as in the input, every other one not at all |
| Dashboard.FilterQuestions | src/components/Dashboard.tsx:66-86 | The step-by-step narrowing (search only for a non-empty term, difficulty only when the selector is not "all") equals one filter by "search test AND difficulty test" |
| Dashboard.VisibleUnfiltered | src/components/Dashboard.tsx:69-79 | An empty term and the selector "all" show every summary |
| Dashboard.VisibleIdempotent | src/components/Dashboard.tsx:66-86 | Filtering the visible list again with the same inputs changes nothing |
| Dashboard.EmptyTermMatchesAll | src/components/Dashboard.tsx:69-76 | An empty term would match every summary, so the `if (searchTerm)` guard only saves work |
| Dashboard.SearchIgnoresCase | src/components/Dashboard.tsx:72-74 | A term and its lower-cased form select the same summaries |
| Dashboard.MissesWithoutChar | src/components/Dashboard.tsx:72-74 | A summary whose lower-cased name and topics all lack some character of the lower-cased term does not match |
| Dashboard.DifficultyColor | src/components/Dashboard.tsx:88-99 | Total on strings; the colour is grey exactly for strings other than EASY, MEDIUM and HARD |
| Dashboard.DifficultyColorsDistinct | src/components/Dashboard.tsx:88-99 | The three difficulties get three different colours, none of them grey |
| Dashboard.CountsSumToTotal | src/components/Dashboard.tsx:199-232 | The EASY, MEDIUM and HARD counts add up to the number of summaries |
| Dashboard.CountWithDifficulty | src/components/Dashboard.tsx:208-232 | A count is at most the number of summaries, and is zero for any name other than EASY, MEDIUM and HARD |
| Dashboard.DashboardView.constructor | src/components/Dashboard.tsx:28-33 | No summaries, nothing shown, empty term, selector "all"; the shown list is the filter of the inputs |
| Dashboard.DashboardView.Refresh | src/components/Dashboard.tsx:85 | The shown list becomes the filter of the current inputs |
| Dashboard.DashboardView.LoadQuestions | src/components/Dashboard.tsx:45-54 | The fetched list replaces the summaries, and the shown list is again their filter |
| Dashboard.DashboardView.SetSearchTerm | src/components/Dashboard.tsx:45-47 | The term changes, and the shown list is again the filter of the inputs |
| Dashboard.DashboardView.SetDifficultyFilter | src/components/Dashboard.tsx:45-47 | The selector changes, and the shown list is again the filter of the inputs |
| DashboardExample.SearchByTopicExample | src/components/Dashboard.tsx:72-75 | Searching "array" finds "Two Sum" by its topic "Array" and not "LRU Cache" |
| DashboardExample.DifficultyExample | src/components/Dashboard.tsx:79-83 | The selector HARD with an empty term keeps only the HARD summary |
| DashboardExample.SearchByTopicWordExample | src/components/Dashboard.tsx:72-75 | Searching "list" finds "LRU Cache" through a substring of its topic "Linked List" |
| DashboardExample.TwoSumMatchesArray | src/components/Dashboard.tsx:72-75 | "Two Sum" matches "array" through its topic "Array" |
| DashboardExample.LruCacheLowered | src/components/Dashboard.tsx:72-75 | The lower-cased name and topics of "LRU Cache" |
| DashboardExample.LruCacheMissesArray | src/components/Dashboard.tsx:72-75 | "LRU Cache" does not match "array": none of its lower-cased texts has a `y` |
| DashboardExample.TwoSumMissesList | src/components/Dashboard.tsx:72-75 | "Two Sum" does not match "list" |
| DashboardExample.LruCacheMatchesList | src/components/Dashboard.tsx:72-75 | "LRU Cache" matches "list" at position 7 of "linked list" |
| Questions.DifficultyNameInjective | src/lib/api.ts:11 | The three difficulty names are distinct, so a name determines the difficulty |
| UpdateQuestionForm.InitialFormData | src/components/UpdateQuestionForm.tsx:21-27 | The form opens with no `id` and the summary's question id, name and difficulty; when the summary's topics are clean, parsing the joined text gives them back |
| UpdateQuestionForm.ApplyEdits | src/components/UpdateQuestionForm.tsx:95-128 | No series of edits changes the question id or the difficulty |
| UpdateQuestionForm.ApplyEdit | src/components/UpdateQuestionForm.tsx:106-128 | Each editable input sets its own field to the typed value and leaves the other two editable fields as they were; no edit changes the question id or the difficulty |
| UpdateQuestionForm.EditsKeepSummaryFields | src/components/UpdateQuestionForm.tsx:21-41 | After any series of edits of the form opened on a summary, the payload carries that summary's question id and difficulty |
| UpdateQuestionForm.TrimAll | src/components/UpdateQuestionForm.tsx:42 | `.map(t => t.trim())`: same length, each piece trimmed |
| UpdateQuestionForm.ParseTopics | src/components/UpdateQuestionForm.tsx:42 | Parsed topics are non-empty, comma-free and have no surrounding whitespace. They are an order-preserving subsequence of the trimmed pieces between commas, and each non-empty trimmed piece occurs among them exactly as often as among the pieces |
| UpdateQuestionForm.TrimmedPiecesClean | src/components/UpdateQuestionForm.tsx:42 | Trimming comma-free pieces leaves them comma-free and without surrounding whitespace |
| UpdateQuestionForm.ParseTopicsOfSeparators | src/components/UpdateQuestionForm.tsx:42 | Text made only of commas and whitespace parses to no topics |
| UpdateQuestionForm.TopicsRoundTrip | src/components/UpdateQuestionForm.tsx:26-42 | For non-empty, comma-free, trimmed topics, parsing their `join(', ')` gives them back |
| UpdateQuestionForm.SplitJoinedTopics | src/components/UpdateQuestionForm.tsx:26-42 | Splitting a `", "`-join on `,` gives the first topic and then each later one with a leading space |
| UpdateQuestionForm.SplitJoinedTopicsFromStart | src/components/UpdateQuestionForm.tsx:26-42 | Splitting the `join(', ')` of comma-free topics on `,` gives the first topic and then each later one with a space in front |
| UpdateQuestionForm.TrimJoinedPieces | src/components/UpdateQuestionForm.tsx:42 | Trimming those pieces gives back the clean topics |
| UpdateQuestionForm.UneditedSubmitKeepsSummary | src/components/UpdateQuestionForm.tsx:21-42 | Submitting the form as opened sends no `id` and the summary's own id, name, difficulty and (clean) topics |
| UpdateQuestionForm.IdOrAbsent | src/components/UpdateQuestionForm.tsx:38 | An empty id becomes absent; any other id passes through unchanged |
| UpdateQuestionForm.Submit | src/components/UpdateQuestionForm.tsx:29-50 | A request exists iff the token is present and non-empty, and it is the update payload of the form |
| UpdateQuestionForm.UpdatePayload | src/components/UpdateQuestionForm.tsx:37-50 | `id` is absent iff the form's is empty and is the form's otherwise; the question id, name and difficulty are the form's; the topics are clean; the description is "Updated description", constraints, test cases and solutions are empty and the source is LeetCode, whatever the form holds |
| Sequences.Filter | src/components/Dashboard.tsx:70 | `filter` never makes a list longer |
| Sequences.FilterMembership | src/components/Dashboard.tsx:70-83 | An element is kept iff it occurs in the input and satisfies the predicate |
| Sequences.FilterSound | src/components/AddQuestionForm.tsx:137-141 | Everything a filter keeps is in the input and satisfies the predicate |
| Sequences.FilterComplete | src/components/AddQuestionForm.tsx:137-141 | A filter drops nothing of the input that satisfies the predicate |
| Sequences.FilterMembershipAll | src/components/Dashboard.tsx:70-83 | For every value at once: kept iff it occurs in the input and satisfies the predicate |
| Sequences.FilterCount | src/components/AddQuestionForm.tsx:137-141 | `filter` keeps every occurrence of a value that satisfies the predicate and none of one that does not |
| Sequences.FilterIsSubseq | src/components/AddQuestionForm.tsx:137-141 | `filter` keeps the relative order of what it keeps |
| Sequences.FilterFilter | src/components/Dashboard.tsx:70-83 | Two filters in a row are one filter by the conjunction |
| Sequences.FilterSamePredicate | src/components/Dashboard.tsx:70-83 | Filters by predicates that agree on every element agree |
| Sequences.FilterKeepsAll | src/components/Dashboard.tsx:69-79 | A filter whose predicate holds everywhere returns its input |
| Sequences.FilterDropsAll | src/components/AddQuestionForm.tsx:137-141 | A filter whose predicate holds nowhere returns the empty list |
| Sequences.FilterIdempotent | src/components/Dashboard.tsx:66-86 | Filtering twice by the same predicate is filtering once |
| Sequences.RemoveAt | src/components/AddQuestionForm.tsx:47-48 | `splice(i, 1)` on a copy: one shorter, entries before `i` kept, entries after `i` shifted left by one |
| Sequences.RemoveAtMultiset | src/components/AddQuestionForm.tsx:47-48 | The removal takes away exactly one occurrence of the removed entry and nothing else |
| Text.Trim | src/components/AddQuestionForm.tsx:137 | `trim()` is the slice of the input between an all-whitespace prefix and an all-whitespace suffix; it has no whitespace at either end, and it is empty exactly for all-whitespace input |
| Text.TrimSlice | src/components/AddQuestionForm.tsx:137 | The slice between the leading and the trailing whitespace runs has whitespace-only surroundings, no whitespace at its ends, and is empty exactly for all-whitespace input |
| Text.SkipWhitespace | src/components/AddQuestionForm.tsx:137 | The first index at or after a start that holds no whitespace: everything skipped is whitespace and the character there is not |
| Text.SkipWhitespaceBack | src/components/AddQuestionForm.tsx:137 | Moving back from an end but not past a bound: everything skipped is whitespace and the character before the stop is not |
| Text.NonBlank | src/components/AddQuestionForm.tsx:137 | `s.trim() !== ''` holds iff `s` has a character that is not whitespace |
| Text.TrimTrimmed | src/components/UpdateQuestionForm.tsx:42 | `trim()` leaves a string with no surrounding whitespace unchanged |
| Text.TrimIdempotent | src/components/UpdateQuestionForm.tsx:42 | `trim()` twice is `trim()` once |
| Text.TrimLeadingSpace | src/components/UpdateQuestionForm.tsx:26-42 | The space `join(', ')` puts before a topic is removed again by `trim()` |
| Text.LeadingSpaceShiftsCut | src/components/UpdateQuestionForm.tsx:26-42 | Behind a leading space, `trim()` cuts at the same places, one position later |
| Text.SkipShifts | src/components/UpdateQuestionForm.tsx:26-42 | One more character in front moves the forward whitespace skip one place later |
| Text.SkipBackShifts | src/components/UpdateQuestionForm.tsx:26-42 | One more character in front moves the backward whitespace skip one place later |
| Text.ShiftedSlice | src/components/UpdateQuestionForm.tsx:26-42 | A slice of `[c] + s` one place later is the same slice of `s` |
| Text.Lower | src/components/Dashboard.tsx:72 | `toLowerCase()`: same length, each character lower-cased |
| Text.LowerHasNoUpper | src/components/Dashboard.tsx:72 | A lower-cased string has no upper-case letter |
| Text.LowerIdempotent | src/components/Dashboard.tsx:72-74 | Lower-casing twice is lower-casing once |
| Text.IncludesNeedsEveryChar | src/components/Dashboard.tsx:72-74 | A string cannot include a substring holding a character it lacks |
| Text.Includes | src/components/Dashboard.tsx:72-74 | `includes(sub)` holds iff `sub` occurs at some position |
| Text.OccursInTail | src/components/Dashboard.tsx:72-74 | An occurrence in the tail of a string is an occurrence one position later in the string, and back |
| Text.IncludesEmpty | src/components/Dashboard.tsx:72 | Every string includes the empty string |
| Text.IndexOf | src/components/UpdateQuestionForm.tsx:42 | The position of the first separator, or the length when there is none |
| Text.Split | src/components/UpdateQuestionForm.tsx:42 | `split(',')` gives at least one piece, and no piece holds the separator |
| Text.SplitPiecesFromText | src/components/UpdateQuestionForm.tsx:42 | Every character of every piece comes from the split text |
| Text.JoinSplit | src/components/UpdateQuestionForm.tsx:42 | Joining the pieces of a split with the separator gives back the text |
| Text.Join | src/components/UpdateQuestionForm.tsx:26 | `join(sep)` starts with the first element and holds only characters of the separator or of the elements |
| Text.SplitJoin | src/components/UpdateQuestionForm.tsx:26-42 | Splitting a join of separator-free pieces gives back the pieces |
| Text.SplitWithoutSeparator | src/components/UpdateQuestionForm.tsx:42 | Text without a separator splits into itself alone |
| Text.SplitAtFirst | src/components/UpdateQuestionForm.tsx:42 | The first piece ends at the first separator |

## Left out

- I/O is not modelled. This covers every `fetch` in `src/lib/api.ts`, the authentication context and its `localStorage` persistence, the login form, the index page, JSX markup, toasts, the `isLoading` flags and the `async`/`finally` sequencing. The token is a parameter (`Option<string>`). A sent request is the returned `Question` value; the server's answer and a thrown error are the two booleans of `AddQuestionForm.SubmitNotice`.
- `trim()` and `toLowerCase()` are modelled for ASCII only. Whitespace is the space and code points 9 to 13; lower-casing maps `A`-`Z` to `a`-`z`. JavaScript's full Unicode whitespace set and case mapping are not captured.
- The list handlers require an index inside the list. The form calls them only with the indices of `.map` over the same list (`src/components/AddQuestionForm.tsx:262`, `299`, `336`, `397`, `458`). JavaScript's behaviour for negative or out-of-range `splice` and index assignment is not modelled.
- React's re-render and effect scheduling (`src/components/Dashboard.tsx:41-47`) is modelled in one way only: each input setter of `Dashboard.DashboardView` calls `Refresh` itself. Batching and the order of renders are not captured.
- The `fetchQuestions` error path (`src/components/Dashboard.tsx:55-60`) is left out. It is a toast and shows nothing new. `LoadQuestions` models only a successful load.
- `TestCase.explanation` is optional in `src/lib/api.ts:19`, but the form always fills it with a string, so it is modelled as a `string`.
- The update form's question-id `onChange` (`src/components/UpdateQuestionForm.tsx:95`) is not an edit in `UpdateQuestionForm.FormEdit`, because the input is `readOnly` (line 97). Its `parseInt` is therefore not modelled.
- The difficulty and source selectors can only yield their listed values. They are the datatypes `Difficulty` and `Source`; the dashboard's selector stays a free string, as in the code.
- The create form's `onBack`/`onSuccess` callbacks and the dashboard's tab switching and logout are navigation and are not modelled.
- The `required` attribute on the create form's name and description inputs (`src/components/AddQuestionForm.tsx:201`, `212`) and on the update form's name input (`src/components/UpdateQuestionForm.tsx:118`) is browser validation before the submit handler runs. `AddQuestionForm.Draft.Submit` and `UpdateQuestionForm.Submit` model the handler only, so they also build a request for an empty name or description.
- `getAllQuestionNames` returns `response.json()` unchecked (`src/lib/api.ts:53`). The model takes the summaries' difficulty as the closed datatype `Difficulty`, so `Dashboard.CountsSumToTotal` holds for well-typed summaries only; a server string outside EASY, MEDIUM and HARD would be counted in none of the three.
- Both `addNewQuestion` and `updateQuestion` send the `Question` as `JSON.stringify(question)` with its own keys (`src/lib/api.ts:62`, `72`); the wire format is I/O and is not modelled.
- `updateQuestion`'s handling of a `data.error` field in the response (`src/lib/api.ts:75-82`) is I/O and is not modelled.

## Findings

| source | as written | input that shows it | evidently intended | confidence | as-written member | corrected member |
|---|---|---|---|---|---|---|
| src/components/AddQuestionForm.tsx:155-160 | The value of `await apiService.addNewQuestion(...)` is discarded. `addNewQuestion` does not throw on an HTTP error; it returns `response.ok` (`src/lib/api.ts:65`). The success toast and `onSuccess()` therefore run whenever no network error was thrown | The server answers the create with a non-2xx status: `response.ok` is false, nothing is thrown, and "Question added successfully!" is shown | Report success only when the request went through and `response.ok` is true, as `updateQuestion` does by throwing | not executed | AddQuestionForm.RefusedCreateReportedAsAdded | AddQuestionForm.SubmitNotice |
