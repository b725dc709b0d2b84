# Run builder for the DRAGUN starter kit: a verified model

`produce_run.py` builds the two submission files of a run. For every target
article, in topic order, it writes:

- one task-1 row per generated question: the article id, the team id, the run
  label, the 1-based question index and the question, separated by tabs;
- one task-2 record: fixed metadata and one response per report sentence. A
  response pairs the sentence's text with its original citations.

A report whose word count is above 250 is first shortened. The shortener is a
language model, called at most five times, and each call asks it to remove
`max(word_count - 240, 20)` words. After the loop the script asserts that the
number of sentences did not change. Ending still over budget after five calls
is accepted.

The model has four modules:

- `Outcome` (outcome.dfy): `Option`, `Result` and the `Failure`s that abort a
  run. These are a missing article (`KeyError`), a reply that did not parse,
  and a changed sentence count (`AssertionError`).
- `Text` (text.dfy): the Python string operations the script relies on.
  - `str.split()` is modelled as `Split`, with word counts `WordCount` and
    `ReportWordCount`.
  - `str.strip()` is `Strip`.
  - `f'{i+1}'` is `Decimal`.
  - `str.split(sep)` and `sep.join` (`SplitOn`, `JoinOn`) state how the task-1
    text reads back.
  - `IsWhitespace` is the set of characters that Python's `str.isspace` accepts.
- `Shortener` (shortener.dfy): the removal demand `WordsToRemove` and the
  bounded shortening loop.
  - The language model is a `Service`: a function from the attempt number and
    the request to `Some(sentences)`, or `None` when the reply did not parse.
  - `Shorten` specifies the loop. The `ShortenLoop` method runs it with a call
    counter and is proved equal to `Shorten`.
- `Run` (run.dfy): the per-article body of `main` and the whole run.
  - `ReadReport`, `ProcessReport`, `PairResponses`, `AppendQuestionLines` and
    `ProcessArticle` are the methods, and `ProduceRun` is the loop over topics.
  - Each method is proved against a specification function
    (`ArticleResponses`, `QuestionRows`/`Terminated`, `Task1Rows`,
    `ArticleStatus`, `Task2Records`). The properties are proved as lemmas about
    those functions.

Dictionary keys `question_<k>` and `sentence_<k>` become sequences: position
`k - 1` holds key `k`. The team id and the run-id prefix are the script's
constants.

`main` passes the task-1 text through `.strip()` (produce_run.py:112), which
trims whitespace at both ends of the text, not only the trailing newline.
`Strip` and `StripIsInfix` model that.

## Model

| member | source | states |
|---|---|---|
| `Text.Split` | produce_run.py:79 | every token of `str.split()` is non-empty and contains no whitespace |
| `Text.SplitKeepsNonSpace` | produce_run.py:79 | the tokens, joined end to end, are exactly the sentence's non-whitespace characters, in order |
| `Text.WordCountIsWordStarts` | produce_run.py:79 | a sentence's word count equals the number of maximal non-whitespace runs, each counted at its first character |
| `Text.WordCountZeroIffBlank` | produce_run.py:76-79 | a sentence adds 0 words exactly when it is all whitespace |
| `Text.ReportWordCountAppend` | produce_run.py:76-79 | the report word count is additive over sentences, which is what the running `+=` relies on |
| `Text.ReportWordCountOfSpacedText` | produce_run.py:91 | the sum of per-sentence counts equals the word count of the sentences written out with a space after each |
| `Text.StripIsInfix` | produce_run.py:112 | `strip()` keeps one contiguous slice, drops only whitespace on either side, and the slice neither starts nor ends with whitespace |
| `Text.StripNewlineTerminated` | produce_run.py:112 | a newline-terminated text whose body starts and ends with non-whitespace loses exactly its final newline |
| `Text.Decimal` | produce_run.py:71 | the rendered index is a non-empty string of digits with no leading zero |
| `Text.DecimalRoundTrip` | produce_run.py:71 | reading the rendered index back gives the index |
| `Shortener.WordsToRemove` | produce_run.py:24-25 | the demand is at least 20 and at least `word_count - 240`, and equals one of the two |
| `Shortener.RemovalFitsReport` | produce_run.py:24-27 | over budget, the demand is positive and below the current count, and meeting it reaches 240 words or fewer |
| `Shortener.ShortenBounds` | produce_run.py:84-91 | at most 5 calls; the loop ends within 250 words or after all 5 attempts, and running out over budget is not a failure; a start over budget makes at least one call; a failure names an attempt that was made |
| `Shortener.ShortenTrace` | produce_run.py:84-91 | each call's request carries the running sentences and their true count, which is over 250, and demands `WordsToRemove` of that count; the first request carries the input; each reply becomes the next request or the result |
| `Shortener.ShortenCalls` | produce_run.py:84-91 | the loop calls the service at most 5 times, and not at all exactly when the report starts within 250 words; a failure names the last attempt made |
| `Shortener.ShortenLoop` | produce_run.py:82-91 | the loop equals `Shorten` and its call counter equals the calls `Shorten` records; the counter is at most 5, is 0 exactly when the start is within budget, equals the number of requests on success, and names the failing attempt on failure |
| `Run.ReadReport` | produce_run.py:73-79 | the collected sentences are the report's texts in order, and the accumulated count is their report word count |
| `Run.PairResponses` | produce_run.py:94-99 | response `i` pairs text `i` with the citations of report sentence `i` |
| `Run.ProcessReport` | produce_run.py:73-99 | the result equals `ArticleResponses`; the shortener is called at most 5 times, and not at all exactly when the original count is within 250 |
| `Run.ResponsesVerbatimWithinBudget` | produce_run.py:80-99 | within budget, the responses are the original sentences and citations, verbatim and in order |
| `Run.ResponsesKeepCitations` | produce_run.py:94-99 | there is one response per original sentence; response `k` carries sentence `k`'s citations unchanged, and its text is the original or the shortener's `k`-th sentence |
| `Run.ResponsesOverBudget` | produce_run.py:80-95 | over budget, success means 1 to 5 calls with a valid trace and an unchanged sentence count; failure means an unparsable reply or a changed sentence count |
| `Run.AppendQuestionLines` | produce_run.py:69-71 | appends one newline-terminated row per question, numbered from 1, in question order |
| `Run.Task1RowFields` | produce_run.py:71 | a row splits on tabs into exactly article id, team id, run label, index and question, and the index field reads back as the index |
| `Run.Task1RowOneLine` | produce_run.py:71 | a row has no newline when the article id and the question have none |
| `Run.Task1TextLines` | produce_run.py:69-71 | the accumulated text splits on newlines into its rows plus one empty piece after the last newline |
| `Run.Task1OutputLines` | produce_run.py:112 | after `strip()`, the task-1 text is exactly one line per row, with no trailing blank line, when it starts and ends with non-whitespace |
| `Run.RunTask1Lines` | produce_run.py:67-112 | the run's task-1 text, split on newlines, is exactly one line per (article, question) pair in topic and question order, when no id or question holds a newline and the text begins and ends with non-whitespace |
| `Run.ProcessArticle` | produce_run.py:68-99 | the status equals `ArticleStatus`: a missing article fails, otherwise the question rows are appended and the report is processed |
| `Run.RunStep` | produce_run.py:67-110 | one more successful topic extends the task-1 rows and the task-2 records by exactly that topic's share |
| `Run.ProduceRun` | produce_run.py:67-112 | success exactly when every topic succeeds, and otherwise the first failing topic's failure; on success the task-1 text is the stripped rows in topic order, and there is one task-2 record per topic, in order, with fixed metadata and that article's responses |

## Left out

- Reading the topic file and `tracking_data.json` (produce_run.py:56-61) and writing both output files (produce_run.py:114-119) are file I/O. `ProduceRun` takes the ids and the data as parameters and returns the outputs.
- The Azure OpenAI client, the prompt text and the `beta.chat.completions.parse` call with `Sentences` decoding (produce_run.py:11-21, 26-48) are network and library calls. They are the `Service` oracle. A `ShortenRequest` records what the instruction states: current count, removal demand and target.
- `json.dumps` of the sentence list sent to the model (produce_run.py:89) and of each task-2 record (produce_run.py:119) are library serialisers. Requests carry the sentence list, and records are Dafny datatypes.
- `print` logging (produce_run.py:81, 88, 93) and `load_dotenv` (produce_run.py:8) are not modelled.
- A missing `question_<k>` or `sentence_<k>` key, which raises `KeyError` in the script, cannot occur: questions and sentences are sequences.
- `Service` is a function of the attempt number and the request. A service whose reply depends on anything else is not represented.
- Task1RowFields, Task1RowOneLine: the readback holds only when article ids and questions contain no tab or newline. The script does not check this, and a question that contains one produces a malformed row.
- Task1OutputLines, RunTask1Lines: stated only for a text that starts and ends with non-whitespace. Otherwise `strip()` also removes leading whitespace of the first article id, or trailing whitespace (even the last tab) of the last row. `StripIsInfix` covers that general case.
