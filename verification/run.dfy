/** The run builder's per-article processing: task-1 question rows, the report
    word count, shortening over budget, and the task-2 record that pairs each
    (possibly shortened) sentence with its original citations. */
module Run {
  import opened Outcome
  import opened Text
  import opened Shortener

  const TeamId: string := "dragun-organizers"
  const RunIdPrefix: string := "dragun-organizers-starter-kit"
  /** `f'{run_id_prefix}-task-1'`, the run label of every task-1 row. */
  const Task1RunId: string := RunIdPrefix + "-task-1"
  /** `f'{run_id_prefix}-task-2'`, the run id of every task-2 record. */
  const Task2RunId: string := RunIdPrefix + "-task-2"

  /** One `sentence_<k>` entry of an article's generated report. */
  datatype ReportSentence = ReportSentence(sentence: string, citations: seq<string>)

  /** The tracking data of one article: its generated questions and report
      sentences. Position `k` stands for the key with number `k + 1`. */
  datatype Article = Article(questions: seq<string>, report: seq<ReportSentence>)

  /** One entry of a task-2 record's `responses`. */
  datatype Response = Response(text: string, citations: seq<string>)

  datatype Metadata = Metadata(teamId: string, runId: string, topicId: string, runType: string, useStarterKit: nat)

  /** One line of the task-2 output, before JSON serialisation. */
  datatype Task2Record = Task2Record(metadata: Metadata, responses: seq<Response>)

  /** The two outputs of a run: the stripped task-1 text and the task-2 records. */
  datatype RunOutput = RunOutput(task1: string, task2: seq<Task2Record>)

  // ---------------------------------------------------------------------------
  // Report processing (produce_run.py:73-99)
  // ---------------------------------------------------------------------------

  function Texts(report: seq<ReportSentence>): seq<string> {
    seq(|report|, k requires 0 <= k < |report| => report[k].sentence)
  }

  function OriginalWordCount(a: Article): nat {
    ReportWordCount(Texts(a.report))
  }

  /** Pairs text `k` with the citations of report sentence `k`. */
  function Pair(texts: seq<string>, report: seq<ReportSentence>): seq<Response>
    requires |texts| == |report|
  {
    seq(|report|, k requires 0 <= k < |report| => Response(texts[k], report[k].citations))
  }

  /** The responses of one article, or the failure that aborts the run: the
      report verbatim when within budget, otherwise the shortened sentences,
      which must be as many as the original ones. */
  function ArticleResponses(a: Article, service: Service): Result<seq<Response>, Failure> {
    var texts := Texts(a.report);
    var count := ReportWordCount(texts);
    if count <= Budget then Ok(Pair(texts, a.report))
    else
      match Shorten(texts, count, 0, service)
      case Err(e) => Err(e)
      case Ok(r) =>
        if |r.sentences| != |texts| then Err(SentenceCountChanged(|texts|, |r.sentences|))
        else Ok(Pair(r.sentences, a.report))
  }

  /** Within budget, the responses are the report's sentences and citations,
      verbatim and in order. */
  lemma ResponsesVerbatimWithinBudget(a: Article, service: Service)
    requires OriginalWordCount(a) <= Budget
    ensures ArticleResponses(a, service).Ok?
    ensures var rs := ArticleResponses(a, service).value;
      |rs| == |a.report|
      && forall k :: 0 <= k < |rs| ==> rs[k] == Response(a.report[k].sentence, a.report[k].citations)
  {
  }

  /** Response `k` always carries the citations of report sentence `k`, and
      there is exactly one response per report sentence; its text is the
      original sentence within budget, and sentence `k` of the shortener's
      final output otherwise. */
  lemma ResponsesKeepCitations(a: Article, service: Service)
    ensures var res := ArticleResponses(a, service);
      res.Ok? ==>
        |res.value| == |a.report|
        && forall k :: 0 <= k < |a.report| ==>
             res.value[k].citations == a.report[k].citations
             && res.value[k].text == (if OriginalWordCount(a) <= Budget then a.report[k].sentence
                                      else Shorten(Texts(a.report), OriginalWordCount(a), 0, service).value.sentences[k])
  {
  }

  /** Over budget, a successful article made between one and `MaxAttempts`
      calls, whose trace `IsTrace` describes, and ended within budget unless
      every attempt was used. A failed article was over budget, and either a
      reply did not parse or the sentence count changed. */
  lemma ResponsesOverBudget(a: Article, service: Service)
    requires OriginalWordCount(a) > Budget
    ensures var res := ArticleResponses(a, service);
      var sh := Shorten(Texts(a.report), OriginalWordCount(a), 0, service);
      res.Ok? ==>
        sh.Ok? && |sh.value.sentences| == |a.report|
        && 1 <= |sh.value.requests| <= MaxAttempts
        && (sh.value.wordCount <= Budget || |sh.value.requests| == MaxAttempts)
        && IsTrace(Texts(a.report), OriginalWordCount(a), 0, service, sh.value)
    ensures var res := ArticleResponses(a, service);
      var sh := Shorten(Texts(a.report), OriginalWordCount(a), 0, service);
      res.Err? ==>
        (sh.Err? && res.error == sh.error && res.error.MalformedReply? && res.error.attempt < MaxAttempts)
        || (sh.Ok? && res.error == SentenceCountChanged(|a.report|, |sh.value.sentences|)
            && |sh.value.sentences| != |a.report|)
  {
    ShortenBounds(Texts(a.report), OriginalWordCount(a), 0, service);
    ShortenTrace(Texts(a.report), OriginalWordCount(a), 0, service);
  }

  /** produce_run.py:73-79: collect the report's sentences in order and add up their
      word counts. */
  method ReadReport(report: seq<ReportSentence>) returns (sentences: seq<string>, wordCount: nat)
    ensures sentences == Texts(report)
    ensures wordCount == ReportWordCount(sentences)
  {
    sentences, wordCount := [], 0;
    for i := 0 to |report|
      invariant sentences == Texts(report[..i])
      invariant wordCount == ReportWordCount(sentences)
    {
      var sentence := report[i].sentence;
      assert Texts(report[..i + 1]) == sentences + [sentence];
      assert (sentences + [sentence])[..|sentences|] == sentences;
      sentences := sentences + [sentence];
      wordCount := wordCount + WordCount(sentence);
    }
    assert report[..|report|] == report;
  }

  /** produce_run.py:94-99: response `i` pairs text `i` with the citations of report
      sentence `i`. Within budget the texts are the report's own sentences. */
  method PairResponses(texts: seq<string>, report: seq<ReportSentence>) returns (responses: seq<Response>)
    requires |texts| == |report|
    ensures responses == Pair(texts, report)
  {
    responses := [];
    for i := 0 to |report|
      invariant |responses| == i
      invariant forall j :: 0 <= j < i ==> responses[j] == Response(texts[j], report[j].citations)
    {
      responses := responses + [Response(texts[i], report[i].citations)];
    }
  }

  /** produce_run.py:73-99 for one article: collect the sentences and their word count,
      shorten when over budget, check the sentence count, and pair each text
      with its original citations. `calls` counts the shortener calls made. */
  method ProcessReport(a: Article, service: Service) returns (result: Result<seq<Response>, Failure>, calls: nat)
    ensures result == ArticleResponses(a, service)
    ensures calls <= MaxAttempts
    ensures calls == 0 <==> OriginalWordCount(a) <= Budget
  {
    var sentences, originalWordCount := ReadReport(a.report);
    var responses: seq<Response>;
    calls := 0;
    if originalWordCount > Budget {
      var shortened;
      shortened, calls := ShortenLoop(sentences, originalWordCount, service);
      if shortened.Err? {
        result := Err(shortened.error);
        return;
      }
      var newSentences := shortened.value.sentences;
      if |newSentences| != |sentences| {
        result := Err(SentenceCountChanged(|sentences|, |newSentences|));
        return;
      }
      responses := PairResponses(newSentences, a.report);
    } else {
      responses := PairResponses(sentences, a.report);
    }
    result := Ok(responses);
  }

  // ---------------------------------------------------------------------------
  // Task-1 rows (produce_run.py:69-71 and produce_run.py:112)
  // ---------------------------------------------------------------------------

  /** One task-1 row without its newline: article id, team id, run label,
      1-based question index and question, separated by tabs. */
  function Task1Row(articleId: string, index: nat, question: string): string {
    articleId + "\t" + TeamId + "\t" + Task1RunId + "\t" + Decimal(index) + "\t" + question
  }

  /** The rows of one article's questions, numbered from 1. */
  function QuestionRows(articleId: string, questions: seq<string>): seq<string> {
    seq(|questions|, k requires 0 <= k < |questions| => Task1Row(articleId, k + 1, questions[k]))
  }

  /** The rows of every article, in topic order. */
  function Task1Rows(articleIds: seq<string>, data: map<string, Article>): seq<string>
    requires forall id :: id in articleIds ==> id in data
  {
    if articleIds == [] then []
    else
      var last := articleIds[|articleIds| - 1];
      Task1Rows(articleIds[..|articleIds| - 1], data) + QuestionRows(last, data[last].questions)
  }

  /** The rows, each followed by a newline. */
  function Terminated(rows: seq<string>): string {
    if rows == [] then [] else rows[0] + "\n" + Terminated(rows[1..])
  }

  lemma {:induction false} TerminatedAppend(a: seq<string>, b: seq<string>)
    ensures Terminated(a + b) == Terminated(a) + Terminated(b)
  {
    if a == [] {
      assert a + b == b;
    } else {
      assert (a + b)[1..] == a[1..] + b;
      TerminatedAppend(a[1..], b);
    }
  }

  lemma {:induction false} TerminatedIsJoin(rows: seq<string>)
    ensures Terminated(rows) == JoinOn(rows + [""], '\n')
  {
    if rows != [] {
      TerminatedIsJoin(rows[1..]);
      assert (rows + [""])[1..] == rows[1..] + [""];
    }
  }

  lemma TerminatedSnoc(output: string, rows: seq<string>, row: string)
    ensures output + Terminated(rows) + (row + "\n") == output + Terminated(rows + [row])
  {
    TerminatedAppend(rows, [row]);
    assert [row][1..] == [];
    assert Terminated([row]) == row + "\n";
  }

  /** produce_run.py:69-71: appends one newline-terminated row per question to `output`. */
  method AppendQuestionLines(output: string, articleId: string, questions: seq<string>) returns (extended: string)
    ensures extended == output + Terminated(QuestionRows(articleId, questions))
  {
    ghost var rows := QuestionRows(articleId, questions);
    extended := output;
    for i := 0 to |questions|
      invariant extended == output + Terminated(rows[..i])
    {
      var row := Task1Row(articleId, i + 1, questions[i]);
      assert rows[..i + 1] == rows[..i] + [row];
      TerminatedSnoc(output, rows[..i], row);
      extended := extended + (row + "\n");
    }
    assert rows[..|questions|] == rows;
  }

  lemma NoSeparatorInConstants()
    ensures '\t' !in TeamId && '\n' !in TeamId
    ensures '\t' !in Task1RunId && '\n' !in Task1RunId
  {
  }

  lemma NoSeparatorInDecimal(n: nat)
    ensures '\t' !in Decimal(n) && '\n' !in Decimal(n)
  {
  }

  lemma JoinFive(a: string, b: string, c: string, d: string, e: string, sep: char)
    ensures JoinOn([a, b, c, d, e], sep) == a + [sep] + b + [sep] + c + [sep] + d + [sep] + e
  {
    var fields := [a, b, c, d, e];
    assert fields[1..] == [b, c, d, e];
    assert fields[1..][1..] == [c, d, e];
    assert fields[1..][1..][1..] == [d, e];
    assert fields[1..][1..][1..][1..] == [e];
    assert JoinOn([d, e], sep) == d + [sep] + e;
    assert JoinOn([c, d, e], sep) == c + [sep] + (d + [sep] + e);
    assert JoinOn([b, c, d, e], sep) == b + [sep] + (c + [sep] + (d + [sep] + e));
  }

  /** A row splits on tabs into exactly its five fields, and its index field
      reads back as the index, as long as the article id and the question hold
      no tab. */
  lemma Task1RowFields(articleId: string, index: nat, question: string)
    requires '\t' !in articleId && '\t' !in question
    ensures SplitOn(Task1Row(articleId, index, question), '\t')
         == [articleId, TeamId, Task1RunId, Decimal(index), question]
    ensures DecimalValue(Decimal(index)) == index
  {
    var fields := [articleId, TeamId, Task1RunId, Decimal(index), question];
    NoSeparatorInConstants();
    NoSeparatorInDecimal(index);
    JoinFive(articleId, TeamId, Task1RunId, Decimal(index), question, '\t');
    SplitJoinRoundTrip(fields, '\t');
    DecimalRoundTrip(index);
  }

  /** A row holds no newline when the article id and the question hold none. */
  lemma Task1RowOneLine(articleId: string, index: nat, question: string)
    requires '\n' !in articleId && '\n' !in question
    ensures '\n' !in Task1Row(articleId, index, question)
  {
    NoSeparatorInConstants();
    NoSeparatorInDecimal(index);
  }

  /** No row holds a newline. */
  predicate OneLineEach(rows: seq<string>) {
    forall r :: r in rows ==> '\n' !in r
  }

  /** The rows are not empty, and the text they make begins and ends with
      non-whitespace: the first row's first character and the last row's last
      character. */
  predicate NonSpaceEdges(rows: seq<string>) {
    rows != [] && rows[0] != [] && rows[|rows| - 1] != []
    && !IsWhitespace(rows[0][0]) && !IsWhitespace(rows[|rows| - 1][|rows[|rows| - 1]| - 1])
  }

  /** The accumulated task-1 text, split on newlines, is its rows followed by
      one empty piece after the final newline. */
  lemma Task1TextLines(rows: seq<string>)
    requires OneLineEach(rows)
    ensures SplitOn(Terminated(rows), '\n') == rows + [""]
  {
    TerminatedIsJoin(rows);
    SplitJoinRoundTrip(rows + [""], '\n');
  }

  /** After `strip()`, the task-1 text is exactly one line per row with no
      trailing blank line, provided the text begins and ends with
      non-whitespace (its first row's first character and last row's last
      character). */
  lemma Task1OutputLines(rows: seq<string>)
    requires NonSpaceEdges(rows) && OneLineEach(rows)
    ensures SplitOn(Strip(Terminated(rows)), '\n') == rows
  {
    var body := JoinOn(rows, '\n');
    TerminatedIsJoin(rows);
    assert JoinOn(rows + [""], '\n') == body + "\n" by {
      JoinPlusEmpty(rows);
    }
    JoinOnEnds(rows, '\n');
    assert body[0] == rows[0][0] by {
      assert body[..|rows[0]|][0] == body[0];
    }
    var last := rows[|rows| - 1];
    assert body[|body| - 1] == last[|last| - 1] by {
      assert body[|body| - |last|..][|last| - 1] == body[|body| - 1];
    }
    StripNewlineTerminated(body);
    SplitJoinRoundTrip(rows, '\n');
  }

  /** No task-1 row of the run holds a newline when no article id and no
      question does. */
  lemma {:induction false} Task1RowsOneLine(articleIds: seq<string>, data: map<string, Article>)
    requires forall id :: id in articleIds ==> id in data
    requires forall id :: id in articleIds ==> '\n' !in id
    requires forall id :: id in articleIds ==> forall q :: q in data[id].questions ==> '\n' !in q
    ensures OneLineEach(Task1Rows(articleIds, data))
  {
    if articleIds != [] {
      var last := articleIds[|articleIds| - 1];
      Task1RowsOneLine(articleIds[..|articleIds| - 1], data);
      var questions := data[last].questions;
      forall k | 0 <= k < |questions|
        ensures '\n' !in QuestionRows(last, questions)[k]
      {
        Task1RowOneLine(last, k + 1, questions[k]);
      }
    }
  }

  /** The run's task-1 text, split on newlines, is exactly one line per
      (article, question) pair in topic and question order, provided no id or
      question holds a newline and the text begins and ends with
      non-whitespace. */
  lemma RunTask1Lines(articleIds: seq<string>, data: map<string, Article>)
    requires forall id :: id in articleIds ==> id in data
    requires forall id :: id in articleIds ==> '\n' !in id
    requires forall id :: id in articleIds ==> forall q :: q in data[id].questions ==> '\n' !in q
    requires NonSpaceEdges(Task1Rows(articleIds, data))
    ensures SplitOn(Strip(Terminated(Task1Rows(articleIds, data))), '\n') == Task1Rows(articleIds, data)
  {
    Task1RowsOneLine(articleIds, data);
    Task1OutputLines(Task1Rows(articleIds, data));
  }

  lemma {:induction false} JoinPlusEmpty(rows: seq<string>)
    requires rows != []
    ensures JoinOn(rows + [""], '\n') == JoinOn(rows, '\n') + "\n"
  {
    if |rows| > 1 {
      JoinPlusEmpty(rows[1..]);
      assert (rows + [""])[1..] == rows[1..] + [""];
    }
  }

  // ---------------------------------------------------------------------------
  // The whole run (produce_run.py:67-112)
  // ---------------------------------------------------------------------------

  /** What processing one topic's article yields: its responses, or the
      failure that aborts the run (a missing article among them). */
  function ArticleStatus(articleId: string, data: map<string, Article>, service: Service): Result<seq<Response>, Failure> {
    if articleId in data then ArticleResponses(data[articleId], service) else Err(MissingArticle(articleId))
  }

  /** The task-2 record of one article: fixed metadata and its responses. */
  function Task2(articleId: string, responses: seq<Response>): Task2Record {
    Task2Record(Metadata(TeamId, Task2RunId, articleId, "automatic", 1), responses)
  }

  /** produce_run.py:68-99 for one topic: look the article up, append its question
      rows to the task-1 text, and process its report. */
  method ProcessArticle(task1: string, articleId: string, data: map<string, Article>, service: Service)
    returns (extended: string, status: Result<seq<Response>, Failure>)
    ensures status == ArticleStatus(articleId, data, service)
    ensures articleId in data ==> extended == task1 + Terminated(QuestionRows(articleId, data[articleId].questions))
  {
    extended := task1;
    if articleId !in data {
      status := Err(MissingArticle(articleId));
      return;
    }
    var article := data[articleId];
    extended := AppendQuestionLines(task1, articleId, article.questions);
    var calls;
    status, calls := ProcessReport(article, service);
  }

  /** Every topic's article is present and processes without failure. */
  predicate AllSucceed(articleIds: seq<string>, data: map<string, Article>, service: Service) {
    forall k :: 0 <= k < |articleIds| ==> ArticleStatus(articleIds[k], data, service).Ok?
  }

  /** The task-2 records of topics that all succeed, in topic order. */
  function Task2Records(articleIds: seq<string>, data: map<string, Article>, service: Service): seq<Task2Record>
    requires AllSucceed(articleIds, data, service)
  {
    seq(|articleIds|, k requires 0 <= k < |articleIds| => Task2(articleIds[k], ArticleStatus(articleIds[k], data, service).value))
  }

  /** Topic `k` is the first whose article fails, with `error`. */
  predicate FailsFirstAt(articleIds: seq<string>, data: map<string, Article>, service: Service, k: int, error: Failure) {
    0 <= k < |articleIds| && ArticleStatus(articleIds[k], data, service) == Err(error)
    && forall j :: 0 <= j < k ==> ArticleStatus(articleIds[j], data, service).Ok?
  }

  lemma FirstFailure(articleIds: seq<string>, data: map<string, Article>, service: Service, k: nat, error: Failure)
    requires k < |articleIds| && AllSucceed(articleIds[..k], data, service)
    requires ArticleStatus(articleIds[k], data, service) == Err(error)
    ensures FailsFirstAt(articleIds, data, service, k, error)
  {
    forall j | 0 <= j < k ensures ArticleStatus(articleIds[j], data, service).Ok? {
      assert articleIds[..k][j] == articleIds[j];
    }
  }

  /** One more successful topic extends the success, the present ids, the
      task-1 text and the task-2 records by that topic's share. */
  lemma RunStep(articleIds: seq<string>, data: map<string, Article>, service: Service, k: nat)
    requires k < |articleIds| && AllSucceed(articleIds[..k], data, service)
    requires forall id :: id in articleIds[..k] ==> id in data
    requires ArticleStatus(articleIds[k], data, service).Ok?
    ensures AllSucceed(articleIds[..k + 1], data, service)
    ensures forall id :: id in articleIds[..k + 1] ==> id in data
    ensures Terminated(Task1Rows(articleIds[..k + 1], data))
         == Terminated(Task1Rows(articleIds[..k], data)) + Terminated(QuestionRows(articleIds[k], data[articleIds[k]].questions))
    ensures Task2Records(articleIds[..k + 1], data, service)
         == Task2Records(articleIds[..k], data, service) + [Task2(articleIds[k], ArticleStatus(articleIds[k], data, service).value)]
  {
    var before := articleIds[..k];
    var after := articleIds[..k + 1];
    assert after == before + [articleIds[k]];
    assert after[..k] == before;
    TerminatedAppend(Task1Rows(before, data), QuestionRows(articleIds[k], data[articleIds[k]].questions));
  }

  /** produce_run.py:67-112: process the articles in topic order, accumulating the
      task-1 text and the task-2 records; the first failure aborts the run. */
  method ProduceRun(articleIds: seq<string>, data: map<string, Article>, service: Service)
    returns (result: Result<RunOutput, Failure>)
    ensures result.Ok? <==> AllSucceed(articleIds, data, service)
    ensures result.Err? ==> exists k :: FailsFirstAt(articleIds, data, service, k, result.error)
    ensures result.Ok? ==>
      (forall id :: id in articleIds ==> id in data)
      && result.value.task1 == Strip(Terminated(Task1Rows(articleIds, data)))
      && result.value.task2 == Task2Records(articleIds, data, service)
  {
    var task1: string := "";
    var task2: seq<Task2Record> := [];
    for k := 0 to |articleIds|
      invariant AllSucceed(articleIds[..k], data, service)
      invariant forall id :: id in articleIds[..k] ==> id in data
      invariant task1 == Terminated(Task1Rows(articleIds[..k], data))
      invariant task2 == Task2Records(articleIds[..k], data, service)
    {
      var responses;
      task1, responses := ProcessArticle(task1, articleIds[k], data, service);
      if responses.Err? {
        result := Err(responses.error);
        FirstFailure(articleIds, data, service, k, result.error);
        return;
      }
      RunStep(articleIds, data, service, k);
      task2 := task2 + [Task2(articleIds[k], responses.value)];
    }
    assert articleIds[..|articleIds|] == articleIds;
    result := Ok(RunOutput(Strip(task1), task2));
  }
}
