/** The report shortener: the removal demand that `shorten_report` writes into
    its instruction, and the loop that calls the shortener at most five times
    while a report is over its word budget. The language model itself is an
    oracle, `Service`. */
module Shortener {
  import opened Outcome
  import opened Text

  /** The hard word budget of a report. */
  const Budget: nat := 250
  /** `target_words`: the count the instruction aims for, below the budget. */
  const TargetWords: nat := 240
  /** The least removal every instruction demands. */
  const MinRemoval: nat := 20
  /** `range(5)`: the most shortening attempts per article. */
  const MaxAttempts: nat := 5

  /** `words_to_remove = max(word_count - target_words, 20)`. */
  function WordsToRemove(wordCount: int): (r: int)
    ensures r >= MinRemoval && r >= wordCount - TargetWords
    ensures r == MinRemoval || r == wordCount - TargetWords
  {
    if wordCount - TargetWords > MinRemoval then wordCount - TargetWords else MinRemoval
  }

  /** Over budget, the demand never reaches the whole report, and meeting it
      brings the report to the target or below. */
  lemma RemovalFitsReport(wordCount: int)
    requires wordCount > Budget
    ensures 0 < WordsToRemove(wordCount) < wordCount
    ensures wordCount - WordsToRemove(wordCount) <= TargetWords
  {
  }

  /** What one call of `shorten_report` gives the language model: the current
      sentences (sent as their JSON rendering), and the current word count, the
      removal demand and the target that the instruction states. */
  datatype ShortenRequest = ShortenRequest(
    sentences: seq<string>,
    wordCount: nat,
    wordsToRemove: int,
    targetWords: nat)

  function Request(sentences: seq<string>, wordCount: nat): ShortenRequest {
    ShortenRequest(sentences, wordCount, WordsToRemove(wordCount), TargetWords)
  }

  /** The language model behind `shorten_report`. Given the attempt number
      (the loop's 0-based `i`) and the request, it yields the parsed sentence
      list, or None when the reply did not parse into a sentence list. */
  type Service = (nat, ShortenRequest) -> Option<seq<string>>

  /** The state the loop ends in: the final sentences and their word count,
      and the requests sent on the way, one per call. */
  datatype Shortened = Shortened(sentences: seq<string>, wordCount: nat, requests: seq<ShortenRequest>)

  function Prefixed(requests: seq<ShortenRequest>, r: Result<Shortened, Failure>): Result<Shortened, Failure> {
    match r
    case Ok(s) => Ok(s.(requests := requests + s.requests))
    case Err(e) => Err(e)
  }

  /** The loop of the per-article body from attempt `i` on, with current
      sentences `s` and current count `wc`: stop when the attempts are used up
      or the count is within budget, otherwise call the service and go on with
      its reply and the reply's recomputed count. */
  function Shorten(s: seq<string>, wc: nat, i: nat, service: Service): Result<Shortened, Failure>
    decreases MaxAttempts - i
  {
    if i >= MaxAttempts || wc <= Budget then Ok(Shortened(s, wc, []))
    else
      var request := Request(s, wc);
      match service(i, request)
      case None => Err(MalformedReply(i))
      case Some(reply) => Prefixed([request], Shorten(reply, ReportWordCount(reply), i + 1, service))
  }

  lemma PrefixedNone(r: Result<Shortened, Failure>)
    ensures Prefixed([], r) == r
  {
    if r.Ok? {
      assert [] + r.value.requests == r.value.requests;
    }
  }

  lemma PrefixedTwice(a: seq<ShortenRequest>, b: seq<ShortenRequest>, r: Result<Shortened, Failure>)
    ensures Prefixed(a, Prefixed(b, r)) == Prefixed(a + b, r)
  {
    if r.Ok? {
      assert a + (b + r.value.requests) == (a + b) + r.value.requests;
    }
  }

  /** Calls are bounded by the attempts left; the loop ends within budget or
      with every attempt used (which is accepted, not a failure); a start over
      budget makes at least one call; and a failure names an attempt that was
      made. */
  lemma {:induction false} ShortenBounds(s: seq<string>, wc: nat, i: nat, service: Service)
    requires i <= MaxAttempts
    ensures var res := Shorten(s, wc, i, service);
      res.Ok? ==>
        |res.value.requests| <= MaxAttempts - i
        && (res.value.wordCount <= Budget || |res.value.requests| == MaxAttempts - i)
        && (wc > Budget && i < MaxAttempts ==> |res.value.requests| >= 1)
    ensures var res := Shorten(s, wc, i, service);
      res.Err? ==>
        wc > Budget && res.error.MalformedReply? && i <= res.error.attempt < MaxAttempts
    decreases MaxAttempts - i
  {
    if i < MaxAttempts && wc > Budget {
      var request := Request(s, wc);
      match service(i, request)
      case None =>
      case Some(reply) =>
        ShortenBounds(reply, ReportWordCount(reply), i + 1, service);
    }
  }

  /** The number of service calls a loop outcome records: one per request on
      success, and every attempt up to the failing one on failure. */
  function CallCount(r: Result<Shortened, Failure>): nat {
    match r
    case Ok(s) => |s.requests|
    case Err(MalformedReply(attempt)) => attempt + 1
    case Err(_) => 0
  }

  /** The loop calls the service at most `MaxAttempts` times, and not at all
      exactly when the report starts within budget. */
  lemma ShortenCalls(s: seq<string>, wc: nat, service: Service)
    ensures CallCount(Shorten(s, wc, 0, service)) <= MaxAttempts
    ensures wc <= Budget <==> CallCount(Shorten(s, wc, 0, service)) == 0
    ensures Shorten(s, wc, 0, service).Err? ==>
      Shorten(s, wc, 0, service).error == MalformedReply(CallCount(Shorten(s, wc, 0, service)) - 1)
  {
    ShortenBounds(s, wc, 0, service);
  }

  /** One call of the trace: `request` carries its sentences' true word
      count, which is over budget, demands `WordsToRemove` of it toward
      `TargetWords`, and the service, asked at attempt `attempt`, replied with
      `reply`. */
  predicate IsCall(service: Service, attempt: nat, request: ShortenRequest, reply: seq<string>) {
    request.wordCount == ReportWordCount(request.sentences) && request.wordCount > Budget
    && request.wordsToRemove == WordsToRemove(request.wordCount) && request.targetWords == TargetWords
    && service(attempt, request) == Some(reply)
  }

  /** The reply to request `k` of `requests`: the next request's sentences,
      or the final sentences after the last one. */
  function ReplyTo(requests: seq<ShortenRequest>, k: nat, final: seq<string>): seq<string> {
    if k + 1 < |requests| then requests[k + 1].sentences else final
  }

  /** The trace a run of the loop from attempt `i` on, starting from sentences
      `s` with count `wc`, leaves in `r`: the final count is the true count of
      the final sentences; without calls nothing changed; the first request
      carries `s`; and request `k` is call `i + k`, over budget, whose reply
      is the next request's sentences or the final ones. */
  predicate IsTrace(s: seq<string>, wc: nat, i: nat, service: Service, r: Shortened) {
    var q := r.requests;
    r.wordCount == ReportWordCount(r.sentences)
    && (q == [] ==> r.sentences == s && r.wordCount == wc)
    && (q != [] ==> q[0].sentences == s)
    && forall k :: 0 <= k < |q| ==> IsCall(service, i + k, q[k], ReplyTo(q, k, r.sentences))
  }

  lemma CallOfTrace(s: seq<string>, wc: nat, i: nat, service: Service, r: Shortened, k: nat)
    requires IsTrace(s, wc, i, service, r)
    requires k < |r.requests|
    ensures IsCall(service, i + k, r.requests[k], ReplyTo(r.requests, k, r.sentences))
  {
  }

  lemma CallShifted(first: ShortenRequest, i: nat, service: Service, rest: Shortened, k: nat)
    requires 1 <= k <= |rest.requests|
    requires IsCall(service, (i + 1) + (k - 1), rest.requests[k - 1], ReplyTo(rest.requests, k - 1, rest.sentences))
    ensures IsCall(service, i + k, ([first] + rest.requests)[k], ReplyTo([first] + rest.requests, k, rest.sentences))
  {
    var q := [first] + rest.requests;
    assert q[k] == rest.requests[k - 1];
    assert ReplyTo(q, k, rest.sentences) == ReplyTo(rest.requests, k - 1, rest.sentences);
  }

  lemma TraceStep(s: seq<string>, wc: nat, i: nat, service: Service, reply: seq<string>, rest: Shortened)
    requires wc == ReportWordCount(s) && wc > Budget
    requires service(i, Request(s, wc)) == Some(reply)
    requires IsTrace(reply, ReportWordCount(reply), i + 1, service, rest)
    ensures IsTrace(s, wc, i, service, rest.(requests := [Request(s, wc)] + rest.requests))
  {
    var q := [Request(s, wc)] + rest.requests;
    assert ReplyTo(q, 0, rest.sentences) == reply;
    forall k | 1 <= k < |q|
      ensures IsCall(service, i + k, q[k], ReplyTo(q, k, rest.sentences))
    {
      CallOfTrace(reply, ReportWordCount(reply), i + 1, service, rest, k - 1);
      CallShifted(Request(s, wc), i, service, rest, k);
    }
  }

  /** Whatever the service replies, a completed loop leaves a trace as
      `IsTrace` describes it. */
  lemma {:induction false} ShortenTrace(s: seq<string>, wc: nat, i: nat, service: Service)
    requires wc == ReportWordCount(s)
    ensures Shorten(s, wc, i, service).Ok? ==> IsTrace(s, wc, i, service, Shorten(s, wc, i, service).value)
    decreases MaxAttempts - i
  {
    if i < MaxAttempts && wc > Budget {
      var request := Request(s, wc);
      match service(i, request)
      case None =>
      case Some(reply) =>
        ShortenTrace(reply, ReportWordCount(reply), i + 1, service);
        var rest := Shorten(reply, ReportWordCount(reply), i + 1, service);
        if rest.Ok? {
          TraceStep(s, wc, i, service, reply, rest.value);
        }
    }
  }

  /** The loop's whole outcome `whole` is the requests made so far followed by
      the outcome from attempt `i` on, with current sentences `s` and count
      `wc`. */
  predicate Continues(whole: Result<Shortened, Failure>, requests: seq<ShortenRequest>,
                      s: seq<string>, wc: nat, i: nat, service: Service) {
    whole == Prefixed(requests, Shorten(s, wc, i, service))
  }

  /** One step of `Shorten` that goes on: over budget with attempts left and
      a parsed reply, the loop's outcome is the request followed by the outcome
      from the reply on. */
  lemma ShortenContinues(whole: Result<Shortened, Failure>, requests: seq<ShortenRequest>,
                         s: seq<string>, wc: nat, i: nat, service: Service, reply: seq<string>)
    requires i < MaxAttempts && wc > Budget && service(i, Request(s, wc)) == Some(reply)
    requires Continues(whole, requests, s, wc, i, service)
    ensures Continues(whole, requests + [Request(s, wc)], reply, ReportWordCount(reply), i + 1, service)
  {
    PrefixedTwice(requests, [Request(s, wc)], Shorten(reply, ReportWordCount(reply), i + 1, service));
  }

  /** One step of `Shorten` that fails: over budget with attempts left, an
      unparsable reply ends the loop with a failure naming this attempt. */
  lemma ShortenFails(whole: Result<Shortened, Failure>, requests: seq<ShortenRequest>,
                     s: seq<string>, wc: nat, i: nat, service: Service)
    requires i < MaxAttempts && wc > Budget && service(i, Request(s, wc)).None?
    requires Continues(whole, requests, s, wc, i, service)
    ensures whole == Err(MalformedReply(i))
  {
  }

  /** One step of `Shorten` that stops: within budget or out of attempts, the
      loop's outcome is the requests made so far and the current sentences. */
  lemma ShortenStops(whole: Result<Shortened, Failure>, requests: seq<ShortenRequest>,
                     s: seq<string>, wc: nat, i: nat, service: Service)
    requires i >= MaxAttempts || wc <= Budget
    requires Continues(whole, requests, s, wc, i, service)
    ensures whole == Ok(Shortened(s, wc, requests))
  {
    assert requests + [] == requests;
  }

  /** produce_run.py:82-91: starting from the original sentences and count, call the
      shortener while the count is over budget, for at most `MaxAttempts`
      attempts. `calls` counts the calls made, the one that failed included. */
  method ShortenLoop(sentences: seq<string>, wordCount: nat, service: Service)
    returns (result: Result<Shortened, Failure>, calls: nat)
    ensures result == Shorten(sentences, wordCount, 0, service) && calls == CallCount(result)
    ensures calls <= MaxAttempts
    ensures wordCount <= Budget <==> calls == 0
    ensures result.Ok? ==> calls == |result.value.requests|
    ensures result.Err? ==> calls >= 1 && result.error == MalformedReply(calls - 1)
  {
    var current, currentCount: nat := sentences, wordCount;
    var requests: seq<ShortenRequest> := [];
    calls := 0;
    ghost var whole := Shorten(sentences, wordCount, 0, service);
    PrefixedNone(whole);
    for i := 0 to MaxAttempts
      invariant calls == i == |requests|
      invariant Continues(whole, requests, current, currentCount, i, service)
    {
      if currentCount <= Budget {
        break;
      }
      var request := Request(current, currentCount);
      var reply := service(i, request);
      calls := calls + 1;
      if reply.None? {
        ShortenFails(whole, requests, current, currentCount, i, service);
        result := Err(MalformedReply(i));
        ShortenCalls(sentences, wordCount, service);
        return;
      }
      ShortenContinues(whole, requests, current, currentCount, i, service, reply.value);
      current := reply.value;
      currentCount := ReportWordCount(current);
      requests := requests + [request];
    }
    ShortenStops(whole, requests, current, currentCount, |requests|, service);
    result := Ok(Shortened(current, currentCount, requests));
    ShortenCalls(sentences, wordCount, service);
  }
}
