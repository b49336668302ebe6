/**
 * Ingredient recognition from an image: the agent is asked, up to `maxRetries` times in
 * sequence, for an array of ingredients; the first reply from which an array can be cut
 * and evaluated wins, and each of its records is stamped with a fresh id, timestamps and
 * the status "active". A failed attempt that is not the last is followed by a pause of
 * `1000 * attempt` milliseconds; when every attempt fails the last error is raised.
 */
module ImageLlm {
  import opened Wrappers
  import opened Strings
  import opened JsValues
  import opened AgentStream

  /** The first position of `c` in `s`. */
  function FirstIndexOf(s: string, c: char): (r: Option<nat>)
    ensures r.None? ==> forall k :: 0 <= k < |s| ==> s[k] != c
    ensures r.Some? ==> r.value < |s| && s[r.value] == c && forall k :: 0 <= k < r.value ==> s[k] != c
  {
    if s == [] then None
    else if s[0] == c then Some(0)
    else
      match FirstIndexOf(s[1..], c)
      case None => None
      case Some(i) => Some(i + 1)
  }

  /** The last position of `c` in `s`. */
  function LastIndexOf(s: string, c: char): (r: Option<nat>)
    ensures r.None? ==> forall k :: 0 <= k < |s| ==> s[k] != c
    ensures r.Some? ==> r.value < |s| && s[r.value] == c && forall k :: r.value < k < |s| ==> s[k] != c
  {
    if s == [] then None
    else if s[|s| - 1] == c then Some(|s| - 1)
    else LastIndexOf(s[..|s| - 1], c)
  }

  /** Some `[` comes before some `]` in the text. */
  ghost predicate HasBracketPair(text: string)
  {
    exists i, j :: 0 <= i < j < |text| && text[i] == '[' && text[j] == ']'
  }

  /**
   * Where the pattern `\[[\s\S]*\]` matches: from the first `[` to the last `]`, both
   * included. There is a match exactly when some `[` precedes some `]`.
   */
  function ArrayBounds(text: string): (r: Option<(nat, nat)>)
    ensures r.Some? <==> HasBracketPair(text)
    ensures r.Some? ==> var (i, j) := r.value;
              && i < j < |text| && text[i] == '[' && text[j] == ']'
              && (forall k :: 0 <= k < i ==> text[k] != '[')
              && (forall k :: j < k < |text| ==> text[k] != ']')
  {
    var first := FirstIndexOf(text, '[');
    var last := LastIndexOf(text, ']');
    if first.Some? && last.Some? && first.value < last.value then Some((first.value, last.value))
    else None
  }

  /** The matched text: the greedy span from the first `[` to the last `]`. */
  function ArraySpan(text: string): (r: Option<string>)
    ensures r.None? <==> !HasBracketPair(text)
    ensures r.Some? ==> |r.value| >= 2 && r.value[0] == '[' && r.value[|r.value| - 1] == ']'
    ensures r.Some? ==> var (i, j) := ArrayBounds(text).value; r.value == text[i..j + 1]
  {
    match ArrayBounds(text)
    case None => None
    case Some((i, j)) => Some(text[i..j + 1])
  }

  /**
   * What evaluating the span can give: an array (its elements taken as plain objects),
   * `null`, or any other value.
   */
  datatype Evaluated = ArrayValue(items: seq<Record>) | NullValue | OtherValue

  /** Evaluation of a span as JavaScript, which the model does not see; `None` when it throws. */
  type Evaluator = string -> Option<Evaluated>

  /**
   * `parseResponseAsArray`: the evaluated span, or `None` (JavaScript `null`) when there
   * is no span, when evaluation throws, or when it yields `null`. It never raises.
   */
  function ParseResponseAsArray(text: string, eval: Evaluator): (r: Option<Evaluated>)
    ensures r.Some? <==> ArraySpan(text).Some? && eval(ArraySpan(text).value).Some?
                         && !eval(ArraySpan(text).value).value.NullValue?
    ensures r.Some? ==> r == eval(ArraySpan(text).value)
  {
    match ArraySpan(text)
    case None => None
    case Some(span) =>
      match eval(span)
      case None => None
      case Some(NullValue) => None
      case Some(v) => Some(v)
  }

  /** A reply with no `[`, or with no `]`, parses to null whatever the evaluator. */
  lemma ParseOfPlainText(text: string, eval: Evaluator)
    requires (forall k :: 0 <= k < |text| ==> text[k] != '[') || (forall k :: 0 <= k < |text| ==> text[k] != ']')
    ensures ParseResponseAsArray(text, eval).None?
  {
    assert !HasBracketPair(text);
  }

  /**
   * The span is greedy: every `[` that precedes some `]` lies inside it, from its first
   * `[` to its last `]`, across whatever brackets come between.
   */
  lemma SpanIsGreedy(text: string, a: nat, b: nat)
    requires a < b < |text| && text[a] == '[' && text[b] == ']'
    ensures ArrayBounds(text).Some?
    ensures var (i, j) := ArrayBounds(text).value;
            && i <= a && b <= j
            && ArraySpan(text) == Some(text[i..j + 1])
            && text[a..b + 1] == ArraySpan(text).value[a - i..b - i + 1]
  {
    assert HasBracketPair(text);
  }

  /** When every `]` comes before every `[`, there is no span. */
  lemma ClosingBeforeOpeningHasNoSpan(text: string)
    requires forall k, m :: 0 <= k < |text| && 0 <= m < |text| && text[k] == ']' && text[m] == '[' ==> k < m
    ensures ArraySpan(text).None?
  {
  }

  /** The fields every returned record is given, over whatever it held. */
  function Stamp(id: string, now: int): Record
  {
    map["id" := JStr(id), "createdAt" := JDate(now), "updatedAt" := JDate(now), "status" := JStr("active")]
  }

  predicate IsStampKey(k: string)
  {
    k == "id" || k == "createdAt" || k == "updatedAt" || k == "status"
  }

  /** One parsed record with the stamp applied: the stamp's four fields win, the rest is kept. */
  function Stamped(item: Record, id: string, now: int): (r: Record)
    ensures r.Keys == item.Keys + {"id", "createdAt", "updatedAt", "status"}
    ensures r["id"] == JStr(id) && r["status"] == JStr("active")
    ensures r["createdAt"] == JDate(now) && r["updatedAt"] == JDate(now)
    ensures forall k :: k in item && !IsStampKey(k) ==> r[k] == item[k]
  {
    item + Stamp(id, now)
  }

  /**
   * The returned records: each parsed record with a fresh id (the `i`-th id the
   * environment supplies), the current time as `createdAt` and `updatedAt`, and status
   * "active", replacing any fields of those names; every other field is kept.
   */
  function Enrich(items: seq<Record>, ids: nat -> string, now: int): (r: seq<Record>)
    ensures |r| == |items|
    ensures forall i :: 0 <= i < |r| ==> r[i] == Stamped(items[i], ids(i), now)
    ensures forall i :: 0 <= i < |r| ==>
              && r[i].Keys == items[i].Keys + {"id", "createdAt", "updatedAt", "status"}
              && r[i]["id"] == JStr(ids(i)) && r[i]["status"] == JStr("active")
              && r[i]["createdAt"] == JDate(now) && r[i]["updatedAt"] == JDate(now)
    ensures forall i, k :: 0 <= i < |r| && k in items[i] && !IsStampKey(k) ==> r[i][k] == items[i][k]
  {
    seq(|items|, i requires 0 <= i < |items| => Stamped(items[i], ids(i), now))
  }

  /** With distinct ids from the environment, the returned records have distinct ids. */
  lemma EnrichIdsDistinct(items: seq<Record>, ids: nat -> string, now: int)
    requires forall i, j :: 0 <= i < j < |items| ==> ids(i) != ids(j)
    ensures var r := Enrich(items, ids, now);
            forall i, j :: 0 <= i < j < |r| ==> r[i]["id"] != r[j]["id"]
  {
  }

  /** Why one attempt failed. */
  datatype AttemptError =
    | AgentFailed(cause: string)   // sending or streaming failed
    | ParseFailed                  // no array could be cut out and evaluated
    | MapFailed                    // the evaluated value is not an array, so mapping it throws

  /** What the pipeline raises when it gives up. */
  datatype Raised =
    | LastError(error: AttemptError)
    | AllAttemptsFailed            // no attempt was made at all

  /** Everything one pipeline call works with besides the attempt counter. */
  datatype Call = Call(
    prompt: string,
    image: string,
    agent: Agent,
    eval: Evaluator,
    ids: nat -> string,
    now: int)

  /** The invocation attempt `a` sends; its session is the attempt number. */
  function AttemptInvocation(c: Call, a: int): (inv: Invocation)
    ensures inv.inputText == c.prompt && inv.image == Some(c.image) && inv.session == a
  {
    Invocation(a, c.prompt, Some(c.image))
  }

  /** The outcome of attempt `a`: the stamped records, or why it failed. */
  function Attempt(c: Call, a: int): (r: Result<seq<Record>, AttemptError>)
    ensures r.Success? <==> ReplyText(c.agent(AttemptInvocation(c, a))).Success?
                            && ParseResponseAsArray(ReplyText(c.agent(AttemptInvocation(c, a))).value, c.eval).Some?
                            && ParseResponseAsArray(ReplyText(c.agent(AttemptInvocation(c, a))).value, c.eval).value.ArrayValue?
    ensures r.Success? ==>
              r.value == Enrich(ParseResponseAsArray(ReplyText(c.agent(AttemptInvocation(c, a))).value, c.eval).value.items,
                                c.ids, c.now)
    ensures ReplyText(c.agent(AttemptInvocation(c, a))).Failure? ==>
              r == Failure(AgentFailed(ReplyText(c.agent(AttemptInvocation(c, a))).error))
    ensures ReplyText(c.agent(AttemptInvocation(c, a))).Success? ==>
              var parsed := ParseResponseAsArray(ReplyText(c.agent(AttemptInvocation(c, a))).value, c.eval);
              && (parsed.None? ==> r == Failure(ParseFailed))
              && (parsed.Some? && !parsed.value.ArrayValue? ==> r == Failure(MapFailed))
  {
    match ReplyText(c.agent(AttemptInvocation(c, a)))
    case Failure(cause) => Failure(AgentFailed(cause))
    case Success(text) =>
      match ParseResponseAsArray(text, c.eval)
      case None => Failure(ParseFailed)
      case Some(ArrayValue(items)) => Success(Enrich(items, c.ids, c.now))
      case Some(_) => Failure(MapFailed)
  }

  /** A record of one pipeline run: its outcome, the invocations sent, and the pauses taken. */
  datatype Run = Run(outcome: Result<seq<Record>, Raised>, attempts: seq<Invocation>, delays: seq<int>)

  /** The outcome of each attempt, as one function of the attempt number. */
  type Outcomes = int -> Result<seq<Record>, AttemptError>

  function AttemptOutcomes(c: Call): Outcomes
  {
    a => Attempt(c, a)
  }

  /**
   * The run from attempt `a` on, with `last` the error of the previous attempt: attempt
   * `a` is made while `a <= maxRetries`; success ends the run, failure records the error
   * and, when another attempt remains, a pause of `1000 * a` before it.
   */
  function RunFrom(c: Call, outcomes: Outcomes, a: int, maxRetries: int, last: Option<AttemptError>): Run
    requires a >= 1
    decreases maxRetries - a + 1
  {
    if a > maxRetries then
      Run(Failure(if last.Some? then LastError(last.value) else AllAttemptsFailed), [], [])
    else
      var outcome := outcomes(a);
      if outcome.Success? then Run(Success(outcome.value), [AttemptInvocation(c, a)], [])
      else
        var rest := RunFrom(c, outcomes, a + 1, maxRetries, Some(outcome.error));
        var pause := if a < maxRetries then [1000 * a] else [];
        Run(rest.outcome, [AttemptInvocation(c, a)] + rest.attempts, pause + rest.delays)
  }

  /** The whole pipeline: attempts from 1, no error yet. */
  function Pipeline(c: Call, maxRetries: int): Run
  {
    RunFrom(c, AttemptOutcomes(c), 1, maxRetries, None)
  }

  /** `count` pauses, growing by 1000 from `1000 * from`. */
  function Backoff(from: int, count: nat): (ds: seq<int>)
    ensures |ds| == count
    ensures forall i :: 0 <= i < count ==> ds[i] == 1000 * (from + i)
  {
    seq(count, i requires 0 <= i < count => 1000 * (from + i))
  }

  /** How many attempts a run from `a` can make at most. */
  function Remaining(a: int, maxRetries: int): nat
  {
    if maxRetries >= a then maxRetries - a + 1 else 0
  }

  /** A run from `a` makes at most `Remaining` attempts, numbered consecutively from `a`. */
  lemma {:induction false} RunAttempts(c: Call, outcomes: Outcomes, a: int, maxRetries: int, last: Option<AttemptError>)
    requires a >= 1
    ensures var r := RunFrom(c, outcomes, a, maxRetries, last);
            && |r.attempts| <= Remaining(a, maxRetries)
            && (a <= maxRetries ==> |r.attempts| >= 1)
            && forall i :: 0 <= i < |r.attempts| ==> r.attempts[i] == AttemptInvocation(c, a + i)
    decreases maxRetries - a + 1
  {
    if a <= maxRetries && outcomes(a).Failure? {
      var rest := RunFrom(c, outcomes, a + 1, maxRetries, Some(outcomes(a).error));
      RunAttempts(c, outcomes, a + 1, maxRetries, Some(outcomes(a).error));
      var r := RunFrom(c, outcomes, a, maxRetries, last);
      assert r.attempts == [AttemptInvocation(c, a)] + rest.attempts;
      forall i | 0 <= i < |r.attempts|
        ensures r.attempts[i] == AttemptInvocation(c, a + i)
      {
        if i > 0 {
          assert r.attempts[i] == rest.attempts[i - 1];
        }
      }
    }
  }

  /** A run from `a` pauses one time fewer than it attempts, for 1000 * a, 1000 * (a + 1), .... */
  lemma {:induction false} RunDelays(c: Call, outcomes: Outcomes, a: int, maxRetries: int, last: Option<AttemptError>)
    requires a >= 1
    ensures var r := RunFrom(c, outcomes, a, maxRetries, last);
            r.delays == Backoff(a, if |r.attempts| == 0 then 0 else |r.attempts| - 1)
    decreases maxRetries - a + 1
  {
    if a <= maxRetries && outcomes(a).Failure? {
      var rest := RunFrom(c, outcomes, a + 1, maxRetries, Some(outcomes(a).error));
      RunDelays(c, outcomes, a + 1, maxRetries, Some(outcomes(a).error));
      if a < maxRetries {
        RunAttempts(c, outcomes, a + 1, maxRetries, Some(outcomes(a).error));
        assert [1000 * a] + Backoff(a + 1, |rest.attempts| - 1) == Backoff(a, |rest.attempts|);
      }
    }
  }

  /** In a run from `a`, every attempt but the last one made failed. */
  lemma {:induction false} RunFailuresBeforeLast(c: Call, outcomes: Outcomes, a: int, maxRetries: int, last: Option<AttemptError>)
    requires a >= 1
    ensures var r := RunFrom(c, outcomes, a, maxRetries, last);
            forall b :: a <= b < a + |r.attempts| - 1 ==> outcomes(b).Failure?
    decreases maxRetries - a + 1
  {
    if a <= maxRetries && outcomes(a).Failure? {
      RunFailuresBeforeLast(c, outcomes, a + 1, maxRetries, Some(outcomes(a).error));
    }
  }

  /** A successful run returns the records of its last attempt, which succeeded. */
  lemma {:induction false} RunSuccess(c: Call, outcomes: Outcomes, a: int, maxRetries: int, last: Option<AttemptError>)
    requires a >= 1
    ensures var r := RunFrom(c, outcomes, a, maxRetries, last);
            r.outcome.Success? ==>
              |r.attempts| >= 1 && outcomes(a + |r.attempts| - 1) == Success(r.outcome.value)
    decreases maxRetries - a + 1
  {
    if a <= maxRetries && outcomes(a).Failure? {
      RunSuccess(c, outcomes, a + 1, maxRetries, Some(outcomes(a).error));
    }
  }

  /**
   * A failed run made every remaining attempt and each failed; it raises the error of
   * the final attempt, or, when no attempt was left, the error it started with.
   */
  lemma {:induction false} RunFailure(c: Call, outcomes: Outcomes, a: int, maxRetries: int, last: Option<AttemptError>)
    requires a >= 1
    ensures var r := RunFrom(c, outcomes, a, maxRetries, last);
            r.outcome.Failure? ==>
              && |r.attempts| == Remaining(a, maxRetries)
              && (forall b :: a <= b <= maxRetries ==> outcomes(b).Failure?)
              && (a > maxRetries ==>
                    r.outcome.error == (if last.Some? then LastError(last.value) else AllAttemptsFailed))
              && (a <= maxRetries ==>
                    outcomes(maxRetries).Failure? && r.outcome.error == LastError(outcomes(maxRetries).error))
    decreases maxRetries - a + 1
  {
    if a <= maxRetries && outcomes(a).Failure? {
      RunFailure(c, outcomes, a + 1, maxRetries, Some(outcomes(a).error));
    }
  }

  /** A run never makes more than `maxRetries` attempts, and makes them in order from 1. */
  lemma AttemptsBounded(c: Call, maxRetries: int)
    ensures var r := Pipeline(c, maxRetries);
            && |r.attempts| <= (if maxRetries > 0 then maxRetries else 0)
            && forall i :: 0 <= i < |r.attempts| ==> r.attempts[i].session == i + 1
  {
    RunAttempts(c, AttemptOutcomes(c), 1, maxRetries, None);
  }

  /**
   * If attempt `k` is the first that succeeds, exactly `k` attempts are made, its records
   * are returned, and the pauses were 1000, 2000, ..., 1000 * (k - 1).
   */
  lemma FirstSuccessWins(c: Call, outcomes: Outcomes, maxRetries: int, k: int)
    requires 1 <= k <= maxRetries
    requires forall b :: 1 <= b < k ==> outcomes(b).Failure?
    requires outcomes(k).Success?
    ensures var r := RunFrom(c, outcomes, 1, maxRetries, None);
            && r.outcome == Success(outcomes(k).value)
            && |r.attempts| == k
            && r.delays == Backoff(1, k - 1)
  {
    RunFailure(c, outcomes, 1, maxRetries, None);
    RunSuccess(c, outcomes, 1, maxRetries, None);
    RunFailuresBeforeLast(c, outcomes, 1, maxRetries, None);
    RunDelays(c, outcomes, 1, maxRetries, None);
  }

  /**
   * If every attempt fails, all `maxRetries` are made, the pauses were 1000, ...,
   * 1000 * (maxRetries - 1) with none after the last attempt, and the last attempt's
   * error is raised.
   */
  lemma AllAttemptsFail(c: Call, outcomes: Outcomes, maxRetries: int)
    requires maxRetries >= 1
    requires forall b :: 1 <= b <= maxRetries ==> outcomes(b).Failure?
    ensures var r := RunFrom(c, outcomes, 1, maxRetries, None);
            && r.outcome == Failure(LastError(outcomes(maxRetries).error))
            && |r.attempts| == maxRetries
            && r.delays == Backoff(1, maxRetries - 1)
  {
    RunFailure(c, outcomes, 1, maxRetries, None);
    RunSuccess(c, outcomes, 1, maxRetries, None);
    RunDelays(c, outcomes, 1, maxRetries, None);
    RunAttempts(c, outcomes, 1, maxRetries, None);
  }

  /**
   * Whatever attempt succeeds, the pipeline's records are stamped: the i-th carries the
   * i-th supplied id, the status `active` and the clock reading as both dates, besides the
   * fields the model produced.
   */
  lemma PipelineRecordsStamped(c: Call, maxRetries: int)
    ensures var r := Pipeline(c, maxRetries);
            r.outcome.Success? ==>
              forall i :: 0 <= i < |r.outcome.value| ==>
                && {"id", "createdAt", "updatedAt", "status"} <= r.outcome.value[i].Keys
                && r.outcome.value[i]["id"] == JStr(c.ids(i))
                && r.outcome.value[i]["status"] == JStr("active")
                && r.outcome.value[i]["createdAt"] == JDate(c.now)
                && r.outcome.value[i]["updatedAt"] == JDate(c.now)
  {
    var r := Pipeline(c, maxRetries);
    RunSuccess(c, AttemptOutcomes(c), 1, maxRetries, None);
    if r.outcome.Success? {
      assert Attempt(c, |r.attempts|) == Success(r.outcome.value);
    }
  }

  /** With no attempt allowed, nothing is sent and the generic error is raised. */
  lemma NoAttemptAllowed(c: Call, maxRetries: int)
    requires maxRetries <= 0
    ensures Pipeline(c, maxRetries) == Run(Failure(AllAttemptsFailed), [], [])
  {
  }

  /** The pipeline returns records exactly when one of its attempts succeeds. */
  lemma SucceedsIffSomeAttemptSucceeds(c: Call, outcomes: Outcomes, maxRetries: int)
    ensures RunFrom(c, outcomes, 1, maxRetries, None).outcome.Success? <==>
              exists k :: 1 <= k <= maxRetries && outcomes(k).Success?
  {
    RunFailure(c, outcomes, 1, maxRetries, None);
    RunSuccess(c, outcomes, 1, maxRetries, None);
    RunAttempts(c, outcomes, 1, maxRetries, None);
  }

  /** The pauses strictly increase, and there is one fewer than there are attempts. */
  lemma DelaysIncrease(c: Call, outcomes: Outcomes, maxRetries: int)
    ensures var r := RunFrom(c, outcomes, 1, maxRetries, None);
            && |r.delays| == (if |r.attempts| == 0 then 0 else |r.attempts| - 1)
            && forall i, j :: 0 <= i < j < |r.delays| ==> r.delays[i] < r.delays[j]
  {
    RunDelays(c, outcomes, 1, maxRetries, None);
  }

  /** Prefixing a run with attempts already made and pauses already taken. */
  function Prepend(attempts: seq<Invocation>, delays: seq<int>, r: Run): Run
  {
    Run(r.outcome, attempts + r.attempts, delays + r.delays)
  }

  /** A failed attempt moves its invocation and its pause from the run to the prefix. */
  lemma PrependFailedAttempt(c: Call, outcomes: Outcomes, a: int, maxRetries: int, last: Option<AttemptError>,
                             attempts: seq<Invocation>, delays: seq<int>)
    requires 1 <= a <= maxRetries && outcomes(a).Failure?
    ensures Prepend(attempts, delays, RunFrom(c, outcomes, a, maxRetries, last)) ==
            Prepend(attempts + [AttemptInvocation(c, a)], delays + (if a < maxRetries then [1000 * a] else []),
                    RunFrom(c, outcomes, a + 1, maxRetries, Some(outcomes(a).error)))
  {
    var rest := RunFrom(c, outcomes, a + 1, maxRetries, Some(outcomes(a).error));
    var pause := if a < maxRetries then [1000 * a] else [];
    assert attempts + ([AttemptInvocation(c, a)] + rest.attempts) == (attempts + [AttemptInvocation(c, a)]) + rest.attempts;
    assert delays + (pause + rest.delays) == (delays + pause) + rest.delays;
  }

  /**
   * The body of one attempt: invoke the agent with the prompt and the image, read the
   * completion, cut out and evaluate the array, and stamp its records; any failure on
   * the way is caught and becomes the attempt's error.
   */
  method AttemptOnce(c: Call, attempt: int) returns (o: Result<seq<Record>, AttemptError>)
    ensures o == Attempt(c, attempt)
  {
    var reply := ReadReply(c.agent(Invocation(attempt, c.prompt, Some(c.image))));
    if reply.Failure? {
      o := Failure(AgentFailed(reply.error));
    } else {
      var parsed := ParseResponseAsArray(reply.value, c.eval);
      if parsed.None? {
        o := Failure(ParseFailed);
      } else if parsed.value.ArrayValue? {
        o := Success(Enrich(parsed.value.items, c.ids, c.now));
      } else {
        o := Failure(MapFailed);
      }
    }
  }

  /**
   * `callLLMwithImage`: the retry loop. It returns what it sends and the pauses it
   * takes, and is exactly the pipeline run.
   */
  method CallLLMWithImage(c: Call, maxRetries: int)
    returns (outcome: Result<seq<Record>, Raised>, attempts: seq<Invocation>, delays: seq<int>)
    ensures Run(outcome, attempts, delays) == Pipeline(c, maxRetries)
  {
    var lastError: Option<AttemptError> := None;
    attempts := [];
    delays := [];
    var attempt := 1;
    while attempt <= maxRetries
      invariant attempt >= 1
      invariant Pipeline(c, maxRetries) == Prepend(attempts, delays, RunFrom(c, AttemptOutcomes(c), attempt, maxRetries, lastError))
      decreases maxRetries - attempt + 1
    {
      var o := AttemptOnce(c, attempt);
      assert AttemptOutcomes(c)(attempt) == o;
      attempts := attempts + [AttemptInvocation(c, attempt)];
      if o.Success? {
        outcome := Success(o.value);
        return;
      }
      PrependFailedAttempt(c, AttemptOutcomes(c), attempt, maxRetries, lastError, attempts[..|attempts| - 1], delays);
      lastError := Some(o.error);
      if attempt < maxRetries {
        delays := delays + [1000 * attempt];
      }
      attempt := attempt + 1;
    }
    outcome := Failure(if lastError.Some? then LastError(lastError.value) else AllAttemptsFailed);
    assert attempts + [] == attempts && delays + [] == delays;
  }

  /** The instructions sent with every image. */
  const BasePrompt: string :=
    "\n"
    + "あなたは食材画像認識AIです。あなたのタスクは画像に写っている食材をすべて列挙することです。食材のみを挙げてください。 レスポンスは以下のIngredient型の配列で返してください。\n"
    + "```typescript\n"
    + "export type Unit = '個' | 'g' | 'ml' | '束' | '本' | '枚' | 'パック';\n"
    + "\n"
    + "export type IngredientCategory =\n"
    + "  | '野菜'\n"
    + "  | '果物'\n"
    + "  | '肉'\n"
    + "  | '魚'\n"
    + "  | '卵'\n"
    + "  | '冷凍食品'\n"
    + "  | 'その他';\n"
    + "\n"
    + "export interface Ingredient {\n"
    + "  name: string; // 食材の名称\n"
    + "  quantity: number; // 数量（単位は別途 unit で管理）\n"
    + "  unit: Unit; // 数量の単位（例: 個、g、ml など）\n"
    + "  expirationDate: Date; // 賞味期限（もし認識できない場合、一般的な期間を考えて推測してください。本日は2025/03/23です。）\n"
    + "  category: IngredientCategory;\n"
    + "  notes?: string; // メモ\n"
    + "}\n"
    + "```\n"
    + "例） [ { name: '玉ねぎ', quantity: 2, unit: '個', expirationDate: new Date(2025, 3, 30), category: '野菜', notes: '常温保存' }, { name: 'にんじん', quantity: 3, unit: '本', expirationDate: new Date(2025, 3, 30), category: '野菜' }, { name: '牛肉', quantity: 300, unit: 'g', expirationDate: new Date(2025, 3, 25), category: '肉', notes: '冷蔵保存' }, { name: '鶏もも肉', quantity: 500, unit: 'g', expirationDate: new Date(2025, 3, 26), category: '肉' }, { name: '卵', quantity: 6, unit: '個', expirationDate: new Date(2025, 4, 6), category: '卵' }]\n"
    + "\n"
    + "なお、食材以外の内容を返す必要はありません。必ず配列のみを返してください。また、食材が写っていない場合は空の配列を返してください。\n"

  /** The prompt: the base prompt, followed by a blank line and the additional text when that is not empty. */
  function ImagePrompt(additional: Option<string>): (p: string)
    ensures |p| >= |BasePrompt| && p[..|BasePrompt|] == BasePrompt
    ensures additional.None? || additional.value == "" ==> p == BasePrompt
    ensures additional.Some? && additional.value != "" ==> p[|BasePrompt|..] == "\n\n" + additional.value
  {
    if additional.Some? && additional.value != "" then BasePrompt + "\n\n" + additional.value else BasePrompt
  }

  /** The default number of attempts. */
  const DefaultMaxRetries: int := 3

  /** `generateIngredientsFromImage`: the pipeline with the composed prompt and three attempts. */
  method GenerateIngredientsFromImage(image: string, additional: Option<string>, agent: Agent,
                                      eval: Evaluator, ids: nat -> string, now: int)
    returns (outcome: Result<seq<Record>, Raised>, attempts: seq<Invocation>, delays: seq<int>)
    ensures Run(outcome, attempts, delays) == Pipeline(Call(ImagePrompt(additional), image, agent, eval, ids, now), DefaultMaxRetries)
    ensures 1 <= |attempts| <= 3 && |delays| == |attempts| - 1
    ensures forall i :: 0 <= i < |delays| ==> delays[i] == 1000 * (i + 1)
  {
    var c := Call(ImagePrompt(additional), image, agent, eval, ids, now);
    outcome, attempts, delays := CallLLMWithImage(c, DefaultMaxRetries);
    RunAttempts(c, AttemptOutcomes(c), 1, DefaultMaxRetries, None);
    RunDelays(c, AttemptOutcomes(c), 1, DefaultMaxRetries, None);
  }
}
