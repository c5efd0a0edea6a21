/** index.js: the two-hourly update cycle, its retries after failed loads,
    the fallback joke once the retries are spent, and the missed-update
    check at start-up. Timers are steps: a scheduled retry is the next load
    of the same cycle, and every load reports one `FetchOutcome`. */
module Bot {
  import opened Wrappers
  import Util
  import Weather
  import TweetWeather

  /** Added to `retryTimeout` after each scheduled retry, in milliseconds. */
  const RetryStep := 131072
  /** Retries are scheduled while `retryTimeout` is at most this. */
  const RetryBudget := 262144
  /** 2 hours 7 minutes: a larger gap since the last update means one was missed. */
  const GraceWindow := 7620000

  /** What `loadWeather` hands to a cycle: the parsed data (with the draws the
      status message will use and the clock reading when it is handled), an
      array of errors (with the draw of the fallback joke), or an argument
      that is not an array. */
  datatype FetchOutcome =
    | Loaded(data: Weather.Payload, draws: Weather.Draws, at: int)
    | FailedWithErrors(errors: seq<string>, fallbackDraw: real)
    | FailedWithNonArray

  predicate OutcomeValid(o: FetchOutcome) {
    match o
    case Loaded(_, draws, _) => draws.Valid()
    case FailedWithErrors(_, draw) => Util.IsDraw(draw)
    case FailedWithNonArray => true
  }

  predicate OutcomesValid(outcomes: seq<FetchOutcome>) {
    forall i :: 0 <= i < |outcomes| ==> OutcomeValid(outcomes[i])
  }

  /** What `onFailLoadWeather` does with a failure. */
  datatype FailureDecision =
    | Retry(delay: int, retryNumber: int)
    | SendFallback
    | Reject

  /** The decision for a failure reported while `retryTimeout` holds the
      given value: an array of errors is retried after `retryTimeout`
      milliseconds while the budget allows, announced as retry
      `retryTimeout / 131072 + 1`; past the budget the fallback joke is
      sent; anything but an array is only logged. */
  function Decide(retryTimeout: int, isArray: bool): (d: FailureDecision)
    ensures d.Retry? <==> isArray && retryTimeout <= RetryBudget
    ensures d.SendFallback? <==> isArray && retryTimeout > RetryBudget
    ensures d.Retry? ==> d.delay == retryTimeout
  {
    if !isArray then Reject
    else if retryTimeout <= RetryBudget then Retry(retryTimeout, retryTimeout / RetryStep + 1)
    else SendFallback
  }

  /** The `onFailLoadWeather` closure of one cycle and the `retryTimeout`
      variable it captures. */
  class RetryClosure {
    var retryTimeout: int

    /** A multiple of the step, starting at 0. */
    predicate Valid()
      reads this
    {
      0 <= retryTimeout && retryTimeout % RetryStep == 0
    }

    constructor ()
      ensures Valid() && retryTimeout == 0
    {
      retryTimeout := 0;
    }

    /** One call of the closure: decide, and grow the timeout after a retry. */
    method OnFailLoadWeather(isArray: bool) returns (d: FailureDecision)
      requires Valid()
      modifies this
      ensures Valid()
      ensures d == Decide(old(retryTimeout), isArray)
      ensures d.Retry? ==> d.retryNumber >= 1 && (d.retryNumber - 1) * RetryStep == d.delay
      ensures retryTimeout == if d.Retry? then old(retryTimeout) + RetryStep else old(retryTimeout)
    {
      d := Decide(retryTimeout, isArray);
      if d.Retry? {
        retryTimeout := retryTimeout + RetryStep;
      }
    }
  }

  /** What one load of a cycle led to. */
  datatype CycleStep =
    | StatusHandled(status: Option<string>, at: int)
    | RetryScheduled(delay: int, retryNumber: int)
    | FallbackSent(joke: Result<string>)
    | ErrorsRejected

  /** The step a load leads to when the cycle's closure holds `retryTimeout`. */
  function StepFor(retryTimeout: int, isLate: bool, outcome: FetchOutcome, content: Weather.Content): (step: CycleStep)
    requires OutcomeValid(outcome)
    ensures step.RetryScheduled? <==> outcome.FailedWithErrors? && retryTimeout <= RetryBudget
    ensures step.FallbackSent? <==> outcome.FailedWithErrors? && retryTimeout > RetryBudget
  {
    match outcome
    case Loaded(data, draws, at) => StatusHandled(TweetWeather.StatusMessage(data, isLate, content, draws), at)
    case FailedWithNonArray => ErrorsRejected
    case FailedWithErrors(_, draw) =>
      if retryTimeout <= RetryBudget then RetryScheduled(retryTimeout, retryTimeout / RetryStep + 1)
      else FallbackSent(Util.PickRandom(content.jokes.error, draw))
  }

  /** The steps of a cycle whose closure holds `retryTimeout`, run against
      the outcomes of its successive loads. A load that succeeds, a fallback
      and a rejected argument end the cycle; a retry goes on to the next
      load. When the outcomes run out the cycle is still waiting. */
  function CycleTrace(retryTimeout: int, isLate: bool, outcomes: seq<FetchOutcome>, content: Weather.Content): seq<CycleStep>
    requires OutcomesValid(outcomes)
    decreases |outcomes|
  {
    if outcomes == [] then []
    else
      var step := StepFor(retryTimeout, isLate, outcomes[0], content);
      if step.RetryScheduled? then [step] + CycleTrace(retryTimeout + RetryStep, isLate, outcomes[1..], content)
      else [step]
  }

  /** The text a step sends to Twitter, if any. */
  function TweetsOf(step: CycleStep): (tweets: seq<string>)
    ensures |tweets| <= 1
  {
    match step
    case StatusHandled(Some(status), _) => [status]
    case FallbackSent(Success(joke)) => [joke]
    case _ => []
  }

  /** The texts a sequence of steps sends to Twitter. */
  function Tweets(steps: seq<CycleStep>): seq<string> {
    if steps == [] then [] else TweetsOf(steps[0]) + Tweets(steps[1..])
  }

  /** `stats.lastUpdate` after a step: a handled load records its time. */
  function LastUpdateOf(lastUpdate: int, step: CycleStep): int {
    if step.StatusHandled? then step.at else lastUpdate
  }

  /** `stats.lastUpdate` after the steps. */
  function LastUpdateAfter(lastUpdate: int, steps: seq<CycleStep>): int
    decreases |steps|
  {
    if steps == [] then lastUpdate else LastUpdateAfter(LastUpdateOf(lastUpdate, steps[0]), steps[1..])
  }

  /** A strictly larger gap than the grace window since the last update. */
  predicate MissedSlot(now: int, lastUpdate: int) {
    now - lastUpdate > GraceWindow
  }

  lemma ValidAfter(outcomes: seq<FetchOutcome>, n: nat)
    requires OutcomesValid(outcomes) && n <= |outcomes|
    ensures OutcomesValid(outcomes[n..])
  {
    forall i | 0 <= i < |outcomes[n..]| ensures OutcomeValid(outcomes[n..][i]) {
      assert outcomes[n..][i] == outcomes[n + i];
    }
  }

  /** The retry schedule of a cycle whose closure has already scheduled
      `k` retries: every step but the last is a retry, retry `j` waits
      `(k + j) * 131072` milliseconds and is announced as number
      `k + j + 1`, and the fallback can only be the fourth load's. */
  lemma {:induction false} ScheduleFrom(k: nat, isLate: bool, outcomes: seq<FetchOutcome>, content: Weather.Content)
    requires k <= 3 && OutcomesValid(outcomes)
    ensures var trace := CycleTrace(k * RetryStep, isLate, outcomes, content);
            && |trace| <= |outcomes|
            && |trace| <= 4 - k
            && (forall j :: 0 <= j < |trace| - 1 ==> trace[j].RetryScheduled?)
            && (forall j :: 0 <= j < |trace| && trace[j].RetryScheduled? ==>
                  trace[j] == RetryScheduled((k + j) * RetryStep, k + j + 1))
            && (forall j :: 0 <= j < |trace| && trace[j].FallbackSent? ==> k + j == 3)
    decreases |outcomes|
  {
    if outcomes != [] {
      var trace := CycleTrace(k * RetryStep, isLate, outcomes, content);
      var step := StepFor(k * RetryStep, isLate, outcomes[0], content);
      ValidAfter(outcomes, 1);
      if step.RetryScheduled? {
        assert k <= 2;
        assert k * RetryStep / RetryStep == k;
        assert k * RetryStep + RetryStep == (k + 1) * RetryStep;
        var rest := CycleTrace((k + 1) * RetryStep, isLate, outcomes[1..], content);
        assert trace == [step] + rest;
        ScheduleFrom(k + 1, isLate, outcomes[1..], content);
        forall j | 0 <= j < |trace| && trace[j].RetryScheduled?
          ensures trace[j] == RetryScheduled((k + j) * RetryStep, k + j + 1)
        {
          if j > 0 {
            assert trace[j] == rest[j - 1];
          }
        }
        forall j | 0 <= j < |trace| && trace[j].FallbackSent?
          ensures k + j == 3
        {
          assert j > 0 && trace[j] == rest[j - 1];
        }
        forall j | 0 <= j < |trace| - 1
          ensures trace[j].RetryScheduled?
        {
          if j > 0 {
            assert trace[j] == rest[j - 1];
          }
        }
      } else {
        assert trace == [step];
        assert step.FallbackSent? ==> k == 3;
      }
    }
  }

  /** The schedule of a fresh cycle: retries after 0, 131072 and 262144
      milliseconds announced as "Retry 1 of 3" to "Retry 3 of 3", at most
      four loads, and the fallback joke only after the fourth failure. */
  lemma RetrySchedule(isLate: bool, outcomes: seq<FetchOutcome>, content: Weather.Content)
    requires OutcomesValid(outcomes)
    ensures var trace := CycleTrace(0, isLate, outcomes, content);
            && |trace| <= 4
            && (forall j :: 0 <= j < |trace| - 1 ==> trace[j].RetryScheduled?)
            && (forall j :: 0 <= j < |trace| && trace[j].RetryScheduled? ==>
                  trace[j] == RetryScheduled(j * RetryStep, j + 1))
            && (forall j :: 0 <= j < |trace| && trace[j].FallbackSent? ==> j == 3)
  {
    ScheduleFrom(0, isLate, outcomes, content);
  }

  /** Four failed loads in a row: three retries, then the fallback joke
      drawn from the error pool with the fourth failure's draw. */
  lemma FourFailures(isLate: bool, outcomes: seq<FetchOutcome>, content: Weather.Content)
    requires OutcomesValid(outcomes) && |outcomes| >= 4
    requires forall j :: 0 <= j < 4 ==> outcomes[j].FailedWithErrors?
    ensures CycleTrace(0, isLate, outcomes, content) ==
              [RetryScheduled(0, 1), RetryScheduled(131072, 2), RetryScheduled(262144, 3),
               FallbackSent(Util.PickRandom(content.jokes.error, outcomes[3].fallbackDraw))]
  {
    var o1, o2, o3 := outcomes[1..], outcomes[2..], outcomes[3..];
    assert o1[0] == outcomes[1] && o1[1..] == o2;
    assert o2[0] == outcomes[2] && o2[1..] == o3;
    assert o3[0] == outcomes[3];
    ValidAfter(outcomes, 1);
    ValidAfter(outcomes, 2);
    ValidAfter(outcomes, 3);
    assert CycleTrace(393216, isLate, o3, content) == [FallbackSent(Util.PickRandom(content.jokes.error, outcomes[3].fallbackDraw))];
    assert CycleTrace(262144, isLate, o2, content) == [RetryScheduled(262144, 3)] + CycleTrace(393216, isLate, o3, content);
    assert CycleTrace(131072, isLate, o1, content) == [RetryScheduled(131072, 2)] + CycleTrace(262144, isLate, o2, content);
  }

  /** When every step but the last is a retry, only the last step tweets
      and only the last step can move `stats.lastUpdate`. */
  lemma {:induction false} LastStepDecides(steps: seq<CycleStep>, lastUpdate: int)
    requires forall j :: 0 <= j < |steps| - 1 ==> steps[j].RetryScheduled?
    ensures Tweets(steps) == if steps == [] then [] else TweetsOf(steps[|steps| - 1])
    ensures LastUpdateAfter(lastUpdate, steps) == if steps == [] then lastUpdate else LastUpdateOf(lastUpdate, steps[|steps| - 1])
    decreases |steps|
  {
    if |steps| > 1 {
      assert steps[0].RetryScheduled?;
      forall j | 0 <= j < |steps[1..]| - 1 ensures steps[1..][j].RetryScheduled? {
        assert steps[1..][j] == steps[j + 1];
      }
      LastStepDecides(steps[1..], lastUpdate);
    }
  }

  /** A cycle sends at most one tweet: the status of the load that
      succeeded or the fallback joke; and only a handled load records
      its time in `stats.lastUpdate`. */
  lemma AtMostOneTweet(isLate: bool, outcomes: seq<FetchOutcome>, content: Weather.Content, lastUpdate: int)
    requires OutcomesValid(outcomes)
    ensures var trace := CycleTrace(0, isLate, outcomes, content);
            && |Tweets(trace)| <= 1
            && (LastUpdateAfter(lastUpdate, trace) != lastUpdate ==>
                  trace != [] && trace[|trace| - 1].StatusHandled?)
  {
    RetrySchedule(isLate, outcomes, content);
    LastStepDecides(CycleTrace(0, isLate, outcomes, content), lastUpdate);
  }

  /** The bot: the persisted `stats.lastUpdate`, the statuses sent so far,
      and the static tables. */
  class Bot {
    var lastUpdate: int
    var tweets: seq<string>
    const content: Weather.Content

    constructor (lastUpdate: int, content: Weather.Content)
      ensures this.lastUpdate == lastUpdate && tweets == [] && this.content == content
    {
      this.lastUpdate := lastUpdate;
      this.content := content;
      tweets := [];
    }

    /** `onWeatherLoaded` (`isLate` false) and `onWeatherLoadedLate` (true):
        tweet the status if there is one, and record the time either way. */
    method OnWeatherLoaded(data: Weather.Payload, draws: Weather.Draws, isLate: bool, now: int) returns (status: Option<string>)
      requires draws.Valid()
      modifies this
      ensures status == TweetWeather.StatusMessage(data, isLate, content, draws)
      ensures tweets == old(tweets) + (if status.Some? then [status.value] else [])
      ensures lastUpdate == now
    {
      status := TweetWeather.StatusMessage(data, isLate, content, draws);
      if status.Some? {
        tweets := tweets + [status.value];
      }
      lastUpdate := now;
    }

    /** What a cycle does with the outcome of one load: `onWeatherLoaded`
        (or its late twin) for data, the closure for a failure, and the
        fallback joke when the closure gives up. */
    method Deliver(closure: RetryClosure, outcome: FetchOutcome, isLate: bool) returns (step: CycleStep)
      requires closure.Valid() && OutcomeValid(outcome)
      modifies this, closure
      ensures closure.Valid()
      ensures step == StepFor(old(closure.retryTimeout), isLate, outcome, content)
      ensures closure.retryTimeout == old(closure.retryTimeout) + if step.RetryScheduled? then RetryStep else 0
      ensures tweets == old(tweets) + TweetsOf(step)
      ensures lastUpdate == LastUpdateOf(old(lastUpdate), step)
    {
      match outcome {
        case Loaded(data, draws, at) =>
          var status := OnWeatherLoaded(data, draws, isLate, at);
          step := StatusHandled(status, at);
        case FailedWithNonArray =>
          var d := closure.OnFailLoadWeather(false);
          step := ErrorsRejected;
        case FailedWithErrors(_, draw) =>
          var d := closure.OnFailLoadWeather(true);
          if d.Retry? {
            step := RetryScheduled(d.delay, d.retryNumber);
          } else {
            var joke := Util.PickRandom(content.jokes.error, draw);
            if joke.Success? {
              tweets := tweets + [joke.value];
            }
            step := FallbackSent(joke);
          }
      }
    }

    /** One load of a cycle and, when the closure schedules a retry, the
        loads after it: the timer re-enters `loadWeather` with the same
        closure. */
    method Load(closure: RetryClosure, isLate: bool, outcomes: seq<FetchOutcome>) returns (steps: seq<CycleStep>)
      requires closure.Valid() && OutcomesValid(outcomes)
      modifies this, closure
      ensures steps == CycleTrace(old(closure.retryTimeout), isLate, outcomes, content)
      ensures tweets == old(tweets) + Tweets(steps)
      ensures lastUpdate == LastUpdateAfter(old(lastUpdate), steps)
      decreases |outcomes|
    {
      if outcomes == [] {
        return [];
      }
      var step := Deliver(closure, outcomes[0], isLate);
      if step.RetryScheduled? {
        ValidAfter(outcomes, 1);
        var rest := Load(closure, isLate, outcomes[1..]);
        steps := [step] + rest;
        assert steps[1..] == rest;
      } else {
        steps := [step];
      }
    }

    /** A cycle: a fresh closure and its first load. */
    method RunCycle(isLate: bool, outcomes: seq<FetchOutcome>) returns (steps: seq<CycleStep>)
      requires OutcomesValid(outcomes)
      modifies this
      ensures steps == CycleTrace(0, isLate, outcomes, content)
      ensures tweets == old(tweets) + Tweets(steps)
      ensures lastUpdate == LastUpdateAfter(old(lastUpdate), steps)
    {
      var closure := new RetryClosure();
      steps := Load(closure, isLate, outcomes);
    }

    /** The cron job: a cycle of `onWeatherLoaded` loads with a fresh closure. */
    method ScheduledUpdate(outcomes: seq<FetchOutcome>) returns (steps: seq<CycleStep>)
      requires OutcomesValid(outcomes)
      modifies this
      ensures steps == CycleTrace(0, false, outcomes, content)
      ensures tweets == old(tweets) + Tweets(steps)
      ensures lastUpdate == LastUpdateAfter(old(lastUpdate), steps)
    {
      steps := RunCycle(false, outcomes);
    }

    /** The start-up check: when an update was missed, record the time and
        run one late cycle. */
    method Startup(now: int, outcomes: seq<FetchOutcome>) returns (late: bool, steps: seq<CycleStep>)
      requires OutcomesValid(outcomes)
      modifies this
      ensures late == MissedSlot(now, old(lastUpdate))
      ensures late ==> steps == CycleTrace(0, true, outcomes, content) && lastUpdate == LastUpdateAfter(now, steps)
      ensures !late ==> steps == [] && lastUpdate == old(lastUpdate)
      ensures tweets == old(tweets) + Tweets(steps)
    {
      late := now - lastUpdate > GraceWindow;
      steps := [];
      if late {
        lastUpdate := now;
        steps := RunCycle(true, outcomes);
      }
    }
  }
}
