/** `generate_responses`: fill each of `generation_count` slots by calling the
    text-generation API, retrying a slot on rate-limit errors with a growing
    delay, giving a slot up on any other error, and ceasing to retry once more
    than 20 rate-limit errors have been seen. The API is an abstract stream of
    outcomes, `api(i)` being the outcome of the i-th call. */
module Generation {

  /** `INITIAL_DELAY`, 3 seconds, in half-second units. */
  const InitialDelay: nat := 6
  /** The back-off step `delay += 0.5`, in half-second units. */
  const DelayStep: nat := 1
  /** The ceiling in `if errors > 20`. */
  const MaxErrors: nat := 20

  /** One API call: the generated text, an error whose text contains
      "rateLimitExceeded", or any other error. */
  datatype Outcome = Success(text: string) | RateLimited | OtherError

  /** The loop's variables `responses`, `delay` (half-seconds) and `errors`,
      with the number of API calls made so far. */
  datatype GenState = GenState(responses: seq<string>, delay: nat, errors: nat, calls: nat)

  const Initial: GenState := GenState([], InitialDelay, 0, 0)

  function Min(x: int, y: int): int { if x <= y then x else y }

  /** The inner `while True` of one slot. A success appends its text and ends
      the slot, another error ends it with nothing appended, a rate-limit error
      raises the delay and the count and retries, unless the count now exceeds
      the ceiling, which ends the slot only. */
  function Slot(api: nat -> Outcome, s: GenState): (t: GenState)
    ensures s.calls < t.calls
    ensures s.errors <= t.errors && s.delay <= t.delay
    ensures |s.responses| <= |t.responses| <= |s.responses| + 1 && t.responses[..|s.responses|] == s.responses
    ensures s.errors > MaxErrors ==> t.calls == s.calls + 1
    decreases if s.errors <= MaxErrors then MaxErrors + 1 - s.errors else 0
  {
    match api(s.calls)
    case Success(text) => s.(responses := s.responses + [text], calls := s.calls + 1)
    case OtherError => s.(calls := s.calls + 1)
    case RateLimited =>
      var next := s.(delay := s.delay + DelayStep, errors := s.errors + 1, calls := s.calls + 1);
      if next.errors > MaxErrors then next else Slot(api, next)
  }

  /** The state after the outer `for` has run `slots` slots. */
  function Run(api: nat -> Outcome, slots: nat): GenState
  {
    if slots == 0 then Initial else Slot(api, Run(api, slots - 1))
  }

  /** How many of the first `n` calls were rate-limited. */
  function RateLimitedIn(api: nat -> Outcome, n: nat): nat
  {
    if n == 0 then 0 else RateLimitedIn(api, n - 1) + (if api(n - 1).RateLimited? then 1 else 0)
  }

  /** The texts of the successful calls among the first `n`, in call order. */
  function SuccessTextsIn(api: nat -> Outcome, n: nat): seq<string>
  {
    if n == 0 then []
    else SuccessTextsIn(api, n - 1) + (match api(n - 1) case Success(text) => [text] case _ => [])
  }

  /** What holds between the variables when `slots` slots are done, and also in
      the middle of the next slot after each retry: the delay has grown by one
      step per rate-limit error, `errors` counts the rate-limited calls and
      `responses` holds the successful texts; every slot made one final call
      and the first 20 rate-limit errors each cost one retry. */
  ghost predicate Consistent(api: nat -> Outcome, s: GenState, slots: nat)
  {
    && s.delay == InitialDelay + DelayStep * s.errors
    && s.errors == RateLimitedIn(api, s.calls)
    && s.responses == SuccessTextsIn(api, s.calls)
    && s.calls == slots + Min(s.errors, MaxErrors)
    && |s.responses| <= slots
  }

  /** One slot keeps the variables consistent and counts as one slot more. */
  lemma {:induction false} SlotConsistent(api: nat -> Outcome, s: GenState, slots: nat)
    requires Consistent(api, s, slots)
    ensures Consistent(api, Slot(api, s), slots + 1)
    decreases if s.errors <= MaxErrors then MaxErrors + 1 - s.errors else 0
  {
    match api(s.calls)
    case Success(text) =>
    case OtherError =>
    case RateLimited =>
      var next := s.(delay := s.delay + DelayStep, errors := s.errors + 1, calls := s.calls + 1);
      if next.errors <= MaxErrors {
        assert Consistent(api, next, slots);
        SlotConsistent(api, next, slots);
      }
  }

  /** After any number of slots: at most one response per slot, the responses
      are the successful texts in call order, `errors` counts the rate-limited
      calls, `delay` is 3 s plus 0.5 s per such error, and the number of API
      calls lies between the number of slots and that number plus 20. */
  lemma {:induction false} RunConsistent(api: nat -> Outcome, slots: nat)
    ensures var s := Run(api, slots);
            && |s.responses| <= slots
            && s.responses == SuccessTextsIn(api, s.calls)
            && s.errors == RateLimitedIn(api, s.calls)
            && s.delay == InitialDelay + DelayStep * s.errors
            && slots <= s.calls <= slots + MaxErrors
            && s.calls == slots + Min(s.errors, MaxErrors)
  {
    RunInvariant(api, slots);
  }

  /** The initial state is consistent, and each slot keeps it so. */
  lemma {:induction false} RunInvariant(api: nat -> Outcome, slots: nat)
    ensures Consistent(api, Run(api, slots), slots)
  {
    if slots > 0 {
      RunInvariant(api, slots - 1);
      SlotConsistent(api, Run(api, slots - 1), slots - 1);
    }
  }

  /** Once the count exceeds the ceiling the batch does not stop: every later
      slot makes exactly one call, and the count and the delay carry over. */
  lemma {:induction false} OneCallPerSlotAfterCeiling(api: nat -> Outcome, done: nat, more: nat)
    requires Run(api, done).errors > MaxErrors
    ensures Run(api, done + more).calls == Run(api, done).calls + more
    ensures Run(api, done + more).errors >= Run(api, done).errors
    ensures Run(api, done + more).delay >= Run(api, done).delay
  {
    if more > 0 {
      OneCallPerSlotAfterCeiling(api, done, more - 1);
    }
  }

  /** If every call is rate-limited, the first `n` calls count `n` such errors and no text. */
  lemma {:induction false} AllRateLimitedCounts(api: nat -> Outcome, n: nat)
    requires forall i :: api(i) == RateLimited
    ensures RateLimitedIn(api, n) == n && SuccessTextsIn(api, n) == []
  {
    if n > 0 { AllRateLimitedCounts(api, n - 1); }
  }

  /** When every call is rate-limited, no response is collected; the first
      slot makes 21 calls and each later slot one, so the count ends at the
      number of slots plus 20 rather than stopping at 21. */
  lemma AllRateLimited(api: nat -> Outcome, slots: nat)
    requires forall i :: api(i) == RateLimited
    requires slots >= 1
    ensures Run(api, slots).responses == []
    ensures Run(api, slots).errors == Run(api, slots).calls == slots + MaxErrors
  {
    RunConsistent(api, slots);
    AllRateLimitedCounts(api, Run(api, slots).calls);
  }

  /** The number of slots `range(generation_count)` yields. */
  function SlotCount(generationCount: int): nat
  {
    if generationCount < 0 then 0 else generationCount
  }

  /** `generate_responses(api_key, prompt, generation_count)`. The responses
      are the texts of the successful calls among the first `c` calls, for a
      number of calls `c` between the number of slots and that plus 20. */
  method GenerateResponses(api: nat -> Outcome, generationCount: int) returns (responses: seq<string>)
    ensures |responses| <= SlotCount(generationCount)
    ensures exists c: nat :: SlotCount(generationCount) <= c <= SlotCount(generationCount) + MaxErrors &&
                             responses == SuccessTextsIn(api, c)
    ensures responses == Run(api, SlotCount(generationCount)).responses
  {
    responses := [];
    var delay: nat := InitialDelay;
    var errors: nat := 0;
    var calls: nat := 0;  // position in the outcome stream
    var slot: nat := 0;
    while slot < generationCount
      invariant slot <= SlotCount(generationCount)
      invariant GenState(responses, delay, errors, calls) == Run(api, slot)
    {
      ghost var start := GenState(responses, delay, errors, calls);
      while true
        invariant Slot(api, GenState(responses, delay, errors, calls)) == Slot(api, start)
        decreases if errors <= MaxErrors then MaxErrors + 1 - errors else 0
      {
        var outcome := api(calls);
        calls := calls + 1;
        match outcome {
          case Success(text) =>
            responses := responses + [text];
            break;
          case RateLimited =>
            delay := delay + DelayStep;
            errors := errors + 1;
          case OtherError =>
            break;
        }
        if errors > MaxErrors {
          break;
        }
      }
      slot := slot + 1;
    }
    RunConsistent(api, slot);
  }
}
