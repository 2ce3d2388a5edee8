/** `process_responses`: run the extractor over every raw response, in order,
    and concatenate what the successful ones yield. A response whose extraction
    raises is skipped and the batch goes on. */
module Processing {
  import opened JsonValue
  import opened Extraction

  /** What `extract_prompts_from_json` did with one response. */
  type Attempt = Result<seq<Json>, ExtractError>

  /** The extractor applied to every response, in order. */
  function Attempts(parse: string -> Loaded, responses: seq<string>): seq<Attempt>
  {
    seq(|responses|, i requires 0 <= i < |responses| => Extract(parse, responses[i]))
  }

  /** What one response adds to the batch: its prompts, or nothing when the
      extractor raised. The handler catches `ValueError`, `KeyError` and
      `RuntimeError`, which are all the extractor can raise, so no failure of
      one response reaches the caller. */
  function Gained(attempt: Attempt): seq<Json>
  {
    match attempt
    case Ok(prompts) => prompts
    case Err(_) => []
  }

  /** The accumulator after the loop has seen these attempts: a left fold. */
  function Flatten(attempts: seq<Attempt>): seq<Json>
  {
    if attempts == [] then []
    else Flatten(attempts[..|attempts| - 1]) + Gained(attempts[|attempts| - 1])
  }

  /** `process_responses(responses)`: `all_prompts` is extended in place with the
      prompts of each response that extracts cleanly, and nothing is raised. */
  method ProcessResponses(parse: string -> Loaded, responses: seq<string>) returns (allPrompts: seq<Json>)
    ensures allPrompts == Flatten(Attempts(parse, responses))
    ensures allPrompts == Concat(Succeeded(Attempts(parse, responses)))
  {
    ghost var attempts := Attempts(parse, responses);
    allPrompts := [];
    for i := 0 to |responses|
      invariant allPrompts == Flatten(attempts[..i])
    {
      assert attempts[..i + 1][..i] == attempts[..i];
      match Extract(parse, responses[i])
      case Ok(extractedPrompts) =>
        allPrompts := allPrompts + extractedPrompts;
      case Err(_) =>
    }
    assert attempts[..|responses|] == attempts;
    FlattenIsConcat(attempts);
  }

  /** The prompt lists of exactly the attempts that succeeded, in order. */
  function Succeeded(attempts: seq<Attempt>): (r: seq<seq<Json>>)
    ensures |r| <= |attempts|
  {
    if attempts == [] then []
    else
      match attempts[0]
      case Ok(prompts) => [prompts] + Succeeded(attempts[1..])
      case Err(_) => Succeeded(attempts[1..])
  }

  /** All the lists of a list of lists, one after another. */
  function Concat(xss: seq<seq<Json>>): seq<Json>
  {
    if xss == [] then [] else xss[0] + Concat(xss[1..])
  }

  /** The fold distributes over the concatenation of two batches. */
  lemma {:induction false} FlattenAppend(a: seq<Attempt>, b: seq<Attempt>)
    ensures Flatten(a + b) == Flatten(a) + Flatten(b)
    decreases |b|
  {
    if b == [] {
      assert a + b == a;
    } else {
      var ab := a + b;
      var b' := b[..|b| - 1];
      assert ab[..|ab| - 1] == a + b';
      assert ab[|ab| - 1] == b[|b| - 1];
      FlattenAppend(a, b');
    }
  }

  /** A batch of one attempt yields what that attempt gains. */
  lemma FlattenSingle(attempt: Attempt)
    ensures Flatten([attempt]) == Gained(attempt)
  {
  }

  /** Concatenation likewise splits across two lists of lists. */
  lemma {:induction false} ConcatAppend(xss: seq<seq<Json>>, yss: seq<seq<Json>>)
    ensures Concat(xss + yss) == Concat(xss) + Concat(yss)
  {
    if xss == [] {
      assert xss + yss == yss;
    } else {
      assert (xss + yss)[1..] == xss[1..] + yss;
      ConcatAppend(xss[1..], yss);
    }
  }

  /** The loop's left fold equals the independent right-to-left description:
      the in-order concatenation of the results of the attempts that succeeded. */
  lemma {:induction false} FlattenIsConcat(attempts: seq<Attempt>)
    ensures Flatten(attempts) == Concat(Succeeded(attempts))
  {
    if attempts != [] {
      var head, tail := attempts[..1], attempts[1..];
      assert attempts == head + tail;
      FlattenAppend(head, tail);
      FlattenIsConcat(tail);
      assert head == [attempts[0]];
      FlattenSingle(attempts[0]);
      match attempts[0]
      case Ok(prompts) =>
        ConcatAppend([prompts], Succeeded(tail));
        assert Concat([prompts]) == prompts by { assert [prompts][1..] == []; }
      case Err(_) =>
    }
  }

  /** A failing response contributes nothing and removes nothing that the
      responses around it contribute. */
  lemma FailureSkipped(before: seq<Attempt>, bad: Attempt, after: seq<Attempt>)
    requires bad.Err?
    ensures Flatten(before + [bad] + after) == Flatten(before) + Flatten(after)
  {
    FlattenAppend(before + [bad], after);
    FlattenAppend(before, [bad]);
    FlattenSingle(bad);
  }

  /** A succeeding response contributes its prompts, in place, between those
      of the responses before and after it. */
  lemma SuccessKept(before: seq<Attempt>, good: Attempt, after: seq<Attempt>)
    requires good.Ok?
    ensures Flatten(before + [good] + after) == Flatten(before) + good.value + Flatten(after)
  {
    FlattenAppend(before + [good], after);
    FlattenAppend(before, [good]);
    FlattenSingle(good);
  }

  /** A valid response yielding ["a", "b"] followed by a malformed one yields
      exactly ["a", "b"]. */
  lemma OneBadResponseExample(parse: string -> Loaded, good: string, bad: string)
    requires Extract(parse, good) == Ok([JString("a"), JString("b")])
    requires Extract(parse, bad).Err?
    ensures Flatten(Attempts(parse, [good, bad])) == [JString("a"), JString("b")]
  {
    var attempts := Attempts(parse, [good, bad]);
    assert attempts == [] + [attempts[0]] + [attempts[1]];
    SuccessKept([], attempts[0], [attempts[1]]);
    FlattenSingle(attempts[1]);
  }
}
