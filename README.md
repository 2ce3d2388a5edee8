# gemini_prompt: batch prompt generation, modelled in Dafny

The program sends one prompt template to a text-generation API a fixed number
of times. It collects the successful responses, strips a Markdown code fence
from each one and parses the rest as JSON. It then gathers the `"prompt"`
member of every record into one flat list. This project models the three
pieces of logic in `main.py` and proves what they guarantee:

- `Extraction` (`extraction.dfy`) models `extract_prompts_from_json` as pure
  functions. `StripFences` removes the fence. `Elements` models Python's
  iteration over the parsed value. `PromptOf` and `CollectPrompts` model
  `[item["prompt"] for item in data]`. `Extract` puts them together and
  returns a `Result` whose error is one of the three exceptions the function
  re-raises: `ValueError`, `KeyError` or `RuntimeError`. `json.loads` is the
  parameter `parse: string -> Loaded`. It returns a parsed value, raises
  `JSONDecodeError` (`DecodeError`), or raises some other exception
  (`OtherLoadError`), such as a `RecursionError` on very deep nesting.
- `Processing` (`processing.dfy`) models `process_responses` as a method with
  a loop that extends the accumulator. It is proved equal to `Flatten`, a left
  fold over the extraction attempts. It is also proved equal to an independent
  description: the in-order concatenation of the results of exactly the
  attempts that succeeded.
- `Generation` (`generation.dfy`) models `generate_responses` as a method with
  the source's two nested loops. The API is an abstract stream of outcomes
  `api: nat -> Outcome`, where `api(i)` is the outcome of the i-th call. An
  error whose text contains `"rateLimitExceeded"` becomes the constructor
  `RateLimited`. The method is proved equal to the state machine
  `Slot`/`Run`. `delay` is kept in half-seconds: 6 initially, plus 1 per
  rate-limit error.
- `JsonValue` (`json_value.dfy`) holds the parsed-value datatype, the
  parser's three possible answers and the `Result` wrapper.

Three behaviours of the code are easy to misread:

- **The error ceiling.** Once more than 20 rate-limit errors have been seen,
  the `break` at `main.py:66-67` leaves only the inner `while`. The batch does
  not stop. Every remaining slot still makes exactly one call, and `errors`
  keeps counting (`OneCallPerSlotAfterCeiling`). When every call is
  rate-limited, the count ends at the number of slots plus 20 (30 for the
  default 10 slots), not at 21 (`AllRateLimited`).
- **Malformed entries.** An item that `item["prompt"]` rejects is not
  skipped. The first rejected item makes the whole response fail: with
  `KeyError` if it is a record without `"prompt"`, with `RuntimeError` if it
  is not a record at all (so `[5, {}]` raises `RuntimeError`). A partial list
  is never returned (`CollectPrompts`, `ExtractOnlyOnFullSuccess`).
- **Parsed values that are not lists.** An empty JSON object or an empty
  string yields no prompts and no error. Every other value that is not a list
  raises `TypeError`, which is re-raised as `RuntimeError` (`Elements`).

## Model

| member | source | states |
|---|---|---|
| `Extraction.StripFences` | main.py:73-76 | The input equals the result with the 7-character opening fence put back exactly when the input starts with it, and the 3-character closing fence put back exactly when the text after the opening fence ends with it. So the result is a contiguous slice of the input. A text with neither marker is returned unchanged. |
| `Extraction.StripFencesInverse` | main.py:73-76 | Stripping undoes wrapping a body in either fence or both, provided the wrapped text shows no marker that was not put there. |
| `Extraction.PromptOf` | main.py:79 | `item["prompt"]` succeeds exactly on a record holding the key and yields that member's value. A record without the key raises `KeyError`. Any other value raises `TypeError`, which becomes `RuntimeError`. |
| `Extraction.CollectPrompts` | main.py:79-86 | The list comprehension succeeds exactly when every item is a record with `"prompt"`. It then returns one value per item, in the same order. Otherwise it raises the error of the first rejected item: `KeyError` for a record, `RuntimeError` for anything else. It never returns a partial list. |
| `Extraction.Elements` | main.py:78-79 | Iterating the parsed value yields a list's items, or nothing for an empty object or empty string. Every other value raises `RuntimeError`. |
| `Extraction.Extract` | main.py:70-86 | Raises `ValueError` exactly when the parser raises `JSONDecodeError` on the fence-stripped text. Any other parser exception comes out as `RuntimeError`. |
| `Extraction.ExtractRecords` | main.py:78-80 | For a parsed list whose items all carry `"prompt"`, the result succeeds, has the list's length, and element i is item i's `"prompt"` value. |
| `Extraction.ExtractOnlyOnFullSuccess` | main.py:78-86 | A list is returned only when the text parsed and either every item of the parsed list has `"prompt"` (one prompt per item) or the value was an empty object or string (no prompts). |
| `Extraction.ExtractErrorCauses` | main.py:81-86 | `KeyError` is raised exactly when the parsed value is a list whose first rejected item is a record. `RuntimeError` is raised exactly when the parser raised something other than `JSONDecodeError`, or the text parsed and either the value is not iterable into records or the first rejected item is not a record. |
| `Extraction.FencedExample` | main.py:73-80 | A fenced one-record list gives `["a"]`. |
| `Extraction.MissingKeyExample` | main.py:78-84 | `[{"notprompt":"x"}]` raises `KeyError`. |
| `Processing.ProcessResponses` | main.py:88-97 | The accumulated prompts are the left fold of the extraction attempts. They equal the in-order concatenation of the prompt lists of exactly the responses whose extraction succeeded. Nothing is raised to the caller. |
| `Processing.FlattenAppend` | main.py:90-94 | Folding two batches one after the other gives the concatenation of their results. |
| `Processing.FlattenIsConcat` | main.py:90-97 | The loop's left fold equals the concatenation of the successful results taken from the front. |
| `Processing.FailureSkipped` | main.py:92-96 | A failing response contributes nothing and removes no prompt contributed by the responses before or after it. |
| `Processing.SuccessKept` | main.py:92-94 | A succeeding response's prompts appear in place, between those of the responses before and after it. |
| `Processing.OneBadResponseExample` | main.py:88-97 | A valid response yielding `["a", "b"]` followed by a malformed one gives exactly `["a", "b"]`. |
| `Generation.Slot` | main.py:50-67 | Each slot makes at least one call and appends at most one response, keeping the earlier ones. Neither `errors` nor `delay` ever decreases. Once `errors` exceeds 20, a slot makes exactly one call. |
| `Generation.SlotConsistent` | main.py:50-67 | One slot preserves the invariant: delay = initial + one step per error, `errors` = number of rate-limited calls, `responses` = successful texts in call order, and calls = slots + min(errors, 20). |
| `Generation.RunInvariant` | main.py:46-67 | The invariant holds after every number of slots, starting from the initial state. |
| `Generation.RunConsistent` | main.py:46-68 | After n slots: at most n responses, which are the texts of the successful calls in call order. `errors` counts the rate-limited calls. `delay` is 3 s plus 0.5 s per such error. Between n and n + 20 API calls were made. |
| `Generation.OneCallPerSlotAfterCeiling` | main.py:66-67 | Once `errors` exceeds 20, every later slot makes exactly one call. `errors` and `delay` carry over and are never reset. |
| `Generation.AllRateLimited` | main.py:49-67 | For at least one slot, if every call is rate-limited, no response is collected, and errors = calls = slots + 20. |
| `Generation.GenerateResponses` | main.py:42-68 | The two nested loops return at most `max(generation_count, 0)` responses. These are the texts of the successful calls among the first c calls, for some c between the slot count and the slot count plus 20. They equal the state machine's responses. |

## Left out

- `load_api_key` (main.py:22-28) reads the environment and fails when the key is missing or empty. It is I/O with a single check.
- `read_prompt_from_file` (main.py:31-39) reads and strips a file, and turns a missing file into `FileNotFoundError` and any other read failure into `RuntimeError`. It is file I/O and error wrapping.
- `write_prompts_to_file` and `write_raw_responses_to_file` (main.py:99-115) do file I/O. They only append or truncate and write each item followed by a newline.
- `main` and the logger setup (main.py:117-145) only sequence I/O and configure logging. `tqdm` progress, every log line, `traceback` formatting and the text of error messages are not modelled.
- The generation client (`genai.configure`, `GenerativeModel`, `generate_content`) belongs to a foreign library. It becomes the outcome stream `api`. So the API key, the prompt and the model name are not parameters of `GenerateResponses`. Classifying an error by searching its text for `"rateLimitExceeded"` becomes the `RateLimited` constructor.
- `time.sleep` is real time. The model tracks the `delay` value only, not the pauses taken. `delay` is an integer count of half-seconds rather than a float.
- `json.loads` is a library parser. It is the parameter `parse`, with three outcomes: a value, `JSONDecodeError`, or any other exception. The JSON grammar is not modelled, nor which texts lead to which outcome. Numbers are integers, since their values are never inspected. Objects are maps, so member order and duplicate keys are not represented. No result depends on them: iterating a non-empty object fails on its first key whatever that key is.
- Exceptions that are not `Exception` subclasses, such as `KeyboardInterrupt`, escape every handler in the source. They are not modelled.
