# datajob SageMaker base: unique names and the execution-input registry

This project models the two pieces of logic in `DataJobSagemakerBase`
(`datajob/sagemaker/__init__.py`). Both belong to datajob, a layer over the AWS CDK that declares
Step Functions, Glue and SageMaker steps of a data pipeline.

- **Unique names** (`unique_name.dfy`, module `UniqueName`).
  `generate_unique_name` appends the process timestamp, rendered as text, to a step's name.
  It trims the name from its end when name and timestamp together exceed the budget `max_chars`.
  The default budget is `MAX_CHARS = 63`.
  The rendered timestamp is the parameter `currentDate`.
  Python's slice `name[:stop]` is modelled as `SliceTo`, with Python's handling of negative and out-of-range stops.
- **Execution-input registry** (`execution_input.dfy`, module `ExecutionInput`).
  A step whose argument is `None` gets a run-time placeholder under its unique name.
  The class-level dict `execution_input_schema` and the class-level `execution_input` become the fields of `ExecutionInputRegistry`.
  The schema is kept as a `seq` of keys in insertion order, plus a `map` to the value type.
  The stack's outputs are `DataJobStack.outputs`.
  A second request for the same name fails with `DuplicateEntry`, which models `DataJobSagemakerException`.
  Each successful request republishes every key as a JSON array under `DatajobExecutionInput`.
- **JSON** (`json.dfy`, module `Json`).
  `json.dumps` of a list of strings is modelled as `Dumps`: `[`, the quoted items joined by `", "`, then `]`.
  `Loads` reads that format back and serves as the partner for the round-trip and injectivity proofs.
- `wrappers.dfy` holds `Option` and `Result`.

The `- 1` in `name[: difference - 1]` does not trim one character too many.
It pays for the hyphen. So when hyphen and date fit (`len(date) + 1 <= max_chars`), a trimmed result is exactly `max_chars` long (`TrimmedNameFillsBudget`).
When they do not fit, the name is trimmed to nothing and the result `"-" + date` is longer than `max_chars`.
The real off-by-one is in the test `difference < 0`, which ignores the hyphen (see Findings).

## Model

| member | source | states |
|---|---|---|
| `UniqueName.SliceTo` | datajob/sagemaker/__init__.py:58 | the result is a prefix of the input; a negative stop removes that many characters from the end, and removing more than the length leaves the empty string; a non-negative stop keeps at most that many |
| `UniqueName.GenerateUniqueName` | datajob/sagemaker/__init__.py:36-61 | the result always ends with `"-" + date`, and what precedes it is a prefix of the name |
| `UniqueName.WithinBudgetKeepsName` | datajob/sagemaker/__init__.py:52-59 | when `len(name) + len(date) <= max_chars` the result is exactly `name + "-" + date` |
| `UniqueName.OverBudgetTrimsName` | datajob/sagemaker/__init__.py:52-59 | over budget, the result is the name with `len(name)+len(date)-max_chars+1` trailing characters removed (empty if that many or more), then `"-" + date` |
| `UniqueName.TrimmedNameFillsBudget` | datajob/sagemaker/__init__.py:52-59 | over budget, and with `len(date) + 1 <= max_chars`, the result is exactly `max_chars` long |
| `UniqueName.KeepsNameIffWithinBudget` | datajob/sagemaker/__init__.py:52-59 | a non-empty name is kept whole if and only if `len(name) + len(date) <= max_chars` |
| `UniqueName.BoundaryOverflowsBudget` | datajob/sagemaker/__init__.py:52-59 | when `len(name) + len(date) == max_chars`, nothing is trimmed and the result has `max_chars + 1` characters |
| `UniqueName.BoundaryCounterexample` | datajob/sagemaker/__init__.py:52-59 | `"my-job"` with the 15-character date `20230101T000000` and `max_chars = 21` yields a 22-character name |
| `UniqueName.ExceedsBudgetOnlyAtBoundary` | datajob/sagemaker/__init__.py:52-59 | when hyphen and date fit, the result exceeds `max_chars` exactly when `len(name) + len(date) == max_chars` |
| `UniqueName.GenerateUniqueNameWithinBudget` | datajob/sagemaker/__init__.py:36-61 | corrected version that counts the hyphen: same `"-" + date` suffix and name-prefix shape, and never longer than `max_chars` when hyphen and date fit |
| `UniqueName.WithinBudgetKeepsLongestPrefix` | datajob/sagemaker/__init__.py:52-59 | when hyphen and date fit (`len(date) + 1 <= max_chars`), the corrected result keeps the longest prefix that fits: its length is `min(len(name) + len(date) + 1, max_chars)` |
| `UniqueName.WithinBudgetAgreesOffBoundary` | datajob/sagemaker/__init__.py:52-59 | the corrected and the original function agree on every input except `len(name) + len(date) == max_chars` |
| `Json.Escape` | datajob/sagemaker/__init__.py:105-107 | escaping a string body never shortens it and at most doubles it |
| `Json.Dumps` | datajob/sagemaker/__init__.py:105-107 | the serialised list is bracketed by `[` and `]`, and it is `[]` exactly when the list is empty |
| `Json.UnescapeBody` | datajob/sagemaker/__init__.py:105-107 | partner of `Escape`, not a model of these lines (the source never decodes): it reads back a string body that `Escape` wrote, and consumes at least its closing quote |
| `Json.LoadsDumps` | datajob/sagemaker/__init__.py:105-107 | every list of strings is read back unchanged from its serialisation, order included |
| `Json.DumpsInjective` | datajob/sagemaker/__init__.py:105-111 | two schemas publish the same text if and only if their key lists are equal |
| `Json.DumpsPrintable` | datajob/sagemaker/__init__.py:105-107 | keys of printable ASCII give printable-ASCII output, as `ensure_ascii` requires |
| `ExecutionInput.Message` | datajob/sagemaker/__init__.py:84-87 | the exception message names the duplicate entry |
| `ExecutionInput.AppendKeepsDistinct` | datajob/sagemaker/__init__.py:84-88 | appending a key to distinct keys keeps them distinct if and only if the key was absent |
| `ExecutionInput.ExecutionInputRegistry.constructor` | datajob/sagemaker/__init__.py:30-31 | the schema starts empty and no execution input exists |
| `ExecutionInput.ExecutionInputRegistry.HandleArgumentForExecutionInput` | datajob/sagemaker/__init__.py:63-93 | a given argument is returned and nothing changes; a registered name raises `DuplicateEntry` and nothing changes; otherwise the name is appended last, earlier keys and order are kept, keys stay distinct, the bundle is rebuilt from the whole schema, only `DatajobExecutionInput` changes among the outputs, it becomes the JSON array of all keys, it decodes back to them, and a placeholder for the name is returned |
| `ExecutionInput.ExecutionInputRegistry.UpdateExecutionInputForStack` | datajob/sagemaker/__init__.py:95-111 | the `DatajobExecutionInput` output is overwritten with the JSON array of all schema keys in insertion order, and no other output changes |
| `ExecutionInput.DataJobStack.UpdateDatajobStackOutputs` | datajob/sagemaker/__init__.py:108-111 | the stack output under the key is set to the value, and every other output is kept |

## Left out

- `get_default_sagemaker_role` and the IAM role helpers of `DataJobBase` (`get_role`, `get_default_admin_role`) are not modelled: they only synthesise AWS CDK IAM objects.
- `DataJobBase` construction is not modelled: construct registration and the `isinstance` assertion belong to the CDK. The unique name `{unique_stack_name}-{name}` is a plain string parameter of the registry.
- `datetime.utcnow()` and `strftime(datetime_format)` are not modelled: the rendered timestamp is the parameter `currentDate`, so the `datetime_format` parameter does not appear.
- The step-functions `ExecutionInput` object is a library type. It is modelled as `ExecutionInputBundle`, which holds the schema's names. Indexing it by a name is modelled as the value `Placeholder(name)`.
- `datajob/datajob_stack.py` is not part of this model. `update_datajob_stack_outputs` is taken to set one output key and replace any earlier value.
- Logging calls and the no-op `create` are not modelled, because they have no effect on state.
- The schema is one process-wide `ExecutionInputRegistry` object passed to the methods. Python's class-attribute sharing between instances is not represented.
- Json.Dumps: characters other than `"` and `\` are written unescaped. Python's `json.dumps` writes control characters and non-ASCII characters as `\n`-style or `\uXXXX` escapes. So the output matches `json.dumps` only when every key is printable ASCII. The model assumes callers pass such names; nothing in `datajob/datajob_base.py:20` enforces it, since it only concatenates the stack name and the step name.

## Findings

| source | as written | input that shows it | evidently intended | confidence | as-written member | corrected member |
|---|---|---|---|---|---|---|
| datajob/sagemaker/__init__.py:54 | truncation happens only when `difference < 0`, where `difference = max_chars - (len(date) + len(name))` ignores the hyphen | name `"my-job"`, date `20230101T000000`, `max_chars = 21`: the result `my-job-20230101T000000` has 22 characters | the result never exceeds `max_chars`: the test should count the hyphen, as the slice `difference - 1` already does | not executed; high (follows directly from the arithmetic) | `UniqueName.BoundaryOverflowsBudget` | `UniqueName.GenerateUniqueNameWithinBudget` |
