/**
 * The execution-input registry of `DataJobSagemakerBase`
 * (datajob/sagemaker/__init__.py): class-level state shared by every
 * SageMaker step of a process. A step whose argument is not given asks for a
 * run-time placeholder under its unique name; the registry records the name
 * once, rebuilds the shared placeholder bundle, and republishes the list of
 * all names as a JSON array on the stack's outputs.
 */
module ExecutionInput {
  import opened Wrappers
  import Json

  /** `DataJobSagemakerBase.DATAJOB_EXECUTION_INPUT`, the stack output the names are published under. */
  const DATAJOB_EXECUTION_INPUT: string := "DatajobExecutionInput"

  /** The value type a schema entry records; the source only ever records `str`. */
  datatype PlaceholderType = Str

  /** The step-functions `ExecutionInput` built from the schema: its names, in insertion order. */
  datatype ExecutionInputBundle = ExecutionInputBundle(names: seq<string>)

  /** What `handle_argument_for_execution_input` returns: the user's argument, or a placeholder. */
  datatype Resolved<T> = Given(argument: T) | Placeholder(key: string)

  /** `DataJobSagemakerException`. */
  datatype SagemakerError = DuplicateEntry(key: string)

  /** The exception's message, naming the offending entry. */
  function Message(e: SagemakerError): (m: string)
    ensures |"The entry "| <= |m| && e.key <= m[|"The entry "|..]
  {
    "The entry " + e.key + " already exists in the execution input."
  }

  predicate Distinct(s: seq<string>) {
    forall i, j :: 0 <= i < j < |s| ==> s[i] != s[j]
  }

  /** The stack's externally visible outputs, of which the registry writes one key. */
  class DataJobStack {
    var outputs: map<string, string>

    constructor ()
      ensures outputs == map[]
    {
      outputs := map[];
    }

    /** `update_datajob_stack_outputs`: set one output, replacing any earlier value. */
    method UpdateDatajobStackOutputs(key: string, value: string)
      modifies this
      ensures outputs == old(outputs)[key := value]
    {
      outputs := outputs[key := value];
    }
  }

  /** The class-level attributes `execution_input_schema` and `execution_input`. */
  class ExecutionInputRegistry {
    /** The keys of `execution_input_schema`, in insertion order. */
    var schemaKeys: seq<string>
    /** `execution_input_schema` itself: unique name to value type. */
    var schema: map<string, PlaceholderType>
    /** `execution_input`: `None` until the first placeholder is handed out. */
    var executionInput: Option<ExecutionInputBundle>

    ghost predicate Valid()
      reads this
    {
      && Distinct(schemaKeys)
      && (forall k :: k in schema <==> k in schemaKeys)
      && (forall k :: k in schema ==> schema[k] == Str)
      && executionInput == (if schemaKeys == [] then None else Some(ExecutionInputBundle(schemaKeys)))
    }

    /** The state at import time: an empty schema and no bundle. */
    constructor ()
      ensures Valid()
      ensures schemaKeys == [] && schema == map[] && executionInput == None
    {
      schemaKeys := [];
      schema := map[];
      executionInput := None;
    }

    /**
     * `handle_argument_for_execution_input`. A given argument passes through
     * untouched; otherwise `uniqueName` is registered once and a placeholder
     * for it is returned, or the call fails if it is already registered.
     */
    method HandleArgumentForExecutionInput<T>(stack: DataJobStack, uniqueName: string, argument: Option<T>)
      returns (r: Result<Resolved<T>, SagemakerError>)
      requires Valid()
      modifies this, stack
      ensures Valid()
      ensures argument.Some? ==>
                && r == Ok(Given(argument.value))
                && unchanged(this) && unchanged(stack)
      ensures argument.None? && uniqueName in old(schemaKeys) ==>
                && r == Err(DuplicateEntry(uniqueName))
                && unchanged(this) && unchanged(stack)
      ensures argument.None? && uniqueName !in old(schemaKeys) ==>
                && r == Ok(Placeholder(uniqueName))
                && schemaKeys == old(schemaKeys) + [uniqueName]
                && schema == old(schema)[uniqueName := Str]
                && executionInput == Some(ExecutionInputBundle(schemaKeys))
                && stack.outputs == old(stack.outputs)[DATAJOB_EXECUTION_INPUT := Json.Dumps(schemaKeys)]
                && Json.Loads(stack.outputs[DATAJOB_EXECUTION_INPUT]) == Some(schemaKeys)
    {
      if argument.Some? {
        return Ok(Given(argument.value));
      }
      if uniqueName in schema {
        return Err(DuplicateEntry(uniqueName));
      }
      schema := schema[uniqueName := Str];
      AppendKeepsDistinct(schemaKeys, uniqueName);
      schemaKeys := schemaKeys + [uniqueName];
      executionInput := Some(ExecutionInputBundle(schemaKeys));
      UpdateExecutionInputForStack(stack);
      r := Ok(Placeholder(uniqueName));
    }

    /** `_update_execution_input_for_stack`: publish every schema key, in order, as a JSON array. */
    method UpdateExecutionInputForStack(stack: DataJobStack)
      modifies stack
      ensures stack.outputs == old(stack.outputs)[DATAJOB_EXECUTION_INPUT := Json.Dumps(schemaKeys)]
      ensures Json.Loads(stack.outputs[DATAJOB_EXECUTION_INPUT]) == Some(schemaKeys)
    {
      var published := Json.Dumps(schemaKeys);
      stack.UpdateDatajobStackOutputs(DATAJOB_EXECUTION_INPUT, published);
      Json.LoadsDumps(schemaKeys);
    }
  }

  /** Appending a name not yet present keeps the names distinct. */
  lemma AppendKeepsDistinct(s: seq<string>, k: string)
    requires Distinct(s)
    ensures Distinct(s + [k]) <==> k !in s
  {
    if k in s {
      var i :| 0 <= i < |s| && s[i] == k;
      assert (s + [k])[i] == (s + [k])[|s|];
    }
  }
}

/** One step asks for a placeholder, another passes its own value, and a repeat is refused. */
method RegistrationScenario() {
  var stack := new ExecutionInput.DataJobStack();
  var registry := new ExecutionInput.ExecutionInputRegistry();
  var a := registry.HandleArgumentForExecutionInput<string>(stack, "stack-train", Wrappers.None);
  assert a == Wrappers.Ok(ExecutionInput.Placeholder("stack-train"));
  var c := registry.HandleArgumentForExecutionInput(stack, "stack-score", Wrappers.Some("job-42"));
  assert c == Wrappers.Ok(ExecutionInput.Given("job-42"));
  var d := registry.HandleArgumentForExecutionInput<string>(stack, "stack-train", Wrappers.None);
  assert d == Wrappers.Err(ExecutionInput.DuplicateEntry("stack-train"));
  assert registry.schemaKeys == ["stack-train"];
}
