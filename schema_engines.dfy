/** The two JSON-Schema engines the crate calls, as values: which schemas compile, and the
    violations a compiled schema reports for an instance, in the engine's order. */
module SchemaEngines {
  import opened Base
  import opened Json

  /** A `jsonschema::ValidationError`: its `Display` text and its `instance_path`. */
  datatype Violation = Violation(message: string, instancePath: string)

  /** `jsonschema::validator_for` and `Validator::iter_errors`. */
  datatype JsonSchemaEngine = JsonSchemaEngine(
    compiles: Json -> bool,
    iterErrors: (Json, Json) -> seq<Violation>)

  /** A valico validation error: `get_path()` and `get_detail()`. */
  datatype ValicoError = ValicoError(path: string, detail: Option<string>)

  /** valico's `Scope::compile_and_return(schema, true)` and `ScopedSchema::validate`. */
  datatype ValicoEngine = ValicoEngine(
    compiles: Json -> bool,
    validate: (Json, Json) -> seq<ValicoError>)
}
