/** Model of Registry.Register and Registry.Invoke (internal/tool/tool.go). */
module ToolRegistry {
  import opened Results
  import T = Text
  import opened SchemaFacts
  import opened ToolSchema

  /** JSON text as the registry receives it: empty, blank, not JSON, or a JSON value. */
  datatype Raw = Empty | Blank | NotJson | Encoded(value: JSON)

  datatype HandlerResult = HandlerError | Output(raw: Raw)

  /** A nil handler is None. A handler that panics is one that fails. */
  datatype Definition = Definition(name: string, description: string, schema: Raw,
                                   handler: Option<JSON -> HandlerResult>)

  datatype RegisterError = BadName | NoDescription | NoHandler | InvalidSchema | RootNotObject | AlreadyRegistered

  datatype InvokeError = NotRegistered | InputNotJson | InputRejected(problem: Problem) | HandlerFailed | OutputNotJson

  const NAME_LIMIT := 64

  predicate NameChar(c: char) {
    'A' <= c <= 'Z' || 'a' <= c <= 'z' || '0' <= c <= '9' || c in {'_', '.', '-'}
  }

  predicate NameMatches(name: string) {
    1 <= |name| <= NAME_LIMIT && forall i | 0 <= i < |name| :: NameChar(name[i])
  }

  /** What Definition.Validate requires. */
  ghost predicate Registrable(def: Definition) {
    && NameMatches(def.name) && T.TrimSpace(def.description) != "" && def.handler.Some?
    && def.schema.Encoded? && WellFormed(def.schema.value) && IsKind(def.schema.value, "object")
  }

  /** Missing or blank input stands for an empty object. */
  function Normalized(input: Raw): Raw {
    if input.Empty? || input.Blank? then Encoded(JObject(map[])) else input
  }

  /** An output of no bytes stands for null. */
  function Rendered(output: Raw): Raw {
    if output.Empty? then Encoded(JNull) else output
  }

  /** What the handler's answer is turned into. */
  function Answer(result: HandlerResult): Result<JSON, InvokeError> {
    match result
    case HandlerError => Failure(HandlerFailed)
    case Output(raw) => if Rendered(raw).Encoded? then Success(Rendered(raw).value) else Failure(OutputNotJson)
  }

  /** The handler runs just on inputs that satisfy the schema, which are objects; a bad schema met while
      validating lies under an item schema, the one part registration does not look at. */
  ghost predicate Invoked(def: Definition, input: Raw, order: Order, r: Result<JSON, InvokeError>, called: bool) {
    && def.schema.Encoded? && def.handler.Some?
    && (r == Failure(InputNotJson) <==> !input.Encoded?)
    && (called <==> input.Encoded? && Satisfies(def.schema.value, input.value))
    && (called ==> input.value.JObject? && r == Answer(def.handler.value(input.value)))
    && (input.Encoded? && !called ==>
          && r.Failure? && r.error.InputRejected?
          && Outcome(def.schema.value, input.value, order, []) == Some(r.error.problem))
    && (r == Failure(InputRejected(BadSchema)) ==>
          CanRaise(def.schema.value) && Raises(def.schema.value, input.value)
              && BadItemsReached(def.schema.value, input.value))
  }

  class Registry {
    var tools: map<string, Definition>

    ghost predicate Valid()
      reads this
    {
      forall name | name in tools :: tools[name].name == name && Registrable(tools[name])
    }

    constructor ()
      ensures Valid() && tools == map[]
    {
      tools := map[];
    }

    method Register(def: Definition) returns (error: Option<RegisterError>)
      requires Valid()
      modifies this
      ensures Valid()
      ensures error.None? <==> Registrable(def) && def.name !in old(tools)
      ensures error == Some(AlreadyRegistered) <==> Registrable(def) && def.name in old(tools)
      ensures tools == if error.None? then old(tools)[def.name := def] else old(tools)
    {
      hide WellFormed, Decode, T.TrimSpace, NameMatches;
      error := Validate(def);
      if error.Some? {
        return;
      }
      if def.name in tools {
        return Some(AlreadyRegistered);
      }
      tools := tools[def.name := def];
      return None;
    }

    static method Validate(def: Definition) returns (error: Option<RegisterError>)
      ensures error.None? <==> Registrable(def)
      ensures error != Some(AlreadyRegistered)
    {
      hide WellFormed, T.TrimSpace, NameMatches;
      if !NameMatches(def.name) {
        return Some(BadName);
      }
      if T.TrimSpace(def.description) == "" {
        return Some(NoDescription);
      }
      if def.handler.None? {
        return Some(NoHandler);
      }
      if !def.schema.Encoded? {
        return Some(InvalidSchema);
      }
      var node := UnmarshalSchema(def.schema.value);
      if node.None? {
        return Some(InvalidSchema);
      }
      if node.value.kind != "object" {
        return Some(RootNotObject);
      }
      return None;
    }

    method Invoke(name: string, input: Raw, order: Order) returns (r: Result<JSON, InvokeError>, called: bool)
      requires Valid() && ValidOrder(order)
      ensures r == Failure(NotRegistered) <==> name !in tools
      ensures called ==> name in tools
      ensures name in tools ==> Invoked(tools[name], Normalized(input), order, r, called)
    {
      hide WellFormed, Decode, T.TrimSpace, NameMatches, Satisfies, MeetsBadSchema, BadItemsReached, Raises, CanRaise,
        Outcome, ValidOrder;
      called := false;
      if name !in tools {
        r := Failure(NotRegistered);
        return;
      }
      var def := tools[name];
      var value := Normalized(input);
      if !value.Encoded? {
        r := Failure(InputNotJson);
        return;
      }
      var problem := ValidateValue(def.schema.value, value.value, order, []);
      OnlyItemsAreBad(def.schema.value, value.value);
      if problem == Some(BadSchema) {
        RaisesMeets(def.schema.value, value.value);
        RaisedCanRaise(def.schema.value, value.value);
      }
      if problem.Some? {
        r := Failure(InputRejected(problem.value));
        return;
      }
      ObjectRoot(def.schema.value, value.value);
      called := true;
      var result := def.handler.value(value.value);
      if result.HandlerError? {
        r := Failure(HandlerFailed);
        return;
      }
      var output := Rendered(result.raw);
      if !output.Encoded? {
        r := Failure(OutputNotJson);
        return;
      }
      r := Success(output.value);
    }
  }

  lemma ObjectRoot(schema: JSON, value: JSON)
    requires Satisfies(schema, value) && IsKind(schema, "object")
    ensures value.JObject?
  {
    hide WellFormed, Decode;
  }

  // ----- Names, inputs and outputs

  /** Between 1 and 64 letters, digits, underscores, dots and hyphens, all of them ASCII. */
  lemma NameMatchesIff(name: string)
    ensures NameMatches(name) <==>
              && 1 <= |name| <= 64
              && forall i | 0 <= i < |name| ::
                  var n := name[i] as int;
                  0x41 <= n <= 0x5A || 0x61 <= n <= 0x7A || 0x30 <= n <= 0x39 || n in {0x5F, 0x2E, 0x2D}
  {
    forall i | 0 <= i < |name|
      ensures var n := name[i] as int;
              NameChar(name[i]) <==>
                0x41 <= n <= 0x5A || 0x61 <= n <= 0x7A || 0x30 <= n <= 0x39 || n in {0x5F, 0x2E, 0x2D}
    {
      NameCharIs(name[i]);
    }
  }

  lemma NameCharIs(c: char)
    ensures var n := c as int;
            NameChar(c) <==> 0x41 <= n <= 0x5A || 0x61 <= n <= 0x7A || 0x30 <= n <= 0x39 || n in {0x5F, 0x2E, 0x2D}
  {
  }

  /** A definition registers if and only if its name is such a name, its description is not blank, it has a handler,
      and its schema is a well-formed object whose type is object. */
  lemma RegistrableIff(def: Definition)
    ensures Registrable(def) <==>
              && NameMatches(def.name)
              && !T.IsBlank(def.description)
              && def.handler.Some?
              && def.schema.Encoded? && def.schema.value.JObject?
              && "type" in def.schema.value.fields && def.schema.value.fields["type"] == JString("object")
              && WellFormed(def.schema.value)
  {
    hide NameMatches, T.TrimSpace, T.IsBlank;
    var left, right := T.TrimSpaceSplits(def.description);
  }

  /** A call without input is a call with an empty object, and a handler without output answers null. */
  lemma EmptyStandsFor(def: Definition, order: Order, r: Result<JSON, InvokeError>, called: bool)
    requires Invoked(def, Normalized(Empty), order, r, called) || Invoked(def, Normalized(Blank), order, r, called)
    ensures called <==> Satisfies(def.schema.value, JObject(map[]))
    ensures called && def.handler.value(JObject(map[])) == Output(Empty) ==> r == Success(JNull)
    ensures r != Failure(InputNotJson)
  {
    hide Satisfies, CanRaise, Raises, BadItemsReached, Outcome;
  }

  /** A call that reaches the handler fails if the handler does or if its output is not JSON, and otherwise gives the
      output as JSON. */
  lemma HandlerDecides(def: Definition, input: Raw, order: Order, r: Result<JSON, InvokeError>)
    requires Invoked(def, input, order, r, true)
    ensures match def.handler.value(input.value)
            case HandlerError => r == Failure(HandlerFailed)
            case Output(Encoded(value)) => r == Success(value)
            case Output(Empty) => r == Success(JNull)
            case Output(_) => r == Failure(OutputNotJson)
  {
    hide Satisfies, CanRaise, Raises, BadItemsReached, Outcome;
  }

  // ----- A schema that registers and yet cannot be used

  function BadItems(): JSON {
    JObject(map["type" := JString("array"), "items" := JNumber(5.0)])
  }

  function Parameters(): JSON {
    JObject(map["type" := JString("object"), "properties" := JObject(map["a" := BadItems()])])
  }

  function Call(elements: seq<JSON>): JSON {
    JObject(map["a" := JArray(elements)])
  }

  lemma BadItemsWellFormed()
    ensures WellFormed(BadItems())
              && Decode(BadItems()) == Some(Node("array", [], map[], false, Some(JNumber(5.0)), []))
    ensures !WellFormed(JNumber(5.0))
  {
    var items := BadItems();
    assert SubSchemas(items) == map[];
    assert FieldsDecode(items.fields);
  }

  lemma ParametersWellFormed()
    ensures WellFormed(Parameters())
    ensures Decode(Parameters()) == Some(Node("object", [], map["a" := BadItems()], false, None, []))
  {
    hide BadItems;
    BadItemsWellFormed();
    var root := Parameters();
    assert SubSchemas(root) == map["a" := BadItems()];
    assert FieldsDecode(root.fields);
  }

  lemma OneLetter()
    ensures T.TrimSpace("d") == "d"
  {
    assert T.TrimLeft("d") == "d" && T.TrimRight("d") == "d";
  }

  /** Registration accepts an item schema that is not a schema. */
  lemma BadItemsRegister()
    ensures Registrable(Definition("t", "d", Encoded(Parameters()), Some(_ => Output(Empty))))
  {
    hide Decode, WellFormed, Parameters, T.TrimSpace;
    ParametersWellFormed();
    OneLetter();
  }

  /** A call is accepted as long as it has no element under that schema. */
  lemma BadItemsPassEmpty()
    ensures Satisfies(Parameters(), Call([]))
  {
    hide Decode, WellFormed, IsInt64;
    BadItemsWellFormed();
    ParametersWellFormed();
    assert Satisfies(BadItems(), JArray([]));
  }

  /** Any call with an element runs into it. */
  lemma BadItemsFail(e: JSON)
    ensures BadItemsReached(Parameters(), Call([e])) && !Satisfies(Parameters(), Call([e]))
  {
    hide Decode, WellFormed, Satisfies, MeetsBadSchema;
    BadItemsWellFormed();
    ParametersWellFormed();
    assert BadItemsReached(BadItems(), JArray([e]));
    assert SubSchemas(Parameters())["a"] == BadItems();
    assert BadItemsReached(Parameters(), Call([e]));
    OnlyItemsAreBad(Parameters(), Call([e]));
    BadSchemaRejects(Parameters(), Call([e]));
  }
}
