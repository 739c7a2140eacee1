/** Model of the schemas of internal/tool/tool.go, a subset of JSON Schema draft 2020-12 over decoded JSON. */
module ToolSchema {
  import opened Collections
  import opened Results

  datatype JSON =
    | JNull
    | JBool(b: bool)
    | JNumber(x: real)
    | JString(s: string)
    | JArray(items: seq<JSON>)
    | JObject(fields: map<string, JSON>)

  // ----- Schemas

  /** A decoded schema node. A nil or absent additionalProperties leaves the object open; items are kept raw. */
  datatype Node = Node(kind: string, required: seq<string>, properties: map<string, JSON>, closed: bool,
                       items: Option<JSON>, allowed: seq<JSON>)

  const EMPTY_NODE := Node("", [], map[], false, None, [])

  const KEYWORDS := {"type", "description", "required", "properties", "additionalProperties", "items", "enum"}

  /** A field that is absent reads like null. */
  function Field(fields: map<string, JSON>, key: string): JSON {
    if key in fields then fields[key] else JNull
  }

  /** The type each keyword must have; null stands for the zero value everywhere, also inside required. */
  predicate FieldsDecode(fields: map<string, JSON>) {
    && (Field(fields, "type").JNull? || Field(fields, "type").JString?)
    && (Field(fields, "description").JNull? || Field(fields, "description").JString?)
    && (Field(fields, "required").JNull?
        || (Field(fields, "required").JArray? && forall e | e in Field(fields, "required").items ::
            e.JNull? || e.JString?))
    && (Field(fields, "properties").JNull? || Field(fields, "properties").JObject?)
    && (Field(fields, "additionalProperties").JNull? || Field(fields, "additionalProperties").JBool?)
    && (Field(fields, "enum").JNull? || Field(fields, "enum").JArray?)
  }

  function Text(value: JSON): string {
    if value.JString? then value.s else ""
  }

  function Properties(fields: map<string, JSON>): map<string, JSON> {
    if "properties" in fields && fields["properties"].JObject? then fields["properties"].fields else map[]
  }

  function DecodeFields(fields: map<string, JSON>): Node {
    var required := Field(fields, "required");
    Node(
      Text(Field(fields, "type")),
      if required.JArray? then seq(|required.items|, i requires 0 <= i < |required.items| => Text(required.items[i]))
          else [],
      Properties(fields),
      Field(fields, "additionalProperties") == JBool(false),
      if "items" in fields then Some(fields["items"]) else None,
      if Field(fields, "enum").JArray? then Field(fields, "enum").items else [])
  }

  /** What decoding a schema into a node gives. A null schema decodes to the empty node. */
  function Decode(raw: JSON): Option<Node> {
    match raw
    case JNull => Some(EMPTY_NODE)
    case JObject(fields) => if FieldsDecode(fields) then Some(DecodeFields(fields)) else None
    case _ => None
  }

  function Keys(raw: JSON): set<string> {
    if raw.JObject? then raw.fields.Keys else {}
  }

  /** The property schemas of a raw schema, each a proper part of it. */
  function SubSchemas(raw: JSON): (properties: map<string, JSON>)
    ensures Decode(raw).Some? ==> properties == Decode(raw).value.properties
    ensures forall name | name in properties :: properties[name] < raw
  {
    if raw.JObject? then
      assert "properties" in raw.fields ==> raw.fields["properties"] < raw;
      Properties(raw.fields)
    else map[]
  }

  /** What registration accepts below the root: property schemas are checked, item schemas are not. */
  ghost predicate WellFormed(raw: JSON) {
    && Decode(raw).Some?
    && Keys(raw) <= KEYWORDS
    && forall name | name in SubSchemas(raw) :: WellFormed(SubSchemas(raw)[name])
  }

  method UnmarshalSchema(raw: JSON) returns (node: Option<Node>)
    ensures node.Some? <==> WellFormed(raw)
    ensures node.Some? ==> node == Decode(raw)
    decreases raw
  {
    hide Decode;
    var decoded := Decode(raw);
    if decoded.None? {
      return None;
    }
    var keys := Keys(raw);
    while keys != {}
      invariant keys <= Keys(raw)
      invariant forall key | key in Keys(raw) && key !in keys :: key in KEYWORDS
      decreases |keys|
    {
      var key :| key in keys;
      keys := keys - {key};
      if key !in KEYWORDS {
        return None;
      }
    }
    var properties := SubSchemas(raw);
    var names := properties.Keys;
    while names != {}
      invariant names <= properties.Keys
      invariant forall name | name in properties && name !in names :: WellFormed(properties[name])
      decreases |names|
    {
      var name :| name in names;
      names := names - {name};
      var child := UnmarshalSchema(properties[name]);
      if child.None? {
        return None;
      }
    }
    return decoded;
  }

  // ----- Values

  /** In the range of a 64-bit integer, without a fraction. */
  predicate IsInt64(x: real) {
    x == x.Floor as real && -9223372036854775808.0 <= x < 9223372036854775808.0
  }

  predicate TypeMatches(kind: string, value: JSON) {
    match kind
    case "" => true
    case "any" => true
    case "object" => value.JObject?
    case "array" => value.JArray?
    case "string" => value.JString?
    case "boolean" => value.JBool?
    case "null" => value.JNull?
    case "integer" => value.JNumber? && IsInt64(value.x)
    case "number" => value.JNumber?
    case _ => false
  }

  datatype Problem = BadSchema | WrongType | NotAllowed | MissingProperty(name: string) | ExtraProperty(name: string)

  /** The value itself meets the constraints of the schema node, whatever lies inside it. */
  ghost predicate Conforms(raw: JSON, value: JSON) {
    && WellFormed(raw)
    && var node := Decode(raw).value;
       && TypeMatches(node.kind, value)
       && (node.allowed != [] ==> value in node.allowed)
       && (node.kind == "object" ==>
             && (forall name | name in node.required :: name in value.fields)
             && (node.closed ==> value.fields.Keys <= node.properties.Keys))
  }

  /** The schema that applies to the elements of an array value, if any. */
  function ItemSchema(raw: JSON): (items: Option<JSON>)
    ensures items.Some? ==> items.value < raw
  {
    if raw.JObject? && "items" in raw.fields then Some(raw.fields["items"]) else None
  }

  predicate IsKind(raw: JSON, kind: string) {
    Decode(raw).Some? && Decode(raw).value.kind == kind
  }

  /** The declarative meaning of a schema: properties and items apply under types object and array only. */
  ghost predicate Satisfies(raw: JSON, value: JSON) {
    && Conforms(raw, value)
    && (IsKind(raw, "object") ==>
          forall name | name in SubSchemas(raw) && name in value.fields ::
              Satisfies(SubSchemas(raw)[name], value.fields[name]))
    && (IsKind(raw, "array") && ItemSchema(raw).Some? ==>
          forall i | 0 <= i < |value.items| :: Satisfies(ItemSchema(raw).value, value.items[i]))
  }

  /** Somewhere on the way into the value, a schema that does not decode is met. */
  ghost predicate MeetsBadSchema(raw: JSON, value: JSON) {
    || !WellFormed(raw)
    || (IsKind(raw, "object") && value.JObject? &&
        exists name :: name in SubSchemas(raw) && name in value.fields
            && MeetsBadSchema(SubSchemas(raw)[name], value.fields[name]))
    || (IsKind(raw, "array") && value.JArray? && ItemSchema(raw).Some? &&
        exists i :: 0 <= i < |value.items| && MeetsBadSchema(ItemSchema(raw).value, value.items[i]))
  }

  /** Validation can get as far as a schema that does not decode: everything it passes on the way is in order. */
  ghost predicate Raises(raw: JSON, value: JSON) {
    || !WellFormed(raw)
    || (Conforms(raw, value) && IsKind(raw, "object") &&
        exists name :: name in SubSchemas(raw) && name in value.fields
            && Raises(SubSchemas(raw)[name], value.fields[name]))
    || (Conforms(raw, value) && IsKind(raw, "array") && ItemSchema(raw).Some? &&
        exists i :: 0 <= i < |value.items| && RaisesAt(ItemSchema(raw).value, value.items, i)
                    && Raises(ItemSchema(raw).value, value.items[i]))
  }

  /** Elements are visited in order, so those before i have to be in order. */
  ghost predicate RaisesAt(items: JSON, elements: seq<JSON>, i: nat)
    requires i < |elements|
    decreases items, 0
  {
    forall k | 0 <= k < i :: Satisfies(items, elements[k])
  }

  // ----- Validation

  /** A step from a value to a part of it. */
  datatype Step = Property(name: string) | Element(index: nat)

  /** The orders in which the runtime yields the members of an object and the properties of its schema, for each
      place that validation comes to. */
  datatype Order = Order(members: (seq<Step>, JSON, JSON) -> seq<string>,
                         properties: (seq<Step>, JSON, JSON) -> seq<string>)

  ghost predicate Lists(names: seq<string>, all: set<string>) {
    AllDifferent(names) && forall name :: name in names <==> name in all
  }

  ghost predicate ValidOrder(order: Order) {
    && (forall path, raw, value :: Lists(order.properties(path, raw, value), SubSchemas(raw).Keys))
    && (forall path, raw, value: JSON | value.JObject? ::
          Lists(order.members(path, raw, value), value.fields.Keys))
  }

  function FirstAbsent(names: seq<string>, known: set<string>): Option<string> {
    if names == [] then None
    else if names[0] in known then FirstAbsent(names[1..], known)
    else Some(names[0])
  }

  /** The problem validation reports when the runtime yields names in that order. */
  ghost function Outcome(raw: JSON, value: JSON, order: Order, path: seq<Step>): Option<Problem>
    decreases raw, 1
  {
    if !WellFormed(raw) then Some(BadSchema)
    else
      var node := Decode(raw).value;
      if !TypeMatches(node.kind, value) then Some(WrongType)
      else if node.allowed != [] && value !in node.allowed then Some(NotAllowed)
      else if node.kind == "object" then
        var shape := ShapeOutcome(node, value, order.members(path, raw, value));
        if shape.Some? then shape
        else PropertiesOutcome(raw, value, order.properties(path, raw, value), order, path)
      else if node.kind == "array" && ItemSchema(raw).Some? then
        ElementsOutcome(ItemSchema(raw).value, value.items, 0, order, path)
      else None
  }

  ghost function ShapeOutcome(node: Node, value: JSON, members: seq<string>): Option<Problem>
    requires value.JObject?
  {
    var missing := FirstAbsent(node.required, value.fields.Keys);
    var extra := if node.closed then FirstAbsent(members, node.properties.Keys) else None;
    if missing.Some? then Some(MissingProperty(missing.value))
    else if extra.Some? then Some(ExtraProperty(extra.value))
    else None
  }

  ghost function PropertiesOutcome(raw: JSON, value: JSON, names: seq<string>, order: Order, path: seq<Step>)
    : Option<Problem>
    requires value.JObject?
    decreases raw, 0, |names|
  {
    if names == [] then None
    else
      var name := names[0];
      var first := if name in SubSchemas(raw) && name in value.fields
                   then Outcome(SubSchemas(raw)[name], value.fields[name], order, path + [Property(name)]) else None;
      if first.Some? then first else PropertiesOutcome(raw, value, names[1..], order, path)
  }

  ghost function ElementsOutcome(items: JSON, elements: seq<JSON>, i: nat, order: Order, path: seq<Step>)
    : Option<Problem>
    requires i <= |elements|
    decreases items, 2, |elements| - i
  {
    if i == |elements| then None
    else
      var first := Outcome(items, elements[i], order, path + [Element(i)]);
      if first.Some? then first else ElementsOutcome(items, elements, i + 1, order, path)
  }

  method EnumContains(allowed: seq<JSON>, value: JSON) returns (found: bool)
    ensures found <==> value in allowed
  {
    for i := 0 to |allowed|
      invariant value !in allowed[..i]
    {
      if allowed[i] == value {
        return true;
      }
    }
    return false;
  }

  /** The problem reported may vary with the order in which names are yielded; whether there is one does not. */
  method ValidateValue(raw: JSON, value: JSON, order: Order, path: seq<Step>) returns (problem: Option<Problem>)
    requires ValidOrder(order)
    ensures problem == Outcome(raw, value, order, path)
    ensures problem.None? <==> Satisfies(raw, value)
    ensures problem == Some(BadSchema) ==> Raises(raw, value)
  {
    hide *;
    problem := Validate(raw, value, order, path);
    AcceptedIffSatisfies(raw, value, order, path);
    BadSchemaRaises(raw, value, order, path);
  }

  method Validate(raw: JSON, value: JSON, order: Order, path: seq<Step>) returns (problem: Option<Problem>)
    ensures problem == Outcome(raw, value, order, path)
    decreases raw, 1
  {
    hide WellFormed, DecodeFields, FieldsDecode, IsInt64, PropertiesOutcome, ElementsOutcome, ShapeOutcome;
    var decoded := UnmarshalSchema(raw);
    if decoded.None? {
      return Some(BadSchema);
    }
    var node := decoded.value;
    ItemsDecoded(raw);
    if !TypeMatches(node.kind, value) {
      return Some(WrongType);
    }
    if |node.allowed| > 0 {
      var found := EnumContains(node.allowed, value);
      if !found {
        return Some(NotAllowed);
      }
    }
    if node.kind == "object" {
      problem := CheckShape(node, value, order.members(path, raw, value));
      if problem.Some? {
        return;
      }
      problem := ValidateProperties(raw, value, order, path);
    } else if node.kind == "array" && node.items.Some? {
      problem := ValidateElements(node.items.value, value.items, order, path);
    } else {
      problem := None;
    }
  }

  lemma ItemsDecoded(raw: JSON)
    requires Decode(raw).Some?
    ensures Decode(raw).value.items == ItemSchema(raw)
  {
  }

  method CheckShape(node: Node, value: JSON, members: seq<string>) returns (problem: Option<Problem>)
    requires value.JObject?
    ensures problem == ShapeOutcome(node, value, members)
  {
    for n := 0 to |node.required|
      invariant FirstAbsent(node.required, value.fields.Keys) == FirstAbsent(node.required[n..], value.fields.Keys)
    {
      if node.required[n] !in value.fields {
        return Some(MissingProperty(node.required[n]));
      }
    }
    if node.closed {
      for n := 0 to |members|
        invariant FirstAbsent(members, node.properties.Keys) == FirstAbsent(members[n..], node.properties.Keys)
      {
        if members[n] !in node.properties {
          return Some(ExtraProperty(members[n]));
        }
      }
    }
    return None;
  }

  method ValidateProperties(raw: JSON, value: JSON, order: Order, path: seq<Step>) returns (problem: Option<Problem>)
    requires value.JObject?
    ensures problem == PropertiesOutcome(raw, value, order.properties(path, raw, value), order, path)
    decreases raw, 0
  {
    hide Outcome;
    var names, properties := order.properties(path, raw, value), SubSchemas(raw);
    for n := 0 to |names|
      invariant PropertiesOutcome(raw, value, names, order, path)
                == PropertiesOutcome(raw, value, names[n..], order, path)
    {
      var name := names[n];
      assert names[n..][0] == name && names[n..][1..] == names[n + 1..];
      if name !in properties || name !in value.fields {
        continue;
      }
      problem := Validate(properties[name], value.fields[name], order, path + [Property(name)]);
      if problem.Some? {
        return;
      }
    }
    return None;
  }

  method ValidateElements(items: JSON, elements: seq<JSON>, order: Order, path: seq<Step>)
    returns (problem: Option<Problem>)
    ensures problem == ElementsOutcome(items, elements, 0, order, path)
    decreases items, 2
  {
    hide Outcome;
    for i := 0 to |elements|
      invariant ElementsOutcome(items, elements, 0, order, path) == ElementsOutcome(items, elements, i, order, path)
    {
      problem := Validate(items, elements[i], order, path + [Element(i)]);
      if problem.Some? {
        return;
      }
    }
    return None;
  }

  // ----- In every order, exactly the values that satisfy the schema are accepted

  lemma {:induction false} FirstAbsentNone(names: seq<string>, known: set<string>)
    ensures FirstAbsent(names, known).None? <==> forall name | name in names :: name in known
  {
    if names != [] {
      FirstAbsentNone(names[1..], known);
      assert names == [names[0]] + names[1..];
    }
  }

  lemma ShapeNone(raw: JSON, value: JSON, order: Order, path: seq<Step>)
    requires ValidOrder(order) && WellFormed(raw) && IsKind(raw, "object") && value.JObject?
    ensures var node := Decode(raw).value;
            ShapeOutcome(node, value, order.members(path, raw, value)).None? <==>
              && (forall name | name in node.required :: name in value.fields)
              && (node.closed ==> value.fields.Keys <= node.properties.Keys)
  {
    hide WellFormed, Decode, FirstAbsent;
    var node, members := Decode(raw).value, order.members(path, raw, value);
    FirstAbsentNone(node.required, value.fields.Keys);
    FirstAbsentNone(members, node.properties.Keys);
    assert Lists(members, value.fields.Keys);
  }

  lemma {:induction false} AcceptedIffSatisfies(raw: JSON, value: JSON, order: Order, path: seq<Step>)
    requires ValidOrder(order)
    ensures Outcome(raw, value, order, path).None? <==> Satisfies(raw, value)
    decreases raw, 1
  {
    hide WellFormed, Decode, ValidOrder, ShapeOutcome, PropertiesOutcome, ElementsOutcome;
    if WellFormed(raw) {
      WellFormedDecodes(raw);
      if TypeMatches(Decode(raw).value.kind, value) {
        if IsKind(raw, "object") {
          ShapeNone(raw, value, order, path);
          var names := order.properties(path, raw, value);
          PropertiesListed(raw, value, order, path);
          PropertiesNone(raw, value, names, order, path);
        } else if IsKind(raw, "array") && ItemSchema(raw).Some? {
          ElementsNone(ItemSchema(raw).value, value.items, 0, order, path);
        }
      }
    }
  }

  lemma PropertiesListed(raw: JSON, value: JSON, order: Order, path: seq<Step>)
    requires ValidOrder(order)
    ensures forall name :: name in order.properties(path, raw, value) <==> name in SubSchemas(raw)
  {
    assert Lists(order.properties(path, raw, value), SubSchemas(raw).Keys);
  }

  lemma {:induction false} PropertiesNone(raw: JSON, value: JSON, names: seq<string>, order: Order, path: seq<Step>)
    requires ValidOrder(order) && value.JObject?
    ensures PropertiesOutcome(raw, value, names, order, path).None? <==>
              forall name | name in names && name in SubSchemas(raw) && name in value.fields ::
                  Satisfies(SubSchemas(raw)[name], value.fields[name])
    decreases raw, 0, |names|
  {
    hide Satisfies, Outcome, ValidOrder;
    if names != [] {
      var name := names[0];
      PropertiesNone(raw, value, names[1..], order, path);
      if name in SubSchemas(raw) && name in value.fields {
        AcceptedIffSatisfies(SubSchemas(raw)[name], value.fields[name], order, path + [Property(name)]);
      }
      assert names == [name] + names[1..];
    }
  }

  lemma {:induction false} ElementsNone(items: JSON, elements: seq<JSON>, i: nat, order: Order, path: seq<Step>)
    requires ValidOrder(order) && i <= |elements|
    ensures ElementsOutcome(items, elements, i, order, path).None? <==>
              forall k | i <= k < |elements| :: Satisfies(items, elements[k])
    decreases items, 2, |elements| - i
  {
    hide Satisfies, Outcome, ValidOrder;
    if i < |elements| {
      AcceptedIffSatisfies(items, elements[i], order, path + [Element(i)]);
      ElementsNone(items, elements, i + 1, order, path);
    }
  }

  lemma WellFormedDecodes(raw: JSON)
    requires WellFormed(raw)
    ensures Decode(raw).Some?
  {
  }

  // ----- A schema error means that validation got as far as a schema that does not decode

  lemma {:induction false} BadSchemaRaises(raw: JSON, value: JSON, order: Order, path: seq<Step>)
    requires ValidOrder(order)
    ensures Outcome(raw, value, order, path) == Some(BadSchema) ==> Raises(raw, value)
    decreases raw, 1
  {
    hide WellFormed, Decode, ValidOrder, PropertiesOutcome, ElementsOutcome;
    if WellFormed(raw) && Outcome(raw, value, order, path) == Some(BadSchema) {
      WellFormedDecodes(raw);
      if IsKind(raw, "object") {
        ShapeNone(raw, value, order, path);
        PropertiesBad(raw, value, order.properties(path, raw, value), order, path);
      } else {
        ElementsBad(ItemSchema(raw).value, value.items, 0, order, path);
      }
    }
  }

  lemma {:induction false} PropertiesBad(raw: JSON, value: JSON, names: seq<string>, order: Order, path: seq<Step>)
    requires ValidOrder(order) && value.JObject?
    requires PropertiesOutcome(raw, value, names, order, path) == Some(BadSchema)
    ensures exists name :: name in SubSchemas(raw) && name in value.fields
                && Raises(SubSchemas(raw)[name], value.fields[name])
    decreases raw, 0, |names|
  {
    hide Raises, Outcome, ValidOrder;
    var name := names[0];
    if name in SubSchemas(raw) && name in value.fields {
      BadSchemaRaises(SubSchemas(raw)[name], value.fields[name], order, path + [Property(name)]);
    }
    if PropertiesOutcome(raw, value, names[1..], order, path) == Some(BadSchema) {
      PropertiesBad(raw, value, names[1..], order, path);
    }
  }

  lemma {:induction false} ElementsBad(items: JSON, elements: seq<JSON>, i: nat, order: Order, path: seq<Step>)
    requires ValidOrder(order) && i <= |elements| && forall k | 0 <= k < i :: Satisfies(items, elements[k])
    requires ElementsOutcome(items, elements, i, order, path) == Some(BadSchema)
    ensures exists k :: 0 <= k < |elements| && RaisesAt(items, elements, k) && Raises(items, elements[k])
    decreases items, 2, |elements| - i
  {
    hide Raises, Outcome, ValidOrder, Satisfies;
    BadSchemaRaises(items, elements[i], order, path + [Element(i)]);
    AcceptedIffSatisfies(items, elements[i], order, path + [Element(i)]);
    if Outcome(items, elements[i], order, path + [Element(i)]).None? {
      ElementsBad(items, elements, i + 1, order, path);
    } else {
      assert RaisesAt(items, elements, i);
    }
  }
}
