/** What each keyword of a schema makes validation accept, from the raw schema on and in every order of names. */
module SchemaKeywords {
  import opened Results
  import opened ToolSchema

  /** Validation in that order finds nothing wrong. */
  ghost predicate Accepts(raw: JSON, value: JSON, order: Order) {
    Outcome(raw, value, order, []).None?
  }

  // ----- type

  function Typed(kind: string): JSON {
    JObject(map["type" := JString(kind)])
  }

  lemma TypedDecodes(kind: string)
    ensures WellFormed(Typed(kind)) && Decode(Typed(kind)) == Some(Node(kind, [], map[], false, None, []))
  {
    assert FieldsDecode(Typed(kind).fields);
    assert SubSchemas(Typed(kind)) == map[];
  }

  lemma TypedAccepts(kind: string, value: JSON, order: Order)
    requires ValidOrder(order)
    ensures Accepts(Typed(kind), value, order) <==> TypeMatches(kind, value)
  {
    hide Decode, WellFormed, Outcome, TypeMatches, ValidOrder;
    TypedDecodes(kind);
    AcceptedIffSatisfies(Typed(kind), value, order, []);
  }

  predicate IsWhole(x: real, n: int) {
    -0x8000_0000_0000_0000 <= n < 0x8000_0000_0000_0000 && x == n as real
  }

  /** Each of the nine type names accepts values of its JSON type and no others, and any other name accepts none;
      integers are the whole numbers of 64 bits. */
  lemma TypeKeyword(kind: string, value: JSON, order: Order)
    requires ValidOrder(order)
    ensures var accepted := Accepts(JObject(map["type" := JString(kind)]), value, order);
            && (kind == "" || kind == "any" ==> accepted)
            && (kind == "object" ==> (accepted <==> value.JObject?))
            && (kind == "array" ==> (accepted <==> value.JArray?))
            && (kind == "string" ==> (accepted <==> value.JString?))
            && (kind == "boolean" ==> (accepted <==> value.JBool?))
            && (kind == "null" ==> (accepted <==> value.JNull?))
            && (kind == "number" ==> (accepted <==> value.JNumber?))
            && (kind == "integer" ==> (accepted <==> value.JNumber? && exists n :: IsWhole(value.x, n)))
            && (kind !in ["", "any", "object", "array", "string", "boolean", "null", "number", "integer"] ==>
                  !accepted)
  {
    hide Accepts;
    TypedAccepts(kind, value, order);
    if value.JNumber? {
      WholeNumber(value.x);
    }
  }

  lemma WholeNumber(x: real)
    ensures IsInt64(x) <==> exists n :: IsWhole(x, n)
  {
    assert IsInt64(x) ==> IsWhole(x, x.Floor);
  }

  // ----- enum

  /** An enumeration accepts exactly its values, an empty one everything. */
  lemma EnumKeyword(values: seq<JSON>, value: JSON, order: Order)
    requires ValidOrder(order)
    ensures Accepts(JObject(map["enum" := JArray(values)]), value, order) <==> values == [] || value in values
  {
    hide Outcome, ValidOrder;
    var raw := JObject(map["enum" := JArray(values)]);
    assert FieldsDecode(raw.fields);
    assert SubSchemas(raw) == map[];
    AcceptedIffSatisfies(raw, value, order, []);
  }

  // ----- required

  function Strings(names: seq<string>): (all: seq<JSON>)
    ensures |all| == |names| && forall i | 0 <= i < |names| :: all[i] == JString(names[i])
  {
    seq(|names|, i requires 0 <= i < |names| => JString(names[i]))
  }

  /** An object has to have every required member. */
  lemma RequiredKeyword(names: seq<string>, value: JSON, order: Order)
    requires ValidOrder(order)
    ensures var raw := JObject(map["type" := JString("object"), "required" := JArray(Strings(names))]);
            Accepts(raw, value, order) <==> value.JObject? && forall name | name in names :: name in value.fields
  {
    hide Outcome, ValidOrder;
    var raw := JObject(map["type" := JString("object"), "required" := JArray(Strings(names))]);
    assert FieldsDecode(raw.fields);
    assert SubSchemas(raw) == map[];
    assert Decode(raw).value.required == names;
    AcceptedIffSatisfies(raw, value, order, []);
  }

  // ----- properties and additionalProperties

  function Closing(closed: JSON, properties: map<string, JSON>): JSON {
    JObject(map["type" := JString("object"), "properties" := JObject(properties), "additionalProperties" := closed])
  }

  lemma ClosingDecodes(closed: JSON, properties: map<string, JSON>)
    requires closed.JBool? || closed.JNull?
    ensures var raw := Closing(closed, properties);
            && Decode(raw) == Some(Node("object", [], properties, closed == JBool(false), None, []))
            && SubSchemas(raw) == properties
            && (WellFormed(raw) <==> forall name | name in properties :: WellFormed(properties[name]))
  {
    assert FieldsDecode(Closing(closed, properties).fields);
  }

  /** Members that have a property schema have to be accepted by it; other members are allowed unless
      additionalProperties is false. No object at all is accepted if some property schema is bad. */
  lemma PropertiesKeyword(properties: map<string, JSON>, closed: JSON, value: JSON, order: Order)
    requires ValidOrder(order) && (closed.JBool? || closed.JNull?)
    ensures var raw := JObject(map["type" := JString("object"), "properties" := JObject(properties),
                                   "additionalProperties" := closed]);
            Accepts(raw, value, order) <==>
              && value.JObject?
              && (closed == JBool(false) ==> forall name | name in value.fields :: name in properties)
              && (forall name | name in properties && name in value.fields ::
                    Accepts(properties[name], value.fields[name], order))
              && (forall name | name in properties :: WellFormed(properties[name]))
  {
    hide Outcome, ValidOrder, Decode, WellFormed;
    var raw := Closing(closed, properties);
    ClosingDecodes(closed, properties);
    AcceptedIffSatisfies(raw, value, order, []);
    if value.JObject? {
      forall name | name in properties && name in value.fields
        ensures Accepts(properties[name], value.fields[name], order) <==>
                Satisfies(properties[name], value.fields[name])
      {
        AcceptedIffSatisfies(properties[name], value.fields[name], order, []);
      }
    }
  }

  // ----- items

  /** Every element has to be accepted by the item schema, whatever that is. */
  lemma ItemsKeyword(items: JSON, value: JSON, order: Order)
    requires ValidOrder(order)
    ensures var raw := JObject(map["type" := JString("array"), "items" := items]);
            Accepts(raw, value, order) <==>
              value.JArray? && forall i | 0 <= i < |value.items| :: Accepts(items, value.items[i], order)
  {
    hide Outcome, ValidOrder;
    var raw := JObject(map["type" := JString("array"), "items" := items]);
    assert FieldsDecode(raw.fields);
    assert SubSchemas(raw) == map[];
    AcceptedIffSatisfies(raw, value, order, []);
    if value.JArray? {
      forall i | 0 <= i < |value.items|
        ensures Accepts(items, value.items[i], order) <==> Satisfies(items, value.items[i])
      {
        AcceptedIffSatisfies(items, value.items[i], order, []);
      }
    }
  }

  // ----- What a keyword may be given

  const KNOWN := ["type", "description", "required", "additionalProperties", "enum", "properties", "items"]

  /** Each keyword takes one JSON type, or null; items take anything, and no other keyword is known. */
  lemma KeywordGiven(keyword: string, given: JSON)
    ensures var ok := WellFormed(JObject(map[keyword := given]));
            && (keyword == "type" || keyword == "description" ==> (ok <==> given.JNull? || given.JString?))
            && (keyword == "required" ==>
                  (ok <==> given.JNull?
                           || (given.JArray? && forall e | e in given.items :: e.JNull? || e.JString?)))
            && (keyword == "additionalProperties" ==> (ok <==> given.JNull? || given.JBool?))
            && (keyword == "enum" ==> (ok <==> given.JNull? || given.JArray?))
            && (keyword == "properties" ==>
                  (ok <==> given.JNull?
                           || (given.JObject? && forall name | name in given.fields :: WellFormed(given.fields[name]))))
            && (keyword == "items" ==> ok)
            && (ok ==> keyword in KNOWN)
  {
    var raw := JObject(map[keyword := given]);
    assert keyword in Keys(raw) && Keys(raw) == {keyword};
    assert keyword != "properties" ==> SubSchemas(raw) == map[];
    if keyword == "properties" && given.JObject? {
      assert FieldsDecode(raw.fields) && SubSchemas(raw) == given.fields;
    }
  }

  /** A keyword that is null is as good as absent, and a null schema accepts everything, as does an empty one. */
  lemma NullKeyword(keyword: string, value: JSON, order: Order)
    requires ValidOrder(order)
    requires keyword in KNOWN
    ensures Accepts(JObject(map[keyword := JNull]), value, order)
    ensures Accepts(JObject(map[]), value, order) && Accepts(JNull, value, order)
  {
    hide Outcome, ValidOrder;
    var raw := JObject(map[keyword := JNull]);
    KeywordGiven(keyword, JNull);
    assert Keys(JNull) == {} && SubSchemas(JNull) == map[];
    assert FieldsDecode(map[]) && Keys(JObject(map[])) == {} && SubSchemas(JObject(map[])) == map[];
    assert SubSchemas(raw) == map[];
    AcceptedIffSatisfies(raw, value, order, []);
    AcceptedIffSatisfies(JObject(map[]), value, order, []);
    AcceptedIffSatisfies(JNull, value, order, []);
  }

  /** A null among the required names asks for the member with the empty name. */
  lemma RequiredNull(value: JSON, order: Order)
    requires ValidOrder(order)
    ensures var raw := JObject(map["type" := JString("object"), "required" := JArray([JNull])]);
            Accepts(raw, value, order) <==> value.JObject? && "" in value.fields
  {
    hide Outcome, ValidOrder;
    var raw := JObject(map["type" := JString("object"), "required" := JArray([JNull])]);
    assert FieldsDecode(raw.fields);
    assert SubSchemas(raw) == map[];
    assert Decode(raw).value.required == [""];
    AcceptedIffSatisfies(raw, value, order, []);
  }
}
