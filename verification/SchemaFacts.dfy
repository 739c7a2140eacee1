/** What schemas mean at every location of a value, and when validating a value can fail on a schema. */
module SchemaFacts {
  import opened Results
  import opened ToolSchema

  // ----- The meaning, location by location

  /** The schema and the value found at the end of a path, if the schema leads there. */
  ghost function Follow(raw: JSON, value: JSON, path: seq<Step>): Option<(JSON, JSON)> {
    if path == [] then Some((raw, value))
    else
      match path[0]
      case Property(name) =>
        if IsKind(raw, "object") && value.JObject? && name in SubSchemas(raw) && name in value.fields
        then Follow(SubSchemas(raw)[name], value.fields[name], path[1..]) else None
      case Element(i) =>
        if IsKind(raw, "array") && value.JArray? && ItemSchema(raw).Some? && i < |value.items|
        then Follow(ItemSchema(raw).value, value.items[i], path[1..]) else None
  }

  ghost predicate ConformsAt(raw: JSON, value: JSON, path: seq<Step>) {
    Follow(raw, value, path).None? || Conforms(Follow(raw, value, path).value.0, Follow(raw, value, path).value.1)
  }

  lemma {:induction false} SatisfiesAt(raw: JSON, value: JSON, path: seq<Step>)
    requires Satisfies(raw, value)
    ensures ConformsAt(raw, value, path)
    decreases |path|
  {
    hide Conforms, Decode;
    if path != [] && Follow(raw, value, path).Some? {
      match path[0]
      case Property(name) => SatisfiesAt(SubSchemas(raw)[name], value.fields[name], path[1..]);
      case Element(i) => SatisfiesAt(ItemSchema(raw).value, value.items[i], path[1..]);
    }
  }

  /** Where a value that does not satisfy its schema is at fault. */
  lemma {:induction false} FaultAt(raw: JSON, value: JSON) returns (path: seq<Step>)
    requires !Satisfies(raw, value)
    ensures !ConformsAt(raw, value, path)
    decreases raw
  {
    hide WellFormed, Decode;
    if !Conforms(raw, value) {
      path := [];
    } else if IsKind(raw, "object") &&
              exists name :: name in SubSchemas(raw) && name in value.fields
                  && !Satisfies(SubSchemas(raw)[name], value.fields[name])
    {
      var name :| name in SubSchemas(raw) && name in value.fields
          && !Satisfies(SubSchemas(raw)[name], value.fields[name]);
      var rest := FaultAt(SubSchemas(raw)[name], value.fields[name]);
      path := [Property(name)] + rest;
      assert path[1..] == rest;
    } else {
      var i: nat :| i < |value.items| && !Satisfies(ItemSchema(raw).value, value.items[i]);
      var rest := FaultAt(ItemSchema(raw).value, value.items[i]);
      path := [Element(i)] + rest;
      assert path[1..] == rest;
    }
  }

  /** A value is accepted if and only if it conforms at every location its schema reaches. */
  lemma AcceptedIffConformsEverywhere(raw: JSON, value: JSON)
    ensures Satisfies(raw, value) <==> forall path :: ConformsAt(raw, value, path)
  {
    hide Satisfies, ConformsAt;
    if Satisfies(raw, value) {
      forall path: seq<Step>
        ensures ConformsAt(raw, value, path)
      {
        SatisfiesAt(raw, value, path);
      }
    } else {
      var path := FaultAt(raw, value);
    }
  }

  // ----- Schema errors while validating

  /** The value has an element under an item schema that does not decode. */
  ghost predicate BadItemsReached(raw: JSON, value: JSON) {
    || (IsKind(raw, "array") && value.JArray? && value.items != [] && ItemSchema(raw).Some?
        && !WellFormed(ItemSchema(raw).value))
    || (IsKind(raw, "array") && value.JArray? && ItemSchema(raw).Some? &&
        exists i :: 0 <= i < |value.items| && BadItemsReached(ItemSchema(raw).value, value.items[i]))
    || (IsKind(raw, "object") && value.JObject? &&
        exists name :: name in SubSchemas(raw) && name in value.fields
            && BadItemsReached(SubSchemas(raw)[name], value.fields[name]))
  }

  /** Under a schema that registration accepts, only item schemas can turn out bad. */
  lemma {:induction false} OnlyItemsAreBad(raw: JSON, value: JSON)
    requires WellFormed(raw)
    ensures MeetsBadSchema(raw, value) <==> BadItemsReached(raw, value)
    decreases raw
  {
    hide Decode;
    if value.JObject? {
      forall name | name in SubSchemas(raw) && name in value.fields
        ensures MeetsBadSchema(SubSchemas(raw)[name], value.fields[name]) <==>
                BadItemsReached(SubSchemas(raw)[name], value.fields[name])
      {
        OnlyItemsAreBad(SubSchemas(raw)[name], value.fields[name]);
      }
    }
    if value.JArray? && ItemSchema(raw).Some? {
      var items := ItemSchema(raw).value;
      if WellFormed(items) {
        forall i | 0 <= i < |value.items|
          ensures MeetsBadSchema(items, value.items[i]) <==> BadItemsReached(items, value.items[i])
        {
          OnlyItemsAreBad(items, value.items[i]);
        }
      } else if value.items != [] {
        assert MeetsBadSchema(items, value.items[0]);
      }
    }
  }

  /** A value that meets a bad schema is never accepted. */
  lemma {:induction false} BadSchemaRejects(raw: JSON, value: JSON)
    requires MeetsBadSchema(raw, value)
    ensures !Satisfies(raw, value)
    decreases raw
  {
    hide Decode, WellFormed;
    if Satisfies(raw, value) {
      if IsKind(raw, "object") {
        forall name | name in SubSchemas(raw) && name in value.fields
          ensures !MeetsBadSchema(SubSchemas(raw)[name], value.fields[name])
        {
          if MeetsBadSchema(SubSchemas(raw)[name], value.fields[name]) {
            BadSchemaRejects(SubSchemas(raw)[name], value.fields[name]);
          }
        }
      }
      if IsKind(raw, "array") && ItemSchema(raw).Some? {
        forall i | 0 <= i < |value.items|
          ensures !MeetsBadSchema(ItemSchema(raw).value, value.items[i])
        {
          if MeetsBadSchema(ItemSchema(raw).value, value.items[i]) {
            BadSchemaRejects(ItemSchema(raw).value, value.items[i]);
          }
        }
      }
    }
  }

  lemma {:induction false} RaisesMeets(raw: JSON, value: JSON)
    requires Raises(raw, value)
    ensures MeetsBadSchema(raw, value)
    decreases raw
  {
    hide WellFormed, Decode, Satisfies;
    if WellFormed(raw) {
      if IsKind(raw, "object") {
        var name :| name in SubSchemas(raw) && name in value.fields
            && Raises(SubSchemas(raw)[name], value.fields[name]);
        RaisesMeets(SubSchemas(raw)[name], value.fields[name]);
      } else {
        var i: nat :| i < |value.items| && Raises(ItemSchema(raw).value, value.items[i]);
        RaisesMeets(ItemSchema(raw).value, value.items[i]);
      }
    }
  }

  // ----- An order in which the schema error is reported

  ghost function Listing(names: set<string>): (all: seq<string>)
    ensures Lists(all, names)
  {
    if names == {} then []
    else
      var name :| name in names;
      [name] + Listing(names - {name})
  }

  /** The property schemas, one that can raise a schema error first. */
  ghost function RaisingFirst(raw: JSON, value: JSON): (names: seq<string>)
    ensures Lists(names, SubSchemas(raw).Keys)
    ensures value.JObject? ==>
              forall name | name in SubSchemas(raw) && name in value.fields
                    && Raises(SubSchemas(raw)[name], value.fields[name]) ::
                  names != [] && names[0] in value.fields && Raises(SubSchemas(raw)[names[0]], value.fields[names[0]])
  {
    var all := SubSchemas(raw).Keys;
    if value.JObject? && exists name ::
        name in SubSchemas(raw) && name in value.fields && Raises(SubSchemas(raw)[name], value.fields[name])
    then
      var name :| name in SubSchemas(raw) && name in value.fields && Raises(SubSchemas(raw)[name], value.fields[name]);
      [name] + Listing(all - {name})
    else Listing(all)
  }

  ghost function RaisingOrder(): (order: Order)
    ensures ValidOrder(order)
  {
    Order((path, raw, value: JSON) => if value.JObject? then Listing(value.fields.Keys) else [],
          (path, raw, value) => RaisingFirst(raw, value))
  }

  lemma {:induction false} RaisedInOrder(raw: JSON, value: JSON, path: seq<Step>)
    requires Raises(raw, value)
    ensures Outcome(raw, value, RaisingOrder(), path) == Some(BadSchema)
    decreases raw, 1
  {
    hide WellFormed, Decode, ShapeOutcome, Satisfies, ElementsOutcome, RaisesAt;
    var order := RaisingOrder();
    if WellFormed(raw) {
      if IsKind(raw, "object") {
        ShapeNone(raw, value, order, path);
        var name := order.properties(path, raw, value)[0];
        RaisedInOrder(SubSchemas(raw)[name], value.fields[name], path + [Property(name)]);
      } else {
        var items := ItemSchema(raw).value;
        var i: nat :| i < |value.items| && RaisesAt(items, value.items, i) && Raises(items, value.items[i]);
        RaisedInOrder(items, value.items[i], path + [Element(i)]);
        ElementsRaised(items, value.items, 0, i, path);
      }
    }
  }

  lemma {:induction false} ElementsRaised(items: JSON, elements: seq<JSON>, k: nat, i: nat, path: seq<Step>)
    requires k <= i < |elements| && RaisesAt(items, elements, i)
    requires Outcome(items, elements[i], RaisingOrder(), path + [Element(i)]) == Some(BadSchema)
    ensures ElementsOutcome(items, elements, k, RaisingOrder(), path) == Some(BadSchema)
    decreases i - k
  {
    hide Outcome, Satisfies;
    if k < i {
      AcceptedIffSatisfies(items, elements[k], RaisingOrder(), path + [Element(k)]);
      ElementsRaised(items, elements, k + 1, i, path);
    }
  }

  /** Validation can get to a bad schema exactly if it does so in some order. */
  lemma RaisesIffReported(raw: JSON, value: JSON, path: seq<Step>)
    ensures Raises(raw, value) <==>
              exists order :: ValidOrder(order) && Outcome(raw, value, order, path) == Some(BadSchema)
  {
    hide Raises, Outcome, ValidOrder;
    if Raises(raw, value) {
      RaisedInOrder(raw, value, path);
    } else {
      forall order | ValidOrder(order)
        ensures Outcome(raw, value, order, path) != Some(BadSchema)
      {
        BadSchemaRaises(raw, value, order, path);
      }
    }
  }

  // ----- Which schemas can raise a schema error at all

  /** Decided by the schema alone: an enumeration leaves only its own values to try; otherwise an object gets to
      its properties unless it is closed without room for a required name, and an array to its items. */
  ghost predicate CanRaise(raw: JSON) {
    || !WellFormed(raw)
    || var node := Decode(raw).value;
       if node.allowed != [] then exists v :: v in node.allowed && Raises(raw, v)
       else if node.kind == "object" then
         && (node.closed ==> forall name | name in node.required :: name in node.properties)
         && exists name :: name in SubSchemas(raw) && CanRaise(SubSchemas(raw)[name])
       else node.kind == "array" && ItemSchema(raw).Some? && CanRaise(ItemSchema(raw).value)
  }

  lemma {:induction false} RaisingValue(raw: JSON) returns (value: JSON)
    requires CanRaise(raw)
    ensures Raises(raw, value)
    decreases raw
  {
    hide WellFormed, Decode, Satisfies;
    if !WellFormed(raw) {
      value := JNull;
    } else {
      WellFormedDecodes(raw);
      var node := Decode(raw).value;
      if node.allowed != [] {
        value :| value in node.allowed && Raises(raw, value);
      } else if node.kind == "object" {
        var name :| name in SubSchemas(raw) && CanRaise(SubSchemas(raw)[name]);
        var inner := RaisingValue(SubSchemas(raw)[name]);
        value := JObject((map n | n in node.required :: JNull)[name := inner]);
        assert Conforms(raw, value);
      } else {
        var inner := RaisingValue(ItemSchema(raw).value);
        value := JArray([inner]);
        assert RaisesAt(ItemSchema(raw).value, value.items, 0) && value.items[0] == inner;
        assert Conforms(raw, value);
      }
    }
  }

  lemma {:induction false} RaisedCanRaise(raw: JSON, value: JSON)
    requires Raises(raw, value)
    ensures CanRaise(raw)
    decreases raw
  {
    hide WellFormed, Decode, Satisfies;
    if WellFormed(raw) && Decode(raw).value.allowed == [] {
      if IsKind(raw, "object") {
        var name :| name in SubSchemas(raw) && name in value.fields
            && Raises(SubSchemas(raw)[name], value.fields[name]);
        RaisedCanRaise(SubSchemas(raw)[name], value.fields[name]);
      } else {
        var i: nat :| i < |value.items| && Raises(ItemSchema(raw).value, value.items[i]);
        RaisedCanRaise(ItemSchema(raw).value, value.items[i]);
      }
    }
  }

  /** A registrant can tell from the schema whether any input will ever run into a schema error, in some order. */
  lemma SomeValueRaisesIff(raw: JSON)
    ensures CanRaise(raw) <==>
              exists value, order :: ValidOrder(order) && Outcome(raw, value, order, []) == Some(BadSchema)
  {
    hide CanRaise, Raises, Outcome, ValidOrder;
    if CanRaise(raw) {
      var value := RaisingValue(raw);
      RaisesIffReported(raw, value, []);
    } else {
      forall value, order | ValidOrder(order)
        ensures Outcome(raw, value, order, []) != Some(BadSchema)
      {
        BadSchemaRaises(raw, value, order, []);
        if Raises(raw, value) {
          RaisedCanRaise(raw, value);
        }
      }
    }
  }
}
