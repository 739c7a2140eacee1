/** What the validation of a reply's tool calls lets through, and what it reports, call by call. */
module CallChecks {
  import opened Text
  import opened Messages
  import opened AgentRun

  /** The call can be run by itself: it has an ID, the one supported type, a name that is not blank, and arguments
      that are blank or JSON. */
  ghost predicate Sound(call: ToolCall, validJson: string -> bool) {
    && call.id != ""
    && call.kind == "function"
    && !IsBlank(call.name)
    && (IsBlank(call.arguments) || validJson(TrimSpace(call.arguments)))
  }

  ghost predicate FreshId(calls: seq<ToolCall>, i: nat)
    requires i < |calls|
  {
    forall j | 0 <= j < i :: calls[j].id != calls[i].id
  }

  /** What each error says about the call it is reported for. */
  ghost predicate Offends(calls: seq<ToolCall>, i: nat, error: CallError, validJson: string -> bool)
    requires i < |calls|
  {
    var call := calls[i];
    match error
    case NoId => call.id == ""
    case DuplicateId(id) => id == call.id != "" && !FreshId(calls, i)
    case UnsupportedType(kind) => kind == call.kind != "function" && call.id != ""
    case NoName(id) => id == call.id != "" && IsBlank(call.name) && call.kind == "function"
    case BadArguments(id) =>
      && id == call.id != "" && call.kind == "function" && !IsBlank(call.name)
      && !IsBlank(call.arguments) && !validJson(TrimSpace(call.arguments))
  }

  lemma ProblemIff(calls: seq<ToolCall>, i: nat, validJson: string -> bool)
    requires i < |calls|
    ensures CallProblem(calls, i, validJson).None? <==> Sound(calls[i], validJson) && FreshId(calls, i)
    ensures CallProblem(calls, i, validJson).Some? ==>
              Offends(calls, i, CallProblem(calls, i, validJson).value, validJson)
  {
    hide TrimSpace, IsBlank;
    var left, right := TrimSpaceSplits(calls[i].name);
    left, right := TrimSpaceSplits(calls[i].arguments);
  }

  /** The calls of a reply are run if and only if each is sound and their IDs are distinct. */
  lemma AcceptedIffSound(calls: seq<ToolCall>, validJson: string -> bool)
    ensures CallsAccepted(calls, validJson) <==>
              && (forall i | 0 <= i < |calls| :: Sound(calls[i], validJson))
              && (forall i, j | 0 <= i < j < |calls| :: calls[i].id != calls[j].id)
  {
    hide CallProblem, Sound;
    forall i | 0 <= i < |calls|
      ensures CallProblem(calls, i, validJson).None? <==> Sound(calls[i], validJson) && FreshId(calls, i)
    {
      ProblemIff(calls, i, validJson);
    }
    if CallsAccepted(calls, validJson) {
      forall i, j | 0 <= i < j < |calls|
        ensures calls[i].id != calls[j].id
      {
        assert FreshId(calls, j);
      }
    }
  }

  /** Otherwise the first call that cannot be run is reported, with what is wrong with it. */
  lemma {:induction false} FirstOffence(calls: seq<ToolCall>, from: nat, validJson: string -> bool) returns (i: nat)
    requires from <= |calls| && FirstProblem(calls, from, validJson).Some?
    ensures from <= i < |calls| && Offends(calls, i, FirstProblem(calls, from, validJson).value, validJson)
    ensures forall j | from <= j < i :: Sound(calls[j], validJson) && FreshId(calls, j)
    decreases |calls| - from
  {
    hide CallProblem, Sound, Offends, FreshId;
    ProblemIff(calls, from, validJson);
    if CallProblem(calls, from, validJson).Some? {
      i := from;
    } else {
      i := FirstOffence(calls, from + 1, validJson);
    }
  }
}
