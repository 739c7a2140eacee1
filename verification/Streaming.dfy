/** Model of the delta-folding loop and of orderedToolCalls (internal/provider/provider.go), over decoded lines. */
module Streaming {
  import opened Results
  import opened Text
  import opened Messages
  import opened Collections
  import opened Sorting
  import opened StreamEvents

  /** The pieces of one call, in arrival order. */
  ghost function Project(fragments: seq<Fragment>, index: int): seq<ToolCall> {
    if fragments == [] then []
    else
      var last := fragments[|fragments| - 1];
      Project(fragments[..|fragments| - 1], index) + if last.index == index then [last.piece] else []
  }

  /** The pieces joined: the first non-empty ID, type and name, and all the arguments. */
  ghost function Join(pieces: seq<ToolCall>): ToolCall {
    if pieces == [] then ToolCall("", "", "", "")
    else Extend(Join(pieces[..|pieces| - 1]), pieces[|pieces| - 1])
  }

  function Extend(call: ToolCall, piece: ToolCall): ToolCall {
    ToolCall(FirstNonEmpty(call.id, piece.id), FirstNonEmpty(call.kind, piece.kind),
             FirstNonEmpty(call.name, piece.name), call.arguments + piece.arguments)
  }

  function Completed(call: ToolCall): ToolCall {
    if call.kind == "" then call.(kind := "function") else call
  }

  ghost predicate Increasing(s: seq<int>) {
    forall i, j | 0 <= i < j < |s| :: s[i] < s[j]
  }

  ghost function InsertLabel(labels: seq<int>, x: int): seq<int> {
    if labels == [] then [x]
    else if x < labels[0] then [x] + labels
    else if x == labels[0] then labels
    else [labels[0]] + InsertLabel(labels[1..], x)
  }

  /** The indexes that occur, in increasing order. */
  ghost function Labels(fragments: seq<Fragment>): seq<int> {
    if fragments == [] then []
    else InsertLabel(Labels(fragments[..|fragments| - 1]), fragments[|fragments| - 1].index)
  }

  /** The calls of a stream: one for each index that occurs, in increasing order of index. */
  ghost function Calls(fragments: seq<Fragment>): seq<ToolCall> {
    var labels := Labels(fragments);
    seq(|labels|, k requires 0 <= k < |labels| => Completed(Join(Project(fragments, labels[k]))))
  }

  lemma {:induction false} LabelInserted(labels: seq<int>, x: int)
    requires Increasing(labels)
    ensures Increasing(InsertLabel(labels, x))
    ensures forall i :: i in InsertLabel(labels, x) <==> i in labels || i == x
  {
    if labels != [] {
      LabelInserted(labels[1..], x);
      assert labels == [labels[0]] + labels[1..];
      var rest := InsertLabel(labels[1..], x);
      assert forall k | 0 <= k < |rest| :: rest[k] in rest && (rest[k] in labels[1..] || rest[k] == x);
    }
  }

  lemma {:induction false} LabelsOccur(fragments: seq<Fragment>)
    ensures Increasing(Labels(fragments))
    ensures forall i :: i in Labels(fragments) <==> Project(fragments, i) != []
  {
    hide InsertLabel;
    if fragments != [] {
      var front := fragments[..|fragments| - 1];
      LabelsOccur(front);
      LabelInserted(Labels(front), fragments[|fragments| - 1].index);
    }
  }

  /** An increasing sequence is determined by its elements. */
  lemma {:induction false} SameLabels(a: seq<int>, b: seq<int>)
    requires Increasing(a) && Increasing(b) && forall i :: i in a <==> i in b
    ensures a == b
  {
    FirstMember(a);
    FirstMember(b);
    if a != [] && b != [] {
      var m, n := |a| - 1, |b| - 1;
      assert a[m] in b && b[n] in a;
      assert a[m] == b[n];
      forall i: int
        ensures i in a[..m] <==> i in b[..n]
      {
        FrontMember(a, i);
        FrontMember(b, i);
      }
      SameLabels(a[..m], b[..n]);
      assert a == a[..m] + [a[m]] && b == b[..n] + [b[n]];
    }
  }

  lemma FirstMember(s: seq<int>)
    ensures s != [] ==> s[0] in s
  {
  }

  lemma FrontMember(s: seq<int>, i: int)
    requires Increasing(s) && s != []
    ensures i in s[..|s| - 1] <==> i in s && i != s[|s| - 1]
  {
    assert s == s[..|s| - 1] + [s[|s| - 1]];
  }

  // ----- The loop

  ghost predicate Collects(calls: map<int, ToolCall>, fragments: seq<Fragment>) {
    && (forall i :: i in calls <==> Project(fragments, i) != [])
    && (forall i | i in calls :: calls[i] == Join(Project(fragments, i)))
  }

  /** Everything received so far, as the loop keeps it. */
  ghost predicate Folded(result: ChatResult, calls: map<int, ToolCall>, delivered: seq<string>, events: seq<Event>) {
    && delivered == Texts(events)
    && result.content == Concat(delivered)
    && result.model == LastModel(events)
    && result.finishReason == LastFinish(events)
    && result.usage == LastUsage(events)
    && Collects(calls, AllFragments(events))
  }

  method Aggregate(lines: seq<Line>, accepts: (nat, string) -> bool, readError: bool)
    returns (r: Result<ChatResult, StreamError>, delivered: seq<string>)
    ensures delivered == Consumed(lines, accepts, 0).1
    ensures var (events, texts, stop) := Consumed(lines, accepts, 0);
            match r
            case Failure(DecodeFailed) => stop == BadLine
            case Failure(DeliveryFailed) => stop == Refused
            case Failure(ReadFailed) => stop == Ended && readError
            case Success(result) =>
              && stop == Ended && !readError
              && delivered == Texts(events)
              && result.content == Concat(delivered)
              && result.model == LastModel(events)
              && result.finishReason == LastFinish(events)
              && result.usage == LastUsage(events)
              && result.calls == Calls(AllFragments(events))
    ensures match r
            case Success(result) => exists m: nat ::
              && m <= |lines| && ReadUpTo(lines, m) && (m < |lines| ==> lines[m].EndOfStream?)
              && Reported(lines, m, result, delivered)
              && result.calls == Calls(FragmentsIn(lines[..m]))
            case Failure(DecodeFailed) => exists m: nat :: m < |lines| && ReadUpTo(lines, m) && lines[m].Malformed?
            case Failure(DeliveryFailed) => exists m: nat ::
              && m < |lines| && ReadUpTo(lines, m) && CarriesText(lines[m])
              && delivered == TextsIn(lines[..m]) + [lines[m].event.choices[0].content]
              && !accepts(|delivered| - 1, lines[m].event.choices[0].content)
            case Failure(ReadFailed) => readError
  {
    hide Reported, ReadUpTo, CarriesText, FragmentsIn, TextsIn, StoppedAt, EventsIn, Folded, Texts, Concat, LastModel,
         LastFinish, LastUsage, AllFragments, Collects, Calls;
    var result, toolCalls := ChatResult("", "", "", Usage(0, 0, 0), []), map[];
    delivered := [];
    ghost var events: seq<Event> := [];
    LoopEnds(lines, accepts, [], []);
    ghost var m := ConsumedIn(lines, accepts, 0);
    StopMeans(lines, m, accepts, Consumed(lines, accepts, 0));
    var n := 0;
    assert lines[0..] == lines;
    while n < |lines|
      invariant 0 <= n <= |lines|
      invariant Folded(result, toolCalls, delivered, events)
      invariant Prepend(events, delivered, Consumed(lines[n..], accepts, |delivered|)) == Consumed(lines, accepts, 0)
    {
      var line := lines[n];
      PrependStep(events, delivered, lines, n, accepts);
      if line.EndOfStream? {
        break;
      }
      n := n + 1;
      if line.Ignored? {
        continue;
      }
      if line.Malformed? {
        return Failure(DecodeFailed), delivered;
      }
      var event := line.event;
      ghost var was, wasCalls, earlier := result, toolCalls, delivered;
      FoldedParts(was, wasCalls, earlier, events);
      assert AllFragments(events) + [] == AllFragments(events) && was.content + "" == was.content;
      if event.model != "" {
        result := result.(model := event.model);
      }
      if event.usage.Some? {
        result := result.(usage := event.usage.value);
      }
      if |event.choices| == 0 {
        FoldedMore(was, wasCalls, delivered, events, event, toolCalls);
        events := events + [event];
        continue;
      }
      var choice := event.choices[0];
      if choice.finishReason != "" {
        result := result.(finishReason := choice.finishReason);
      }
      if choice.content != "" {
        result := result.(content := result.content + choice.content);
        delivered := delivered + [choice.content];
        if !accepts(|delivered| - 1, choice.content) {
          return Failure(DeliveryFailed), delivered;
        }
      }
      toolCalls := FoldFragments(toolCalls, choice.fragments, AllFragments(events));
      FoldedMore(was, wasCalls, earlier, events, event, toolCalls);
      events := events + [event];
    }
    if n == |lines| {
      LoopEnds(lines, accepts, events, delivered);
    }
    if readError {
      return Failure(ReadFailed), delivered;
    }
    FoldedParts(result, toolCalls, delivered, events);
    var calls := OrderedToolCalls(toolCalls, AllFragments(events));
    result := result.(calls := calls);
    ReportedIn(lines, m, result, delivered);
    return Success(result), delivered;
  }

  ghost function Prepend(events: seq<Event>, texts: seq<string>, rest: (seq<Event>, seq<string>, Stop))
    : (seq<Event>, seq<string>, Stop)
  {
    (events + rest.0, texts + rest.1, rest.2)
  }

  /** The two ends of the loop. */
  lemma LoopEnds(lines: seq<Line>, accepts: (nat, string) -> bool, events: seq<Event>, texts: seq<string>)
    ensures Folded(ChatResult("", "", "", Usage(0, 0, 0), []), map[], [], [])
    ensures Prepend([], [], Consumed(lines, accepts, 0)) == Consumed(lines, accepts, 0)
    ensures Prepend(events, texts, Consumed([], accepts, |texts|)) == (events, texts, Ended)
  {
    var all := Consumed(lines, accepts, 0);
    assert [] + all.0 == all.0 && [] + all.1 == all.1;
    assert events + [] == events && texts + [] == texts;
  }

  lemma FoldedParts(result: ChatResult, calls: map<int, ToolCall>, delivered: seq<string>, events: seq<Event>)
    requires Folded(result, calls, delivered, events)
    ensures && delivered == Texts(events) && result.content == Concat(delivered)
            && result.model == LastModel(events) && result.finishReason == LastFinish(events)
                && result.usage == LastUsage(events)
            && Collects(calls, AllFragments(events))
  {
  }

  /** What reading one more line leaves to be read. */
  lemma PrependStep(events: seq<Event>, texts: seq<string>, lines: seq<Line>, n: nat, accepts: (nat, string) -> bool)
    requires n < |lines|
    ensures var rest, next := Consumed(lines[n..], accepts, |texts|), lines[n + 1..];
            match lines[n]
            case EndOfStream => Prepend(events, texts, rest) == (events, texts, Ended)
            case Ignored => rest == Consumed(next, accepts, |texts|)
            case Malformed => Prepend(events, texts, rest) == (events, texts, BadLine)
            case Data(event) =>
              var text := TextOf(event);
              if text == ""
              then Prepend(events, texts, rest)
                  == Prepend(events + [event], texts, Consumed(next, accepts, |texts|))
              else if accepts(|texts|, text)
              then Prepend(events, texts, rest)
                  == Prepend(events + [event], texts + [text], Consumed(next, accepts, |texts| + 1))
              else Prepend(events, texts, rest) == (events, texts + [text], Refused)
  {
    assert lines[n..][1..] == lines[n + 1..] && lines[n..][0] == lines[n];
    assert events + [] == events && texts + [] == texts;
    if lines[n].Data? {
      var event := lines[n].event;
      var text := TextOf(event);
      var tail := Consumed(lines[n + 1..], accepts, if text == "" then |texts| else |texts| + 1);
      assert events + ([event] + tail.0) == (events + [event]) + tail.0;
      assert texts + ([text] + tail.1) == (texts + [text]) + tail.1;
      assert [] + tail.1 == tail.1;
    }
  }

  lemma FoldedMore(result: ChatResult, calls: map<int, ToolCall>, delivered: seq<string>, events: seq<Event>,
                   event: Event,
                   calls': map<int, ToolCall>)
    requires Folded(result, calls, delivered, events)
    requires Collects(calls', AllFragments(events) + FragmentsOf(event))
    ensures var text := TextOf(event);
            var delivered' := if text == "" then delivered else delivered + [text];
            var result' := ChatResult(result.content + text, FirstNonEmpty(event.model, result.model),
                                      FirstNonEmpty(FinishOf(event), result.finishReason),
                                      if event.usage.Some? then event.usage.value else result.usage, result.calls);
            Folded(result', calls', delivered', events + [event])
  {
    hide Collects, Texts, Concat, AllFragments, LastModel, LastFinish, LastUsage, TextOf, FinishOf, FragmentsOf;
    EventSnoc(events, event);
    ConcatSnoc(delivered, TextOf(event));
    assert delivered + [] == delivered && result.content + "" == result.content;
  }

  lemma ConcatSnoc(parts: seq<string>, part: string)
    ensures Concat(parts + [part]) == Concat(parts) + part
  {
    assert (parts + [part])[..|parts|] == parts;
  }

  /** The inner loop over the tool-call fragments of one event. */
  method FoldFragments(toolCalls: map<int, ToolCall>, fragments: seq<Fragment>, ghost earlier: seq<Fragment>)
    returns (calls: map<int, ToolCall>)
    requires Collects(toolCalls, earlier)
    ensures Collects(calls, earlier + fragments)
  {
    hide Collects, FirstNonEmpty;
    calls := toolCalls;
    assert earlier + fragments[..0] == earlier;
    for n := 0 to |fragments|
      invariant Collects(calls, earlier + fragments[..n])
    {
      var index, piece := fragments[n].index, fragments[n].piece;
      var existing := if index in calls then calls[index] else ToolCall("", "", "", "");
      CollectsMore(calls, earlier + fragments[..n], fragments[n]);
      assert earlier + fragments[..n + 1] == earlier + fragments[..n] + [fragments[n]];
      existing := existing.(id := FirstNonEmpty(existing.id, piece.id));
      existing := existing.(kind := FirstNonEmpty(existing.kind, piece.kind));
      existing := existing.(name := FirstNonEmpty(existing.name, piece.name));
      existing := existing.(arguments := existing.arguments + piece.arguments);
      calls := calls[index := existing];
    }
    assert fragments[..|fragments|] == fragments;
  }

  lemma CollectsMore(calls: map<int, ToolCall>, fragments: seq<Fragment>, f: Fragment)
    requires Collects(calls, fragments)
    ensures var existing := if f.index in calls then calls[f.index] else ToolCall("", "", "", "");
            Collects(calls[f.index := Extend(existing, f.piece)], fragments + [f])
  {
    hide Extend;
    var existing := if f.index in calls then calls[f.index] else ToolCall("", "", "", "");
    var more := calls[f.index := Extend(existing, f.piece)];
    forall i: int
      ensures i in more <==> Project(fragments + [f], i) != []
      ensures i in more ==> more[i] == Join(Project(fragments + [f], i))
    {
      ProjectSnoc(fragments, f, i);
      JoinSnoc(Project(fragments, i), f.piece);
    }
  }

  lemma ProjectSnoc(fragments: seq<Fragment>, f: Fragment, i: int)
    ensures Project(fragments + [f], i) ==
              if f.index == i then Project(fragments, i) + [f.piece] else Project(fragments, i)
  {
    assert (fragments + [f])[..|fragments|] == fragments;
    assert Project(fragments, i) + [] == Project(fragments, i);
  }

  lemma JoinSnoc(pieces: seq<ToolCall>, piece: ToolCall)
    ensures Join(pieces + [piece]) == Extend(Join(pieces), piece)
  {
    assert (pieces + [piece])[..|pieces|] == pieces;
  }

  method OrderedToolCalls(calls: map<int, ToolCall>, ghost fragments: seq<Fragment>) returns (ordered: seq<ToolCall>)
    requires Collects(calls, fragments)
    ensures ordered == Calls(fragments)
  {
    hide Collects, Calls, Join;
    var indexes: seq<int> := [];
    var pending := calls.Keys;
    while pending != {}
      invariant pending <= calls.Keys
      invariant forall j | 0 <= j < |indexes| :: indexes[j] !in pending
      invariant forall i :: i in indexes <==> i in calls && i !in pending
      invariant AllDifferent(indexes)
      decreases |pending|
    {
      SomeNumber(pending);
      var index :| index in pending;
      pending := pending - {index};
      indexes := indexes + [index];
    }
    var sorted := SortSlice(indexes, (a: int, b: int) => a < b);
    DistinctSorted(indexes, sorted);
    assert forall k | 0 <= k < |sorted| :: sorted[k] in calls by {
      assert forall k | 0 <= k < |sorted| :: sorted[k] in sorted;
    }
    ordered := [];
    for k := 0 to |sorted|
      invariant |ordered| == k
      invariant forall i | 0 <= i < k :: ordered[i] == Completed(calls[sorted[i]])
    {
      var call := calls[sorted[k]];
      if call.kind == "" {
        call := call.(kind := "function");
      }
      ordered := ordered + [call];
    }
    OrderedAreCalls(ordered, sorted, calls, fragments);
  }

  lemma DistinctSorted(items: seq<int>, sorted: seq<int>)
    requires NoInversion(sorted, (a: int, b: int) => a < b) && multiset(sorted) == multiset(items)
              && AllDifferent(items)
    ensures Increasing(sorted) && forall i :: i in sorted <==> i in items
  {
    SortedAllDifferent(items, sorted);
    forall j, k | 0 <= j < k < |sorted|
      ensures sorted[j] < sorted[k]
    {
      assert !((a: int, b: int) => a < b)(sorted[k], sorted[j]);
    }
  }

  lemma OrderedAreCalls(ordered: seq<ToolCall>, labels: seq<int>, calls: map<int, ToolCall>, fragments: seq<Fragment>)
    requires Collects(calls, fragments) && Increasing(labels) && forall i :: i in labels <==> i in calls
    requires |ordered| == |labels| && forall k | 0 <= k < |labels| ::
              labels[k] in calls && ordered[k] == Completed(calls[labels[k]])
    ensures ordered == Calls(fragments)
  {
    hide Join, Project, Completed, Labels;
    LabelsOccur(fragments);
    SameLabels(labels, Labels(fragments));
  }
}
