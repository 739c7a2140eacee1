/** The lines and events of a chat stream (internal/provider/provider.go), and what a stream adds up to. */
module StreamEvents {
  import opened Results
  import opened Text
  import opened Messages

  /** One piece of the tool call with a given index. */
  datatype Fragment = Fragment(index: int, piece: ToolCall)

  datatype Choice = Choice(content: string, fragments: seq<Fragment>, finishReason: string)

  datatype Event = Event(model: string, usage: Option<Usage>, choices: seq<Choice>)

  /** A line is not data, ends the stream, cannot be decoded, or carries an event. */
  datatype Line = Ignored | EndOfStream | Malformed | Data(event: Event)

  datatype StreamError = DecodeFailed | DeliveryFailed | ReadFailed

  // ----- What a finished stream adds up to

  function FirstNonEmpty(a: string, b: string): string {
    if a != "" then a else b
  }

  /** The text an event carries, "" for none: only its first choice is looked at. */
  function TextOf(event: Event): string {
    if event.choices == [] then "" else event.choices[0].content
  }

  function FragmentsOf(event: Event): seq<Fragment> {
    if event.choices == [] then [] else event.choices[0].fragments
  }

  function FinishOf(event: Event): string {
    if event.choices == [] then "" else event.choices[0].finishReason
  }

  ghost function Texts(events: seq<Event>): seq<string> {
    if events == [] then []
    else
      var text := TextOf(events[|events| - 1]);
      Texts(events[..|events| - 1]) + if text == "" then [] else [text]
  }

  ghost function AllFragments(events: seq<Event>): seq<Fragment> {
    if events == [] then []
    else AllFragments(events[..|events| - 1]) + FragmentsOf(events[|events| - 1])
  }

  ghost function LastModel(events: seq<Event>): string {
    if events == [] then "" else FirstNonEmpty(events[|events| - 1].model, LastModel(events[..|events| - 1]))
  }

  ghost function LastFinish(events: seq<Event>): string {
    if events == [] then "" else FirstNonEmpty(FinishOf(events[|events| - 1]), LastFinish(events[..|events| - 1]))
  }

  ghost function LastUsage(events: seq<Event>): Usage {
    if events == [] then Usage(0, 0, 0)
    else if events[|events| - 1].usage.Some? then events[|events| - 1].usage.value
    else LastUsage(events[..|events| - 1])
  }

  lemma EventSnoc(events: seq<Event>, event: Event)
    ensures var more := events + [event];
            && Texts(more) == Texts(events) + (if TextOf(event) == "" then [] else [TextOf(event)])
            && AllFragments(more) == AllFragments(events) + FragmentsOf(event)
            && LastModel(more) == FirstNonEmpty(event.model, LastModel(events))
            && LastFinish(more) == FirstNonEmpty(FinishOf(event), LastFinish(events))
            && LastUsage(more) == if event.usage.Some? then event.usage.value else LastUsage(events)
  {
    hide TextOf, FinishOf, FragmentsOf;
    assert (events + [event])[..|events|] == events;
  }

  // ----- The lines a stream is read from

  /** Where the loop stops: at the end or at [DONE], at a line it cannot decode, or at a refused delivery. */
  datatype Stop = Ended | BadLine | Refused

  /** The events folded, the texts handed to the callback and the reason the loop stops.
      Deliveries are numbered from `n` on. */
  ghost function Consumed(lines: seq<Line>, accepts: (nat, string) -> bool, n: nat): (seq<Event>, seq<string>, Stop) {
    if lines == [] || lines[0].EndOfStream? then ([], [], Ended)
    else
      match lines[0]
      case Ignored => Consumed(lines[1..], accepts, n)
      case Malformed => ([], [], BadLine)
      case Data(event) =>
        var text := TextOf(event);
        if text != "" && !accepts(n, text) then ([], [text], Refused)
        else
          var (events, texts, stop) := Consumed(lines[1..], accepts, if text == "" then n else n + 1);
          ([event] + events, (if text == "" then [] else [text]) + texts, stop)
  }

  // ----- Line by line

  /** The lines before m are read, and none of them ends the stream. */
  ghost predicate ReadUpTo(lines: seq<Line>, m: nat)
    requires m <= |lines|
  {
    forall i | 0 <= i < m :: lines[i].Ignored? || lines[i].Data?
  }

  predicate HasChoice(line: Line) {
    line.Data? && line.event.choices != []
  }

  predicate CarriesText(line: Line) {
    HasChoice(line) && line.event.choices[0].content != ""
  }

  predicate CarriesFinish(line: Line) {
    HasChoice(line) && line.event.choices[0].finishReason != ""
  }

  predicate CarriesModel(line: Line) {
    line.Data? && line.event.model != ""
  }

  predicate CarriesUsage(line: Line) {
    line.Data? && line.event.usage.Some?
  }

  /** Line k is the last one before m of that sort. */
  ghost predicate LastOf(lines: seq<Line>, m: nat, sort: Line -> bool, k: nat)
    requires m <= |lines|
  {
    k < m && sort(lines[k]) && forall j | k < j < m :: !sort(lines[j])
  }

  ghost predicate NoneOf(lines: seq<Line>, m: nat, sort: Line -> bool)
    requires m <= |lines|
  {
    forall j | 0 <= j < m :: !sort(lines[j])
  }

  /** The texts of the first choices, in order. */
  ghost function TextsIn(lines: seq<Line>): seq<string> {
    if lines == [] then []
    else
      var last := lines[|lines| - 1];
      TextsIn(lines[..|lines| - 1]) + if CarriesText(last) then [last.event.choices[0].content] else []
  }

  /** The fragments of the first choices, in order. */
  ghost function FragmentsIn(lines: seq<Line>): seq<Fragment> {
    if lines == [] then []
    else
      var last := lines[|lines| - 1];
      FragmentsIn(lines[..|lines| - 1]) + if HasChoice(last) then last.event.choices[0].fragments else []
  }

  /** Finish reason, model and usage are those of the last of the lines before m that carries one, and zero values
      if none does; the content is all that was delivered, which is all texts. */
  ghost predicate Reported(lines: seq<Line>, m: nat, result: ChatResult, delivered: seq<string>)
    requires m <= |lines|
  {
    && delivered == TextsIn(lines[..m])
    && result.content == Concat(delivered)
    && (forall k: nat | LastOf(lines, m, CarriesFinish, k) ::
          result.finishReason == lines[k].event.choices[0].finishReason)
    && (forall k: nat | LastOf(lines, m, CarriesModel, k) :: result.model == lines[k].event.model)
    && (forall k: nat | LastOf(lines, m, CarriesUsage, k) :: Some(result.usage) == lines[k].event.usage)
    && (NoneOf(lines, m, CarriesFinish) ==> result.finishReason == "")
    && (NoneOf(lines, m, CarriesModel) ==> result.model == "")
    && (NoneOf(lines, m, CarriesUsage) ==> result.usage == Usage(0, 0, 0))
  }

  // ----- The events of the lines read

  ghost function EventsIn(lines: seq<Line>): seq<Event> {
    if lines == [] then []
    else EventsIn(lines[..|lines| - 1]) + if lines[|lines| - 1].Data? then [lines[|lines| - 1].event] else []
  }

  lemma EventsMore(lines: seq<Line>, m: nat)
    requires m < |lines|
    ensures lines[..m + 1] == lines[..m] + [lines[m]]
    ensures EventsIn(lines[..m + 1]) == EventsIn(lines[..m]) + if lines[m].Data? then [lines[m].event] else []
  {
    assert lines[..m + 1][..m] == lines[..m];
  }

  lemma {:induction false} EventsFirst(first: Line, rest: seq<Line>)
    ensures EventsIn([first] + rest) == (if first.Data? then [first.event] else []) + EventsIn(rest)
  {
    if rest == [] {
      assert [first] + rest == [first] && [first][..0] == [];
    } else {
      EventsFirst(first, rest[..|rest| - 1]);
      assert ([first] + rest)[..|rest|] == [first] + rest[..|rest| - 1];
    }
  }

  /** How far the lines are read, and what is folded and delivered until then. */
  lemma {:induction false} ConsumedIn(lines: seq<Line>, accepts: (nat, string) -> bool, n: nat) returns (m: nat)
    ensures m <= |lines| && ReadUpTo(lines, m) && StoppedAt(lines, m, accepts, n, Consumed(lines, accepts, n))
  {
    hide Texts, EventsIn, TextOf, StoppedAt, ReadUpTo;
    if lines == [] || lines[0].EndOfStream? || lines[0].Malformed? {
      m := 0;
      StopsFirst(lines, accepts, n);
    } else {
      var text := if lines[0].Data? then TextOf(lines[0].event) else "";
      if text != "" && !accepts(n, text) {
        m := 0;
        StopsFirst(lines, accepts, n);
      } else {
        var k := ConsumedIn(lines[1..], accepts, if text == "" then n else n + 1);
        m := k + 1;
        StopsLater(lines, accepts, n, k);
      }
    }
  }

  ghost predicate StoppedAt(lines: seq<Line>, m: nat, accepts: (nat, string) -> bool, n: nat,
                            all: (seq<Event>, seq<string>, Stop))
    requires m <= |lines|
  {
    var (events, texts, stop) := all;
    && events == EventsIn(lines[..m])
    && match stop
       case Ended => texts == Texts(events) && (m < |lines| ==> lines[m].EndOfStream?)
       case BadLine => texts == Texts(events) && m < |lines| && lines[m].Malformed?
       case Refused =>
         && m < |lines| && CarriesText(lines[m])
         && texts == Texts(events) + [lines[m].event.choices[0].content]
         && !accepts(n + |texts| - 1, lines[m].event.choices[0].content)
  }

  lemma StopMeans(lines: seq<Line>, m: nat, accepts: (nat, string) -> bool, all: (seq<Event>, seq<string>, Stop))
    requires m <= |lines| && StoppedAt(lines, m, accepts, 0, all)
    ensures all.0 == EventsIn(lines[..m])
    ensures match all.2
            case Ended => m < |lines| ==> lines[m].EndOfStream?
            case BadLine => m < |lines| && lines[m].Malformed?
            case Refused =>
              && m < |lines| && CarriesText(lines[m])
              && all.1 == TextsIn(lines[..m]) + [lines[m].event.choices[0].content]
              && !accepts(|all.1| - 1, lines[m].event.choices[0].content)
  {
    hide EventsIn, Texts, TextsIn;
    TextsAndFragments(lines[..m]);
  }

  lemma StopsFirst(lines: seq<Line>, accepts: (nat, string) -> bool, n: nat)
    requires || lines == [] || lines[0].EndOfStream? || lines[0].Malformed?
             || (lines[0].Data? && TextOf(lines[0].event) != "" && !accepts(n, TextOf(lines[0].event)))
    ensures ReadUpTo(lines, 0) && StoppedAt(lines, 0, accepts, n, Consumed(lines, accepts, n))
  {
  }

  lemma StopsLater(lines: seq<Line>, accepts: (nat, string) -> bool, n: nat, k: nat)
    requires lines != [] && k <= |lines| - 1 && ReadUpTo(lines[1..], k)
    requires lines[0].Ignored? || lines[0].Data?
    requires var text := if lines[0].Data? then TextOf(lines[0].event) else "";
             && (text != "" ==> accepts(n, text))
             && var next := if text == "" then n else n + 1;
             StoppedAt(lines[1..], k, accepts, next, Consumed(lines[1..], accepts, next))
    ensures ReadUpTo(lines, k + 1) && StoppedAt(lines, k + 1, accepts, n, Consumed(lines, accepts, n))
  {
    hide Texts, EventsIn, TextOf;
    var rest := lines[1..];
    assert lines[..k + 1] == [lines[0]] + rest[..k];
    EventsFirst(lines[0], rest[..k]);
    assert k < |rest| ==> rest[k] == lines[k + 1];
    assert [] + EventsIn(rest[..k]) == EventsIn(rest[..k]);
    if lines[0].Data? {
      TextsFirst(lines[0].event, EventsIn(rest[..k]));
      assert [] + Texts(EventsIn(rest[..k])) == Texts(EventsIn(rest[..k]));
    }
  }

  lemma {:induction false} TextsFirst(first: Event, rest: seq<Event>)
    ensures Texts([first] + rest) == (if TextOf(first) == "" then [] else [TextOf(first)]) + Texts(rest)
  {
    hide TextOf;
    if rest == [] {
      assert [first] + rest == [first] && [first][..0] == [];
    } else {
      TextsFirst(first, rest[..|rest| - 1]);
      assert ([first] + rest)[..|rest|] == [first] + rest[..|rest| - 1];
    }
  }

  lemma {:induction false} TextsAndFragments(lines: seq<Line>)
    ensures Texts(EventsIn(lines)) == TextsIn(lines) && AllFragments(EventsIn(lines)) == FragmentsIn(lines)
  {
    hide Texts, AllFragments;
    if lines == [] {
      NothingRead();
    } else {
      var m := |lines| - 1;
      var events := EventsIn(lines[..m]);
      TextsAndFragments(lines[..m]);
      assert events + [] == events && TextsIn(lines[..m]) + [] == TextsIn(lines[..m]);
      assert FragmentsIn(lines[..m]) + [] == FragmentsIn(lines[..m]);
      if lines[m].Data? {
        EventSnoc(events, lines[m].event);
      }
    }
  }

  lemma NothingRead()
    ensures EventsIn([]) == [] && Texts([]) == [] && AllFragments([]) == []
    ensures LastFinish([]) == "" && LastModel([]) == "" && LastUsage([]) == Usage(0, 0, 0)
  {
  }

  lemma LastStep(lines: seq<Line>, m: nat, sort: Line -> bool)
    requires 0 < m <= |lines|
    ensures NoneOf(lines, m, sort) <==> NoneOf(lines, m - 1, sort) && !sort(lines[m - 1])
    ensures forall k :: LastOf(lines, m, sort, k) <==>
                if sort(lines[m - 1]) then k == m - 1 else LastOf(lines, m - 1, sort, k)
  {
  }

  /** What reading line m - 1 does to the three fields that keep the last value. */
  lemma FieldsStep(lines: seq<Line>, m: nat)
    requires 0 < m <= |lines|
    ensures var before, events, line := EventsIn(lines[..m - 1]), EventsIn(lines[..m]), lines[m - 1];
            && LastFinish(events) == (if CarriesFinish(line) then line.event.choices[0].finishReason
                                      else LastFinish(before))
            && LastModel(events) == (if CarriesModel(line) then line.event.model else LastModel(before))
            && LastUsage(events) == (if CarriesUsage(line) then line.event.usage.value else LastUsage(before))
  {
    hide EventsIn, LastFinish, LastModel, LastUsage, Texts, AllFragments;
    EventsMore(lines, m - 1);
    if lines[m - 1].Data? {
      EventSnoc(EventsIn(lines[..m - 1]), lines[m - 1].event);
    } else {
      assert EventsIn(lines[..m - 1]) + [] == EventsIn(lines[..m - 1]);
    }
  }

  lemma {:induction false} FinishReported(lines: seq<Line>, m: nat)
    requires m <= |lines|
    ensures var finish := LastFinish(EventsIn(lines[..m]));
            && (forall k: nat | LastOf(lines, m, CarriesFinish, k) :: finish == lines[k].event.choices[0].finishReason)
            && (NoneOf(lines, m, CarriesFinish) ==> finish == "")
  {
    hide EventsIn, LastFinish, LastModel, LastUsage, LastOf, NoneOf, CarriesModel, CarriesUsage;
    if m == 0 {
      NothingRead();
      NothingLast(lines, CarriesFinish);
    } else {
      FinishReported(lines, m - 1);
      FieldsStep(lines, m);
      LastStep(lines, m, CarriesFinish);
    }
  }

  lemma NothingLast(lines: seq<Line>, sort: Line -> bool)
    ensures forall k :: !LastOf(lines, 0, sort, k)
  {
  }

  lemma {:induction false} ModelReported(lines: seq<Line>, m: nat)
    requires m <= |lines|
    ensures var model := LastModel(EventsIn(lines[..m]));
            && (forall k: nat | LastOf(lines, m, CarriesModel, k) :: model == lines[k].event.model)
            && (NoneOf(lines, m, CarriesModel) ==> model == "")
  {
    hide EventsIn, LastFinish, LastModel, LastUsage, LastOf, NoneOf, CarriesFinish, CarriesUsage;
    if m == 0 {
      NothingRead();
      NothingLast(lines, CarriesModel);
    } else {
      ModelReported(lines, m - 1);
      FieldsStep(lines, m);
      LastStep(lines, m, CarriesModel);
    }
  }

  lemma {:induction false} UsageReported(lines: seq<Line>, m: nat)
    requires m <= |lines|
    ensures var usage := LastUsage(EventsIn(lines[..m]));
            && (forall k: nat | LastOf(lines, m, CarriesUsage, k) :: Some(usage) == lines[k].event.usage)
            && (NoneOf(lines, m, CarriesUsage) ==> usage == Usage(0, 0, 0))
  {
    hide EventsIn, LastFinish, LastModel, LastUsage, LastOf, NoneOf, CarriesFinish, CarriesModel;
    if m == 0 {
      NothingRead();
      NothingLast(lines, CarriesUsage);
    } else {
      UsageReported(lines, m - 1);
      FieldsStep(lines, m);
      LastStep(lines, m, CarriesUsage);
    }
  }

  lemma ReportedIn(lines: seq<Line>, m: nat, result: ChatResult, delivered: seq<string>)
    requires m <= |lines|
    requires var events := EventsIn(lines[..m]);
             && delivered == Texts(events) && result.content == Concat(delivered)
             && result.model == LastModel(events) && result.finishReason == LastFinish(events)
             && result.usage == LastUsage(events)
    ensures Reported(lines, m, result, delivered)
    ensures AllFragments(EventsIn(lines[..m])) == FragmentsIn(lines[..m])
  {
    hide EventsIn, Texts, LastModel, LastFinish, LastUsage, Concat, LastOf, NoneOf;
    TextsAndFragments(lines[..m]);
    FinishReported(lines, m);
    ModelReported(lines, m);
    UsageReported(lines, m);
  }
}
