/** The tool calls of a stream do not depend on how it is cut into events, fragmented and interleaved. */
module StreamingFacts {
  import opened Text
  import opened Messages
  import opened StreamEvents
  import opened Streaming

  // ----- The calls are determined call by call

  /** Two streams agree on a call: it occurs in both or in neither, and its pieces join to the same. */
  ghost predicate SameCall(f: seq<Fragment>, g: seq<Fragment>, index: int) {
    && (Project(f, index) == [] <==> Project(g, index) == [])
    && Join(Project(f, index)) == Join(Project(g, index))
  }

  /** Streams that agree on each call give the same list of calls. */
  lemma SameCalls(f: seq<Fragment>, g: seq<Fragment>)
    requires forall index :: SameCall(f, g, index)
    ensures Calls(f) == Calls(g)
  {
    hide Join, Project, Completed, Labels;
    LabelsOccur(f);
    LabelsOccur(g);
    forall i: int
      ensures i in Labels(f) <==> i in Labels(g)
    {
      assert SameCall(f, g, i);
    }
    SameLabels(Labels(f), Labels(g));
    assert forall k | 0 <= k < |Labels(f)| :: SameCall(f, g, Labels(f)[k]);
  }

  // ----- Interleaving

  lemma {:induction false} ProjectConcat(f: seq<Fragment>, g: seq<Fragment>, index: int)
    ensures Project(f + g, index) == Project(f, index) + Project(g, index)
  {
    if g == [] {
      assert f + g == f && Project(f, index) + [] == Project(f, index);
    } else {
      var front := g[..|g| - 1];
      ProjectConcat(f, front, index);
      assert (f + g)[..|f + g| - 1] == f + front;
    }
  }

  /** Pieces of different calls may arrive in either order. */
  lemma SwapKeepsCalls(before: seq<Fragment>, x: Fragment, y: Fragment, after: seq<Fragment>)
    requires x.index != y.index
    ensures Calls(before + [x, y] + after) == Calls(before + [y, x] + after)
  {
    hide Calls, Join, Project;
    var f, g := before + [x, y] + after, before + [y, x] + after;
    forall index: int
      ensures SameCall(f, g, index)
    {
      ProjectConcat(before + [x, y], after, index);
      ProjectConcat(before, [x, y], index);
      ProjectConcat(before + [y, x], after, index);
      ProjectConcat(before, [y, x], index);
      PairSwaps(x, y, index);
    }
    SameCalls(f, g);
  }

  lemma PairSwaps(x: Fragment, y: Fragment, index: int)
    requires x.index != y.index
    ensures Project([x, y], index) == Project([y, x], index)
  {
    assert [x, y] == [x] + [y] && [y, x] == [y] + [x];
    ProjectConcat([x], [y], index);
    ProjectConcat([y], [x], index);
  }

  /** Any two interleavings that keep the order within each call give the same calls. */
  lemma InterleavingIndependent(f: seq<Fragment>, g: seq<Fragment>)
    requires forall index :: Project(f, index) == Project(g, index)
    ensures Calls(f) == Calls(g)
  {
    hide Calls, Join, Project;
    forall index: int
      ensures SameCall(f, g, index)
    {
      assert Project(f, index) == Project(g, index);
    }
    SameCalls(f, g);
  }

  // ----- Fragmentation

  /** Each non-empty field among `parts` is the whole value, and it does occur if there is one. */
  ghost predicate CarriedWhole(parts: seq<string>, value: string) {
    && (forall i | 0 <= i < |parts| :: parts[i] == "" || parts[i] == value)
    && (value != "" ==> value in parts)
  }

  function IdsOf(pieces: seq<ToolCall>): seq<string> {
    seq(|pieces|, i requires 0 <= i < |pieces| => pieces[i].id)
  }

  function KindsOf(pieces: seq<ToolCall>): seq<string> {
    seq(|pieces|, i requires 0 <= i < |pieces| => pieces[i].kind)
  }

  function NamesOf(pieces: seq<ToolCall>): seq<string> {
    seq(|pieces|, i requires 0 <= i < |pieces| => pieces[i].name)
  }

  function ArgumentsOf(pieces: seq<ToolCall>): seq<string> {
    seq(|pieces|, i requires 0 <= i < |pieces| => pieces[i].arguments)
  }

  /** The pieces are a fragmentation of the call: only its arguments are cut. */
  ghost predicate ArePieces(pieces: seq<ToolCall>, call: ToolCall) {
    && pieces != []
    && CarriedWhole(IdsOf(pieces), call.id)
    && CarriedWhole(KindsOf(pieces), call.kind)
    && CarriedWhole(NamesOf(pieces), call.name)
    && Concat(ArgumentsOf(pieces)) == call.arguments
  }

  ghost function FirstOf(parts: seq<string>): string {
    if parts == [] then "" else FirstNonEmpty(FirstOf(parts[..|parts| - 1]), parts[|parts| - 1])
  }

  lemma {:induction false} JoinByField(pieces: seq<ToolCall>)
    ensures Join(pieces) == ToolCall(FirstOf(IdsOf(pieces)), FirstOf(KindsOf(pieces)), FirstOf(NamesOf(pieces)),
                                     Concat(ArgumentsOf(pieces)))
  {
    hide FirstNonEmpty;
    if pieces != [] {
      var front := pieces[..|pieces| - 1];
      JoinByField(front);
      assert IdsOf(pieces)[..|front|] == IdsOf(front) && KindsOf(pieces)[..|front|] == KindsOf(front);
      assert NamesOf(pieces)[..|front|] == NamesOf(front) && ArgumentsOf(pieces)[..|front|] == ArgumentsOf(front);
    }
  }

  /** The first part that is not empty is kept. */
  lemma {:induction false} FirstOfIs(parts: seq<string>, k: nat)
    requires k < |parts| && parts[k] != "" && forall i | 0 <= i < k :: parts[i] == ""
    ensures FirstOf(parts) == parts[k]
  {
    var front := parts[..|parts| - 1];
    if k < |front| {
      FirstOfIs(front, k);
    } else {
      FirstOfEmpty(front);
    }
  }

  lemma {:induction false} FirstOfWhole(parts: seq<string>, value: string)
    requires forall i | 0 <= i < |parts| :: parts[i] == "" || parts[i] == value
    ensures FirstOf(parts) == if value in parts then value else ""
  {
    if parts != [] {
      FirstOfWhole(parts[..|parts| - 1], value);
      assert parts == parts[..|parts| - 1] + [parts[|parts| - 1]];
    }
  }

  /** Of the IDs, types and names of a call's pieces the first that is not empty is kept; arguments are put together. */
  lemma JoinKeepsFirst(pieces: seq<ToolCall>, k: nat)
    requires k < |pieces|
    ensures pieces[k].id != "" && (forall i | 0 <= i < k :: pieces[i].id == "") ==> Join(pieces).id == pieces[k].id
    ensures pieces[k].kind != "" && (forall i | 0 <= i < k :: pieces[i].kind == "") ==>
              Join(pieces).kind == pieces[k].kind
    ensures pieces[k].name != "" && (forall i | 0 <= i < k :: pieces[i].name == "") ==>
              Join(pieces).name == pieces[k].name
    ensures Join(pieces).arguments == Concat(ArgumentsOf(pieces))
  {
    hide Join, FirstOf, Concat;
    JoinByField(pieces);
    if pieces[k].id != "" && forall i | 0 <= i < k :: pieces[i].id == "" {
      FirstOfIs(IdsOf(pieces), k);
    }
    if pieces[k].kind != "" && forall i | 0 <= i < k :: pieces[i].kind == "" {
      FirstOfIs(KindsOf(pieces), k);
    }
    if pieces[k].name != "" && forall i | 0 <= i < k :: pieces[i].name == "" {
      FirstOfIs(NamesOf(pieces), k);
    }
  }

  lemma PiecesJoin(pieces: seq<ToolCall>, call: ToolCall)
    requires ArePieces(pieces, call)
    ensures Join(pieces) == call && pieces != []
  {
    hide FirstOf, Concat, Join;
    JoinByField(pieces);
    FirstOfWhole(IdsOf(pieces), call.id);
    FirstOfWhole(KindsOf(pieces), call.kind);
    FirstOfWhole(NamesOf(pieces), call.name);
  }

  /** A list of calls, fragmented and interleaved in any way, is given back in index order. */
  lemma FragmentationFoldsBack(calls: seq<ToolCall>, labels: seq<int>, fragments: seq<Fragment>)
    requires |labels| == |calls| && Increasing(labels) && forall f | f in fragments :: f.index in labels
    requires forall k | 0 <= k < |calls| :: ArePieces(Project(fragments, labels[k]), calls[k])
    ensures |Calls(fragments)| == |calls|
    ensures forall k | 0 <= k < |calls| ::
              Calls(fragments)[k] == ToolCall(calls[k].id, if calls[k].kind == "" then "function" else calls[k].kind,
                                              calls[k].name, calls[k].arguments)
  {
    hide Join, Project, ArePieces, Labels;
    forall k | 0 <= k < |calls|
      ensures Join(Project(fragments, labels[k])) == calls[k]
      ensures Project(fragments, labels[k]) != []
    {
      PiecesJoin(Project(fragments, labels[k]), calls[k]);
    }
    LabelsOccur(fragments);
    forall i: int
      ensures i in labels <==> i in Labels(fragments)
    {
      if i !in labels {
        ProjectEmpty(fragments, i);
      }
    }
    SameLabels(labels, Labels(fragments));
  }

  lemma {:induction false} ProjectEmpty(fragments: seq<Fragment>, index: int)
    requires forall f | f in fragments :: f.index != index
    ensures Project(fragments, index) == []
  {
    if fragments != [] {
      ProjectEmpty(fragments[..|fragments| - 1], index);
    }
  }

  // ----- What must not be cut

  predicate AtMostOnePart(parts: seq<string>) {
    forall i, j | 0 <= i < j < |parts| :: parts[i] == "" || parts[j] == ""
  }

  lemma {:induction false} FirstOfEmpty(parts: seq<string>)
    ensures FirstOf(parts) == "" <==> forall i | 0 <= i < |parts| :: parts[i] == ""
    ensures |FirstOf(parts)| <= |Concat(parts)|
    ensures Concat(parts) == "" <==> FirstOf(parts) == ""
  {
    if parts != [] {
      FirstOfEmpty(parts[..|parts| - 1]);
      assert parts == parts[..|parts| - 1] + [parts[|parts| - 1]];
    }
  }

  /** IDs, types and names are not concatenated: one cut over several deltas survives if and only if at most
      one of them carries a part that is not empty. */
  lemma {:induction false} KeptIffOnePart(parts: seq<string>)
    ensures FirstOf(parts) == Concat(parts) <==> AtMostOnePart(parts)
  {
    if parts != [] {
      var front, last := parts[..|parts| - 1], parts[|parts| - 1];
      KeptIffOnePart(front);
      FirstOfEmpty(front);
      assert parts == front + [last];
      if last == "" {
        assert Concat(parts) == Concat(front);
        assert AtMostOnePart(front) ==> AtMostOnePart(parts);
      }
    }
  }

  lemma NameKeptIffOnePart(pieces: seq<ToolCall>)
    ensures Join(pieces).name == Concat(NamesOf(pieces)) <==> AtMostOnePart(NamesOf(pieces))
  {
    hide Join, FirstOf, Concat;
    JoinByField(pieces);
    KeptIffOnePart(NamesOf(pieces));
  }
}
