/** The diagnostic sinks that `compile` installs as `finalOptions.warn`
    (src/compiler/create-compiler.js), and the `errors` and `tips` lists they fill. */
module Diagnostics {
  import opened JsValues
  import opened Whitespace

  /** A source range as the parser reports it; either end may be null or undefined. */
  datatype Range = Range(start: Option<int>, end: Option<int>)

  /** One call `warn(msg, range, tip)`; `range` is None when the caller passed none. */
  datatype Emission = Emission(msg: string, range: Option<Range>, tip: bool)

  /** An entry of `errors` or `tips`: the bare message (default sink), or the record
      `{ msg, start?, end? }` (range sink). */
  datatype Diagnostic = Message(msg: string) | Located(msg: string, start: Option<int>, end: Option<int>)

  /** Which of the two `warn` closures is installed. `CollectShifted` carries the length of
      the leading whitespace of the untrimmed template. */
  datatype Sink = Collect | CollectShifted(leadingSpaceLength: nat)

  function ShiftBy(x: Option<int>, offset: nat): Option<int> {
    match x
    case None => None
    case Some(v) => Some(v + offset)
  }

  /** The record a sink pushes for one call. */
  function Shape(sink: Sink, e: Emission): (d: Diagnostic)
    ensures d.msg == e.msg
    ensures d.Message? <==> sink.Collect?
    ensures d.Located? ==> (d.start.Some? <==> e.range.Some? && e.range.value.start.Some?)
    ensures d.Located? ==> (d.end.Some? <==> e.range.Some? && e.range.value.end.Some?)
    ensures d.Located? && d.start.Some? ==> d.start.value == e.range.value.start.value + sink.leadingSpaceLength
    ensures d.Located? && d.end.Some? ==> d.end.value == e.range.value.end.value + sink.leadingSpaceLength
  {
    match sink
    case Collect => Message(e.msg)
    case CollectShifted(n) =>
      match e.range
      case None => Located(e.msg, None, None)
      case Some(r) => Located(e.msg, ShiftBy(r.start, n), ShiftBy(r.end, n))
  }

  /** The list (`tips` when `tips` is true, `errors` otherwise) that a sink builds from a
      sequence of calls, in call order. */
  function Routed(sink: Sink, es: seq<Emission>, tips: bool): (r: seq<Diagnostic>)
    ensures |r| <= |es|
    // with no call of this kind the list stays empty
    ensures (forall k :: 0 <= k < |es| ==> es[k].tip != tips) ==> r == []
    // when every call is of this kind, the list holds them all, shaped, in call order
    ensures (forall k :: 0 <= k < |es| ==> es[k].tip == tips) ==>
              |r| == |es| && forall k :: 0 <= k < |es| ==> r[k] == Shape(sink, es[k])
  {
    if es == [] then []
    else
      var last := es[|es| - 1];
      Routed(sink, es[..|es| - 1], tips) + (if last.tip == tips then [Shape(sink, last)] else [])
  }

  /** Routing one more call of a sequence appends at most that call's entry. */
  lemma RoutedStep(sink: Sink, es: seq<Emission>, i: nat, tips: bool)
    requires i < |es|
    ensures Routed(sink, es[..i + 1], tips)
            == Routed(sink, es[..i], tips) + (if es[i].tip == tips then [Shape(sink, es[i])] else [])
  {
    assert es[..i + 1][..i] == es[..i];
  }

  /** Every call lands in exactly one of the two lists. */
  lemma {:induction false} RoutedPartition(sink: Sink, es: seq<Emission>)
    ensures |Routed(sink, es, true)| + |Routed(sink, es, false)| == |es|
  {
    if es != [] {
      RoutedPartition(sink, es[..|es| - 1]);
    }
  }

  /** Routing calls made in two phases gives the first phase's entries, then the second's. */
  lemma {:induction false} RoutedAppend(sink: Sink, a: seq<Emission>, b: seq<Emission>, tips: bool)
    ensures Routed(sink, a + b, tips) == Routed(sink, a, tips) + Routed(sink, b, tips)
  {
    if b == [] {
      assert a + b == a;
    } else {
      assert (a + b)[..|a + b| - 1] == a + b[..|b| - 1];
      RoutedAppend(sink, a, b[..|b| - 1], tips);
    }
  }

  /** The tip list holds exactly the tip calls, the error list exactly the others, each shaped
      by the sink: entry k of a list is the k-th call routed to it. */
  lemma {:induction false} RoutedMembers(sink: Sink, es: seq<Emission>, tips: bool, d: Diagnostic)
    ensures d in Routed(sink, es, tips) <==> exists e :: e in es && e.tip == tips && d == Shape(sink, e)
  {
    if es != [] {
      var init := es[..|es| - 1];
      RoutedMembers(sink, init, tips, d);
      assert es == init + [es[|es| - 1]];
      if d in Routed(sink, es, tips) && d !in Routed(sink, init, tips) {
        assert es[|es| - 1] in es;
      }
      if exists e :: e in es && e.tip == tips && d == Shape(sink, e) {
        var e :| e in es && e.tip == tips && d == Shape(sink, e);
        if e !in init {
          assert e == es[|es| - 1];
        }
      }
    }
  }

  /** A shifted start offset points at the same character of the untrimmed template as the
      parser's offset does in the trimmed template. */
  lemma ShiftedStartLocates(template: string, e: Emission)
    requires e.range.Some? && e.range.value.start.Some?
    requires 0 <= e.range.value.start.value < |Trim(template)|
    ensures var d := Shape(CollectShifted(LeadingSpaceLength(template)), e);
            && d.start.Some? && 0 <= d.start.value < |template|
            && template[d.start.value] == Trim(template)[e.range.value.start.value]
  {
    TrimmedOffset(template, e.range.value.start.value);
  }

  /** The `errors` and `tips` arrays and the `warn` closure that pushes into them. */
  class Collector {
    const sink: Sink
    var errors: seq<Diagnostic>
    var tips: seq<Diagnostic>

    constructor (sink: Sink)
      ensures this.sink == sink && errors == [] && tips == []
    {
      this.sink := sink;
      errors := [];
      tips := [];
    }

    /** `warn(msg, range, tip)`: exactly one of the two lists grows, by one entry. */
    method Warn(msg: string, range: Option<Range>, tip: bool)
      modifies this
      ensures tip ==> tips == old(tips) + [Shape(sink, Emission(msg, range, tip))] && errors == old(errors)
      ensures !tip ==> errors == old(errors) + [Shape(sink, Emission(msg, range, tip))] && tips == old(tips)
    {
      var data := Shape(sink, Emission(msg, range, tip));
      if tip {
        tips := tips + [data];
      } else {
        errors := errors + [data];
      }
    }

    /** Feeds a sequence of calls to the sink, in order. */
    method WarnAll(es: seq<Emission>)
      modifies this
      ensures errors == old(errors) + Routed(sink, es, false)
      ensures tips == old(tips) + Routed(sink, es, true)
    {
      for i := 0 to |es|
        invariant errors == old(errors) + Routed(sink, es[..i], false)
        invariant tips == old(tips) + Routed(sink, es[..i], true)
      {
        RoutedStep(sink, es, i, false);
        RoutedStep(sink, es, i, true);
        Warn(es[i].msg, es[i].range, es[i].tip);
      }
      assert es[..|es|] == es;
    }
  }
}
