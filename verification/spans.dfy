/**
 * Timing spans. Every layer brackets its work with `timings.startSpan(name)`
 * and `timings.stopSpan(name)` on an optional, shared timings object; the model
 * records those calls as a trace of events and says when a trace is properly
 * nested (every span stopped once, innermost first).
 */
module Spans {
  import opened Values

  datatype SpanEvent = Begin(name: string) | End(name: string)

  /** The shared timings object: the events recorded so far, in order. */
  class Timings {
    var events: seq<SpanEvent>

    constructor ()
      ensures events == []
    {
      events := [];
    }

    method StartSpan(name: string)
      modifies this
      ensures events == old(events) + [Begin(name)]
    {
      events := events + [Begin(name)];
    }

    method StopSpan(name: string)
      modifies this
      ensures events == old(events) + [End(name)]
    {
      events := events + [End(name)];
    }
  }

  /** The trace of an optional timings object; without one nothing is recorded. */
  function Events(t: Timings?): seq<SpanEvent>
    reads t
  {
    if t == null then [] else t.events
  }

  /** What recording `evs` adds to the trace of `t`. */
  function Rec(t: Timings?, evs: seq<SpanEvent>): seq<SpanEvent> {
    if t == null then [] else evs
  }

  /** `if (deps.timings) deps.timings.startSpan(name)` */
  method Start(t: Timings?, name: string)
    modifies t
    ensures Events(t) == old(Events(t)) + Rec(t, [Begin(name)])
  {
    if t != null {
      t.StartSpan(name);
    }
  }

  /** `if (deps.timings) deps.timings.stopSpan(name)` */
  method Stop(t: Timings?, name: string)
    modifies t
    ensures Events(t) == old(Events(t)) + Rec(t, [End(name)])
  {
    if t != null {
      t.StopSpan(name);
    }
  }

  /** One span around nothing: what a DAO records around one storage call. */
  function Span(name: string): seq<SpanEvent> {
    [Begin(name), End(name)]
  }

  /** A span around the events of the calls it makes. */
  function Around(name: string, inner: seq<SpanEvent>): seq<SpanEvent> {
    [Begin(name)] + inner + [End(name)]
  }

  /**
   * Replays `evs` against the stack `open` of spans still running (innermost
   * last): a start pushes, a stop must name the innermost open span and pops it.
   * None when some stop does not match.
   */
  function Replay(open: seq<string>, evs: seq<SpanEvent>): Option<seq<string>>
    decreases |evs|
  {
    if evs == [] then Some(open)
    else match evs[0]
      case Begin(n) => Replay(open + [n], evs[1..])
      case End(n) =>
        if open != [] && open[|open| - 1] == n then Replay(open[..|open| - 1], evs[1..])
        else None
  }

  /** Every span started in `evs` is stopped exactly once, innermost first. */
  predicate Balanced(evs: seq<SpanEvent>) {
    Replay([], evs) == Some([])
  }

  function Then(o: Option<seq<string>>, evs: seq<SpanEvent>): Option<seq<string>> {
    match o
    case None => None
    case Some(open) => Replay(open, evs)
  }

  /** Replaying a concatenation replays its parts one after the other. */
  lemma {:induction false} ReplayAppend(open: seq<string>, a: seq<SpanEvent>, b: seq<SpanEvent>)
    ensures Replay(open, a + b) == Then(Replay(open, a), b)
    decreases |a|
  {
    if a == [] {
      assert a + b == b;
    } else {
      assert (a + b)[0] == a[0];
      assert (a + b)[1..] == a[1..] + b;
      match a[0]
      case Begin(n) => ReplayAppend(open + [n], a[1..], b);
      case End(n) =>
        if open != [] && open[|open| - 1] == n {
          ReplayAppend(open[..|open| - 1], a[1..], b);
        }
    }
  }

  /** Spans already open further out do not change how `evs` replays. */
  lemma {:induction false} ReplayBeneath(outer: seq<string>, open: seq<string>, evs: seq<SpanEvent>)
    requires Replay(open, evs).Some?
    ensures Replay(outer + open, evs) == Some(outer + Replay(open, evs).value)
    decreases |evs|
  {
    if evs != [] {
      match evs[0]
      case Begin(n) =>
        assert outer + open + [n] == outer + (open + [n]);
        ReplayBeneath(outer, open + [n], evs[1..]);
      case End(n) =>
        assert (outer + open)[..|outer + open| - 1] == outer + open[..|open| - 1];
        ReplayBeneath(outer, open[..|open| - 1], evs[1..]);
    }
  }

  /** A span wrapped around balanced work is balanced. */
  lemma AroundBalanced(name: string, inner: seq<SpanEvent>)
    requires Balanced(inner)
    ensures Balanced(Around(name, inner))
  {
    assert Around(name, inner) == [Begin(name)] + (inner + [End(name)]);
    ReplayAppend([], [Begin(name)], inner + [End(name)]);
    ReplayAppend([name], inner, [End(name)]);
    OpenOne(name);
    ReplayBeneath([name], [], inner);
    assert [name] + [] == [name];
    assert Replay([name], [End(name)]) == Replay([], []);
  }

  /** Balanced traces run one after the other are balanced. */
  lemma ConcatBalanced(a: seq<SpanEvent>, b: seq<SpanEvent>)
    requires Balanced(a) && Balanced(b)
    ensures Balanced(a + b)
  {
    ReplayAppend([], a, b);
  }

  lemma SpanBalanced(name: string)
    ensures Balanced(Span(name))
  {
    AroundBalanced(name, []);
    assert Around(name, []) == Span(name);
  }

  /** Stopping a span a second time after balanced work breaks the nesting. */
  lemma ExtraStopUnbalanced(name: string, inner: seq<SpanEvent>)
    requires Balanced(inner)
    ensures Replay([], Around(name, inner) + [End(name)]) == None
    ensures !Balanced(Around(name, inner) + [End(name)])
  {
    AroundBalanced(name, inner);
    ReplayAppend([], Around(name, inner), [End(name)]);
  }

  /** Starting a span and leaving by a throw leaves that span open. */
  lemma StartedLeftOpen(before: seq<SpanEvent>, name: string)
    requires Balanced(before)
    ensures Replay([], before + [Begin(name)]) == Some([name])
    ensures !Balanced(before + [Begin(name)])
  {
    ReplayAppend([], before, [Begin(name)]);
    OpenOne(name);
  }

  lemma OpenOne(name: string)
    ensures Replay([], [Begin(name)]) == Some([name])
  {
    var none: seq<string> := [];
    assert [Begin(name)][1..] == [];
    assert none + [name] == [name];
  }
}
