/**
 * The part of the monitoring framework's check API that the yum check uses:
 * service states, the `Result` and `Metric` items a check function yields, and
 * the run of a check generator, which is the items yielded before it returns or
 * raises.
 */
module CheckApi {
  import opened Python

  /** Service states, in the order of their numeric levels 0..3. */
  datatype State = OK | WARN | CRIT | UNKNOWN

  /** The numeric level of a state (OK 0, WARN 1, CRIT 2, UNKNOWN 3). */
  function Level(s: State): int {
    match s
    case OK => 0
    case WARN => 1
    case CRIT => 2
    case UNKNOWN => 3
  }

  /** `State(level)`: levels 0..3 name a state; any other level raises ValueError. */
  function StateOf(level: int): (r: Outcome<State>)
    ensures r.Ok? <==> 0 <= level <= 3
    ensures r.Ok? ==> Level(r.value) == level
    ensures r.Raised? ==> r.error == ValueError
  {
    if level == 0 then Ok(OK)
    else if level == 1 then Ok(WARN)
    else if level == 2 then Ok(CRIT)
    else if level == 3 then Ok(UNKNOWN)
    else Raised(ValueError)
  }

  /** An item yielded by a check function; `S` is the check's vocabulary of summaries. */
  datatype Output<S> = Result(state: State, summary: S) | Metric(name: string, value: int)

  /**
   * Running a check generator to its end: the items it yielded, and the
   * exception that ended it, if any.
   */
  datatype Run<S> = Run(items: seq<Output<S>>, raised: Option<PyError>)

  function Emit<S>(items: seq<Output<S>>): Run<S> {
    Run(items, None)
  }

  function Raise<S>(e: PyError): Run<S> {
    Run([], Some(e))
  }

  /** Running one block of the generator and then, unless it raised, the next. */
  function Then<S>(first: Run<S>, next: Run<S>): (r: Run<S>)
    ensures first.raised.Some? ==> r == first
    ensures first.raised.None? ==> r.items == first.items + next.items && r.raised == next.raised
  {
    if first.raised.Some? then first else Run(first.items + next.items, next.raised)
  }

  /**
   * `yield Result(state=State(level), summary=summary)` followed by `metrics`,
   * where looking the level up may itself have raised.
   */
  function ResultAtLevel<S>(level: Outcome<int>, summary: S, metrics: seq<Output<S>>): (r: Run<S>)
    ensures r.raised.None? <==> level.Ok? && 0 <= level.value <= 3
    ensures r.raised.None? ==> r.items == [Result(StateOf(level.value).value, summary)] + metrics
    ensures r.raised.Some? ==> r.items == []
    ensures level.Raised? ==> r.raised == Some(level.error)
    ensures level.Ok? && r.raised.Some? ==> r.raised == Some(ValueError)
  {
    match level
    case Raised(e) => Raise(e)
    case Ok(l) =>
      match StateOf(l)
      case Raised(e) => Raise(e)
      case Ok(st) => Emit([Result(st, summary)] + metrics)
  }

  /** The value of `item` if it is the metric called `name`. */
  function MetricOf<S>(item: Output<S>, name: string): seq<int> {
    if item.Metric? && item.name == name then [item.value] else []
  }

  /** The values of the metrics called `name`, in the order they were yielded. */
  function MetricValues<S>(items: seq<Output<S>>, name: string): seq<int> {
    if items == [] then [] else MetricOf(items[0], name) + MetricValues(items[1..], name)
  }

  /** The summary of `item` if it is a result. */
  function SummaryOf<S>(item: Output<S>): seq<S> {
    if item.Result? then [item.summary] else []
  }

  /** The summaries of the results, in the order they were yielded. */
  function Summaries<S>(items: seq<Output<S>>): seq<S> {
    if items == [] then [] else SummaryOf(items[0]) + Summaries(items[1..])
  }

  lemma {:induction false} MetricValuesAppend<S>(a: seq<Output<S>>, b: seq<Output<S>>, name: string)
    ensures MetricValues(a + b, name) == MetricValues(a, name) + MetricValues(b, name)
  {
    if a == [] {
      assert a + b == b;
    } else {
      assert (a + b)[1..] == a[1..] + b;
      MetricValuesAppend(a[1..], b, name);
    }
  }

  lemma {:induction false} SummariesAppend<S>(a: seq<Output<S>>, b: seq<Output<S>>)
    ensures Summaries(a + b) == Summaries(a) + Summaries(b)
  {
    if a == [] {
      assert a + b == b;
    } else {
      assert (a + b)[0] == a[0] && (a + b)[1..] == a[1..] + b;
      SummariesAppend(a[1..], b);
    }
  }

  /** The metrics among at most two items. */
  lemma MetricValuesOfShort<S>(items: seq<Output<S>>, name: string)
    requires |items| <= 2
    ensures MetricValues(items, name)
         == (if |items| == 0 then [] else MetricOf(items[0], name))
          + (if |items| == 2 then MetricOf(items[1], name) else [])
  {
  }

  /** The summaries among at most two items. */
  lemma SummariesOfShort<S>(items: seq<Output<S>>)
    requires |items| <= 2
    ensures Summaries(items)
         == (if |items| == 0 then [] else SummaryOf(items[0]))
          + (if |items| == 2 then SummaryOf(items[1]) else [])
  {
  }

  /** What a run of two blocks yields, metric by metric and summary by summary. */
  lemma ThenCollects<S>(first: Run<S>, next: Run<S>, name: string)
    requires first.raised.None?
    ensures Then(first, next).raised == next.raised
    ensures MetricValues(Then(first, next).items, name)
         == MetricValues(first.items, name) + MetricValues(next.items, name)
    ensures Summaries(Then(first, next).items) == Summaries(first.items) + Summaries(next.items)
  {
    MetricValuesAppend(first.items, next.items, name);
    SummariesAppend(first.items, next.items);
  }

  /**
   * Four blocks run one after another, none of the first three raising: the run
   * ends as the last block does, and yields the metrics of the blocks in order.
   */
  lemma FourBlocksCollect<S>(a: Run<S>, b: Run<S>, c: Run<S>, d: Run<S>, name: string)
    requires a.raised.None? && b.raised.None? && c.raised.None?
    ensures Then(Then(Then(a, b), c), d).raised == d.raised
    ensures MetricValues(Then(Then(Then(a, b), c), d).items, name)
         == MetricValues(a.items, name) + MetricValues(b.items, name)
          + MetricValues(c.items, name) + MetricValues(d.items, name)
  {
    ThenCollects(a, b, name);
    ThenCollects(Then(a, b), c, name);
    ThenCollects(Then(Then(a, b), c), d, name);
  }
}
