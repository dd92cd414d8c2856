/** The measurement loop the three query scripts share. A query is timed by
    reading `time.time()` on either side of it and reporting the difference in
    milliseconds; each query is run NUM_RUNS times and the reported figure is
    the sum of the samples divided by NUM_RUNS. The store's answer to a query
    is an oracle (a function from the query to its rows): the stores are only
    read while the queries run, so every run of a query gets the same rows.
    What the client does is kept as a trace of events, so that a contract can
    say which events a sample spans. */
module Benchmark {
  import opened Base

  const NUM_RUNS: nat := 10

  /** One thing the client does, in the order it does it. */
  datatype Event<Q> =
    | ClockRead(t: real)   // a `time.time()` call and the value it returned
    | Sent(query: Q)       // the query, with its parameters, handed to the driver
    | Received(rows: nat)  // the whole answer materialised in a Python list

  /** `(end_time - start_time) * 1000` for two clock readings. */
  function Millis<Q>(start: Event<Q>, end: Event<Q>): real
    requires start.ClockRead? && end.ClockRead?
  {
    (end.t - start.t) * 1000.0
  }

  /** The client end of a connection, with everything it has done so far.
      `time.time()` is the wall clock, which may be set back: nothing here
      assumes that two readings are ordered. */
  class Client<Q> {
    var trace: seq<Event<Q>>

    constructor ()
      ensures trace == []
    {
      trace := [];
    }

    /** `time.time()`. */
    method Time() returns (t: real)
      modifies this
      ensures trace == old(trace) + [ClockRead(t)]
    {
      t :| true;
      trace := trace + [ClockRead(t)];
    }

    /** `cursor.execute(q, params)`, `session.execute(q, params)`, or creating a
        pymongo cursor. */
    method Send(q: Q)
      modifies this
      ensures trace == old(trace) + [Sent(q)]
    {
      trace := trace + [Sent(q)];
    }

    /** `cursor.fetchall()` or `list(rows)`: every row of the answer. */
    method FetchAll<R>(answer: seq<R>) returns (rows: seq<R>)
      modifies this
      ensures rows == answer
      ensures trace == old(trace) + [Received(|answer|)]
    {
      rows := answer;
      trace := trace + [Received(|answer|)];
    }
  }

  /** Where the first clock reading falls: before the query is sent
      (`execute_query`, `execute_cql_query`, and a lazy pymongo `find` cursor,
      which sends its query when `list()` first pulls from it) or after it (a
      pymongo `aggregate`, which runs the pipeline when it is called, before
      `measure_execution_time` starts the clock). */
  datatype Timer = AroundSend | AfterSend

  /** Events j .. j+3 of the trace are one timed run of q whose answer has n
      rows, and ms is the sample it yields: the second clock reading comes
      after the whole answer has been received. */
  predicate Run<Q(==)>(tr: seq<Event<Q>>, j: int, q: Q, n: nat, timer: Timer, ms: real) {
    && 0 <= j && j + 4 <= |tr|
    && tr[j + 2] == Received(n) && tr[j + 3].ClockRead?
    && match timer
       case AroundSend =>
         tr[j].ClockRead? && tr[j + 1] == Sent(q) && ms == Millis(tr[j], tr[j + 3])
       case AfterSend =>
         tr[j] == Sent(q) && tr[j + 1].ClockRead? && ms == Millis(tr[j + 1], tr[j + 3])
  }

  /** From position j on, the trace holds |times| runs of q back to back, the
      i-th of them yielding times[i]. */
  predicate RunsLogged<Q(==)>(tr: seq<Event<Q>>, j: int, q: Q, n: nat, timer: Timer, times: seq<real>) {
    forall i :: 0 <= i < |times| ==> Run(tr, j + 4 * i, q, n, timer, times[i])
  }

  /** `execute_query(cursor, q, params)` / `execute_cql_query(session, q, params)`:
      the clock is read, the query sent, every row fetched, the clock read
      again; the sample is the difference in milliseconds. */
  method ExecuteQuery<Q(==), R>(client: Client<Q>, q: Q, answer: seq<R>) returns (ms: real, results: seq<R>)
    modifies client
    ensures results == answer
    ensures |client.trace| == |old(client.trace)| + 4
    ensures client.trace[..|old(client.trace)|] == old(client.trace)
    ensures Run(client.trace, |old(client.trace)|, q, |answer|, AroundSend, ms)
  {
    var startTime := client.Time();
    client.Send(q);
    results := client.FetchAll(answer);
    var endTime := client.Time();
    ms := (endTime - startTime) * 1000.0;
  }

  /** `measure_execution_time(cursor)`: the clock is read, the cursor drained
      into a list, the clock read again. */
  method MeasureExecutionTime<Q(==), R>(client: Client<Q>, answer: seq<R>) returns (ms: real, results: seq<R>)
    modifies client
    ensures results == answer
    ensures |client.trace| == |old(client.trace)| + 3
    ensures client.trace[..|old(client.trace)|] == old(client.trace)
    ensures client.trace[|old(client.trace)|].ClockRead?
    ensures client.trace[|old(client.trace)| + 1] == Received(|answer|)
    ensures client.trace[|old(client.trace)| + 2].ClockRead?
    ensures ms == Millis(client.trace[|old(client.trace)|], client.trace[|old(client.trace)| + 2])
  {
    var startTime := client.Time();
    results := client.FetchAll(answer);
    var endTime := client.Time();
    ms := (endTime - startTime) * 1000.0;
  }

  /** One run of a timing loop: `execute_query` for the relational and the
      wide-column store; for the document store, the cursor is created and then
      handed to `measure_execution_time`, which sends a `find` inside the timed
      span and finds an `aggregate` already sent. */
  method TimedRun<Q(==), R>(client: Client<Q>, q: Q, answer: seq<R>, timer: Timer) returns (ms: real, results: seq<R>)
    modifies client
    ensures results == answer
    ensures |client.trace| == |old(client.trace)| + 4
    ensures client.trace[..|old(client.trace)|] == old(client.trace)
    ensures Run(client.trace, |old(client.trace)|, q, |answer|, timer, ms)
  {
    if timer == AroundSend {
      ms, results := ExecuteQuery(client, q, answer);
    } else {
      client.Send(q);
      ms, results := MeasureExecutionTime(client, answer);
    }
  }

  /** A run recorded in a trace stays recorded when the trace grows. */
  lemma RunKept<Q>(tr: seq<Event<Q>>, tr': seq<Event<Q>>, j: int, q: Q, n: nat, timer: Timer, ms: real)
    requires Run(tr, j, q, n, timer, ms)
    requires |tr| <= |tr'| && tr'[..|tr|] == tr
    ensures Run(tr', j, q, n, timer, ms)
  {
    assert forall k :: 0 <= k < |tr| ==> tr'[k] == tr[k];
  }

  /** Appending one more run to a log of runs that ends where the trace ends. */
  lemma RunsLoggedStep<Q>(tr: seq<Event<Q>>, tr': seq<Event<Q>>, j: int, q: Q, n: nat, timer: Timer,
                          times: seq<real>, ms: real)
    requires RunsLogged(tr, j, q, n, timer, times)
    requires 0 <= j && |tr| == j + 4 * |times| && |tr'| == |tr| + 4 && tr'[..|tr|] == tr
    requires Run(tr', |tr|, q, n, timer, ms)
    ensures RunsLogged(tr', j, q, n, timer, times + [ms])
  {
    var ts := times + [ms];
    forall i | 0 <= i < |ts|
      ensures Run(tr', j + 4 * i, q, n, timer, ts[i])
    {
      if i < |times| {
        RunKept(tr, tr', j + 4 * i, q, n, timer, times[i]);
      }
    }
  }

  /** A timing loop: `for _ in range(NUM_RUNS)`, appending each run's sample to
      `times` and keeping the last run's rows in `results`. */
  method TimeQuery<Q(==), R>(client: Client<Q>, q: Q, answer: seq<R>, timer: Timer)
    returns (times: seq<real>, results: seq<R>)
    modifies client
    ensures |times| == NUM_RUNS && results == answer
    ensures |client.trace| == |old(client.trace)| + 4 * NUM_RUNS
    ensures client.trace[..|old(client.trace)|] == old(client.trace)
    ensures RunsLogged(client.trace, |old(client.trace)|, q, |answer|, timer, times)
  {
    ghost var t0 := client.trace;
    times := [];
    results := [];
    for k := 0 to NUM_RUNS
      invariant |times| == k && (k > 0 ==> results == answer)
      invariant |client.trace| == |t0| + 4 * k && client.trace[..|t0|] == t0
      invariant RunsLogged(client.trace, |t0|, q, |answer|, timer, times)
    {
      ghost var before := client.trace;
      var ms, rows := TimedRun(client, q, answer, timer);
      RunsLoggedStep(before, client.trace, |t0|, q, |answer|, timer, times, ms);
      assert client.trace[..|t0|] == before[..|t0|];
      times := times + [ms];
      results := rows;
    }
  }

  /** The samples are determined by the trace: two logs of the same runs
      read the same times. */
  lemma RunsLoggedUnique<Q>(tr: seq<Event<Q>>, j: int, q: Q, n: nat, timer: Timer, a: seq<real>, b: seq<real>)
    requires |a| == |b|
    requires RunsLogged(tr, j, q, n, timer, a) && RunsLogged(tr, j, q, n, timer, b)
    ensures a == b
  {
    forall i | 0 <= i < |a|
      ensures a[i] == b[i]
    {
      assert Run(tr, j + 4 * i, q, n, timer, a[i]);
      assert Run(tr, j + 4 * i, q, n, timer, b[i]);
    }
  }

  /** Python's `sum()` over floats, here exact: accumulated from the left. */
  function Sum(xs: seq<real>): real {
    if |xs| == 0 then 0.0 else Sum(xs[..|xs| - 1]) + xs[|xs| - 1]
  }

  /** `sum(q_times) / NUM_RUNS`. */
  function Average(times: seq<real>): real {
    Sum(times) / (NUM_RUNS as real)
  }

  lemma {:induction false} SumBounds(xs: seq<real>, lo: real, hi: real)
    requires forall i :: 0 <= i < |xs| ==> lo <= xs[i] <= hi
    ensures (|xs| as real) * lo <= Sum(xs) <= (|xs| as real) * hi
  {
    if |xs| > 0 {
      SumBounds(xs[..|xs| - 1], lo, hi);
    }
  }

  /** With NUM_RUNS samples, the reported average lies between the smallest and
      the largest of them. */
  lemma AverageBounds(times: seq<real>, lo: real, hi: real)
    requires |times| == NUM_RUNS
    requires forall i :: 0 <= i < |times| ==> lo <= times[i] <= hi
    ensures lo <= Average(times) <= hi
  {
    SumBounds(times, lo, hi);
  }

  /** With NUM_RUNS samples, the reported average is their mean: NUM_RUNS equal
      samples average to that sample. */
  lemma AverageOfConstant(times: seq<real>, c: real)
    requires |times| == NUM_RUNS
    requires forall i :: 0 <= i < |times| ==> times[i] == c
    ensures Average(times) == c
  {
    SumBounds(times, c, c);
  }

  /** The outcome of one query block: its sample lookup found nothing, or the
      query was timed and its average reported. */
  datatype Block = NoneFound | Timed(averageMs: real)

  /** How many events a block adds to the trace: NUM_RUNS runs of four events
      when it has a query, none when its lookup found nothing. */
  function BlockSpan<Q>(q: Option<Q>): nat {
    if q.Some? then 4 * NUM_RUNS else 0
  }

  /** How many events the blocks qs add, one after the other. */
  function Span<Q>(qs: seq<Option<Q>>): nat {
    if qs == [] then 0 else Span(qs[..|qs| - 1]) + BlockSpan(qs[|qs| - 1])
  }

  /** A block's outcome and samples agree with the query it was given and with
      the trace from position j on: no query, nothing timed; a query, NUM_RUNS
      runs of it logged back to back from j and their average reported. */
  ghost predicate BlockDone<Q, R>(tr: seq<Event<Q>>, j: int, q: Option<Q>, store: Q -> seq<R>, timerOf: Q -> Timer,
                                  b: Block, times: seq<real>) {
    match q
    case None => b.NoneFound? && times == []
    case Some(q) =>
      && b == Timed(Average(times))
      && |times| == NUM_RUNS
      && RunsLogged(tr, j, q, |store(q)|, timerOf(q), times)
  }

  /** Blocks 0 .. |qs|-1 are done one after the other from position `start`:
      the blocks before the last are done from `start`, and the last one,
      with query qs[|qs|-1], starts where they end. */
  ghost predicate AllDone<Q, R>(tr: seq<Event<Q>>, start: int, qs: seq<Option<Q>>, store: Q -> seq<R>,
                                timerOf: Q -> Timer, blocks: seq<Block>, times: seq<seq<real>>)
    decreases |qs|
  {
    && |blocks| == |qs| && |times| == |qs|
    && 0 <= start
    && if qs == [] then start <= |tr|
       else
         var n := |qs| - 1;
         && AllDone(tr, start, qs[..n], store, timerOf, blocks[..n], times[..n])
         && start + Span(qs) <= |tr|
         && BlockDone(tr, start + Span(qs[..n]), qs[n], store, timerOf, blocks[n], times[n])
  }

  /** Done blocks lie inside the trace, and block k, with query qs[k], starts
      where the blocks before it end. */
  lemma {:induction false} AllDoneBlocks<Q, R>(tr: seq<Event<Q>>, start: int, qs: seq<Option<Q>>, store: Q -> seq<R>,
                                               timerOf: Q -> Timer, blocks: seq<Block>, times: seq<seq<real>>, k: int)
    requires AllDone(tr, start, qs, store, timerOf, blocks, times)
    requires 0 <= k < |qs|
    ensures start + Span(qs) <= |tr|
    ensures BlockDone(tr, start + Span(qs[..k]), qs[k], store, timerOf, blocks[k], times[k])
  {
    var n := |qs| - 1;
    if k < n {
      AllDoneBlocks(tr, start, qs[..n], store, timerOf, blocks[..n], times[..n], k);
      assert qs[..n][..k] == qs[..k];
    }
  }

  /** What a finished block states stays true when the trace grows. */
  lemma BlockDoneKept<Q, R>(tr: seq<Event<Q>>, tr': seq<Event<Q>>, j: int, q: Option<Q>, store: Q -> seq<R>,
                            timerOf: Q -> Timer, b: Block, times: seq<real>)
    requires BlockDone(tr, j, q, store, timerOf, b, times)
    requires |tr| <= |tr'| && tr'[..|tr|] == tr
    ensures BlockDone(tr', j, q, store, timerOf, b, times)
  {
    if q.Some? {
      forall i | 0 <= i < |times|
        ensures Run(tr', j + 4 * i, q.value, |store(q.value)|, timerOf(q.value), times[i])
      {
        RunKept(tr, tr', j + 4 * i, q.value, |store(q.value)|, timerOf(q.value), times[i]);
      }
    }
  }

  /** What the finished blocks state stays true when the trace grows. */
  lemma {:induction false} AllDoneKept<Q, R>(tr: seq<Event<Q>>, tr': seq<Event<Q>>, start: int, qs: seq<Option<Q>>,
                                             store: Q -> seq<R>, timerOf: Q -> Timer,
                                             blocks: seq<Block>, times: seq<seq<real>>)
    requires AllDone(tr, start, qs, store, timerOf, blocks, times)
    requires |tr| <= |tr'| && tr'[..|tr|] == tr
    ensures AllDone(tr', start, qs, store, timerOf, blocks, times)
  {
    if qs != [] {
      var n := |qs| - 1;
      AllDoneKept(tr, tr', start, qs[..n], store, timerOf, blocks[..n], times[..n]);
      BlockDoneKept(tr, tr', start + Span(qs[..n]), qs[n], store, timerOf, blocks[n], times[n]);
    }
  }

  /** A block finished where the blocks already done end extends them; those
      stay done as the trace grows. */
  lemma AllDoneAppend<Q, R>(tr: seq<Event<Q>>, tr': seq<Event<Q>>, start: int, qs: seq<Option<Q>>, q: Option<Q>,
                            store: Q -> seq<R>, timerOf: Q -> Timer,
                            blocks: seq<Block>, times: seq<seq<real>>, b: Block, t: seq<real>)
    requires AllDone(tr, start, qs, store, timerOf, blocks, times)
    requires |tr| == start + Span(qs)
    requires |tr'| == |tr| + BlockSpan(q) && tr'[..|tr|] == tr
    requires BlockDone(tr', |tr|, q, store, timerOf, b, t)
    ensures Span(qs + [q]) == Span(qs) + BlockSpan(q)
    ensures AllDone(tr', start, qs + [q], store, timerOf, blocks + [b], times + [t])
  {
    AllDoneKept(tr, tr', start, qs, store, timerOf, blocks, times);
    assert (qs + [q])[..|qs|] == qs;
    assert (blocks + [b])[..|qs|] == blocks;
    assert (times + [t])[..|qs|] == times;
  }

  /** A trace that extends one extending `a` extends `a`. */
  lemma PrefixTrans<Q>(a: seq<Event<Q>>, b: seq<Event<Q>>, c: seq<Event<Q>>)
    requires |a| <= |b| && b[..|a|] == a
    requires |b| <= |c| && c[..|b|] == b
    ensures c[..|a|] == a
  {
    assert c[..|a|] == c[..|b|][..|a|];
  }

  /** A query block: `if sample: <timing loop>; print the average`, `else:
      print "none found"`. The query, with the parameters taken from the
      sample, is `q`; `None` when the sample lookup found nothing. */
  method GatedTiming<Q(==), R>(client: Client<Q>, q: Option<Q>, store: Q -> seq<R>, timerOf: Q -> Timer)
    returns (b: Block, times: seq<real>)
    modifies client
    ensures |client.trace| == |old(client.trace)| + BlockSpan(q)
    ensures client.trace[..|old(client.trace)|] == old(client.trace)
    ensures BlockDone(client.trace, |old(client.trace)|, q, store, timerOf, b, times)
  {
    if q.None? {
      return NoneFound, [];
    }
    var results;
    times, results := TimeQuery(client, q.value, store(q.value), timerOf(q.value));
    b := Timed(Average(times));
  }

  /** Runs the next block of a script right after the blocks already done,
      which stay done. */
  method NextBlock<Q(==), R>(client: Client<Q>, q: Option<Q>, store: Q -> seq<R>, timerOf: Q -> Timer,
                             ghost start: int, ghost qs: seq<Option<Q>>, blocks: seq<Block>, times: seq<seq<real>>)
    returns (blocks': seq<Block>, times': seq<seq<real>>)
    modifies client
    requires AllDone(client.trace, start, qs, store, timerOf, blocks, times)
    requires |client.trace| == start + Span(qs)
    ensures |client.trace| == |old(client.trace)| + BlockSpan(q) == start + Span(qs + [q])
    ensures client.trace[..|old(client.trace)|] == old(client.trace)
    ensures AllDone(client.trace, start, qs + [q], store, timerOf, blocks', times')
  {
    ghost var before := client.trace;
    var b, t := GatedTiming(client, q, store, timerOf);
    blocks' := blocks + [b];
    times' := times + [t];
    AllDoneAppend(before, client.trace, start, qs, q, store, timerOf, blocks, times, b, t);
  }
}
