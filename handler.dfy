/**
 * handler.go: the import endpoint. ServeHTTP answers 200 with the handler's
 * message or 500 with its error; the message counts what the export holds;
 * and after answering, every configured store is sent the populated metrics,
 * then the workouts, then asked to optimize its tables, a failing step
 * skipping the rest of that store's steps.
 */
module Handler {
  import opened Wrappers
  import opened Decimal
  import opened Metrics
  import opened Workouts
  import opened Stores

  /**
   * What request.Parse returns, as far as the handler reads it. The counts of
   * populated metrics and samples come from Export's own helpers, which are
   * not part of this model; their results are carried as given.
   */
  datatype Export = Export(metrics: seq<Metric>, workouts: seq<Workout>, populatedMetrics: seq<Metric>, totalSamples: nat)

  // ------------------------------------------------------------------ the reply

  const ReplyStart: string := "Processing request. Received "
  const AfterMetrics: string := " metrics ("
  const AfterPopulated: string := " populated), "
  const AfterSamples: string := " samples, and "
  const ReplyEnd: string := " workouts."

  /** The reply handle builds before any upload starts: four `%d` fields in fixed text. */
  function Reply(metrics: nat, populated: nat, samples: nat, workouts: nat): (r: string)
    ensures ReplyStart <= r && |r| >= |ReplyEnd| && r[|r| - |ReplyEnd|..] == ReplyEnd
  {
    ReplyStart + (Decimal.Decimal(metrics) + (AfterMetrics + (Decimal.Decimal(populated) + (AfterPopulated
      + (Decimal.Decimal(samples) + (AfterSamples + (Decimal.Decimal(workouts) + ReplyEnd)))))))
  }

  /** The length of the run of digits `s` starts with. */
  function DigitRun(s: string): (n: nat)
    ensures n <= |s| && AllDigits(s[..n]) && (n < |s| ==> !IsDigit(s[n]))
  {
    if s == [] || !IsDigit(s[0]) then 0
    else
      var n := 1 + DigitRun(s[1..]);
      assert s[..n] == [s[0]] + s[1..][..n - 1];
      n
  }

  /** A number read off the front of `s`, and what follows it. */
  function ReadNumber(s: string): Option<(nat, string)> {
    var n := DigitRun(s);
    if n == 0 then None else Some((Value(s[..n]), s[n..]))
  }

  /** `s` with the fixed text `lit` taken off its front. */
  function Expect(s: string, lit: string): Option<string> {
    if lit <= s then Some(s[|lit|..]) else None
  }

  /** Reading the four counts back out of a reply; any other text gives None. */
  function ParseReply(s: string): Option<(nat, nat, nat, nat)> {
    var r0 :- Expect(s, ReplyStart);
    var m :- ReadNumber(r0);
    var r1 :- Expect(m.1, AfterMetrics);
    var p :- ReadNumber(r1);
    var r2 :- Expect(p.1, AfterPopulated);
    var n :- ReadNumber(r2);
    var r3 :- Expect(n.1, AfterSamples);
    var w :- ReadNumber(r3);
    var r4 :- Expect(w.1, ReplyEnd);
    if r4 == "" then Some((m.0, p.0, n.0, w.0)) else None
  }

  lemma ExpectFront(lit: string, t: string)
    ensures Expect(lit + t, lit) == Some(t)
  {
    assert lit <= lit + t;
    assert (lit + t)[|lit|..] == t;
  }

  /** The digit run at the front of `d + t` is `d` when `t` does not start with a digit. */
  lemma {:induction false} DigitRunOf(d: string, t: string)
    requires AllDigits(d) && (t == [] || !IsDigit(t[0]))
    ensures DigitRun(d + t) == |d|
    decreases |d|
  {
    if d == [] {
      assert d + t == t;
    } else {
      assert (d + t)[0] == d[0] && (d + t)[1..] == d[1..] + t;
      DigitRunOf(d[1..], t);
    }
  }

  /** A number written with `%d` is read back whole when a non-digit follows it. */
  lemma ReadDecimal(x: nat, t: string)
    requires t == [] || !IsDigit(t[0])
    ensures ReadNumber(Decimal.Decimal(x) + t) == Some((x, t))
  {
    var d := Decimal.Decimal(x);
    DigitRunOf(d, t);
    assert (d + t)[..|d|] == d && (d + t)[|d|..] == t;
    ValueOfDecimal(x);
  }

  /** The reply states the four counts so that they can be read back from it. */
  lemma {:induction false} ReplyRoundTrip(metrics: nat, populated: nat, samples: nat, workouts: nat)
    ensures ParseReply(Reply(metrics, populated, samples, workouts)) == Some((metrics, populated, samples, workouts))
  {
    var tail4 := ReplyEnd;
    var tail3 := Decimal.Decimal(workouts) + tail4;
    var tail2 := AfterSamples + tail3;
    var tail1 := Decimal.Decimal(samples) + tail2;
    var tail0 := AfterPopulated + tail1;
    var mid1 := Decimal.Decimal(populated) + tail0;
    var mid0 := AfterMetrics + mid1;
    var all := Decimal.Decimal(metrics) + mid0;
    ExpectFront(ReplyStart, all);
    ReadDecimal(metrics, mid0);
    ExpectFront(AfterMetrics, mid1);
    ReadDecimal(populated, tail0);
    ExpectFront(AfterPopulated, tail1);
    ReadDecimal(samples, tail2);
    ExpectFront(AfterSamples, tail3);
    ReadDecimal(workouts, tail4);
    ExpectFront(ReplyEnd, "");
    assert ReplyEnd + "" == ReplyEnd;
  }

  /** Different counts give different replies. */
  lemma ReplyInjective(m: nat, p: nat, s: nat, w: nat, m': nat, p': nat, s': nat, w': nat)
    requires Reply(m, p, s, w) == Reply(m', p', s', w')
    ensures m == m' && p == p' && s == s' && w == w'
  {
    ReplyRoundTrip(m, p, s, w);
    ReplyRoundTrip(m', p', s', w');
  }

  /** handle: a request that does not parse returns the parse error; otherwise the reply counts the export. */
  function Handle(parsed: Result<Export, string>): (r: Result<string, string>)
    ensures r.Err? <==> parsed.Err?
    ensures parsed.Err? ==> r.error == parsed.error
    ensures r.Ok? ==> ReplyStart <= r.value
  {
    match parsed
    case Err(e) => Err(e)
    case Ok(ex) =>
      Ok(Reply(|ex.metrics|, |ex.populatedMetrics|, ex.totalSamples, |ex.workouts|))
  }

  /** The reply to a parsed export carries its counts, readable from the text. */
  lemma HandleCounts(ex: Export)
    ensures Handle(Ok(ex)).Ok?
    ensures ParseReply(Handle(Ok(ex)).value)
            == Some((|ex.metrics|, |ex.populatedMetrics|, ex.totalSamples, |ex.workouts|))
  {
    ReplyRoundTrip(|ex.metrics|, |ex.populatedMetrics|, ex.totalSamples, |ex.workouts|);
  }

  // ------------------------------------------------------------------ ServeHTTP

  datatype Response = Response(status: int, body: string)

  /** ServeHTTP's choice: 200 and the message, or 500 and the error after "ERROR: "; either ends in a newline. */
  function Respond(handled: Result<string, string>): (r: Response)
    ensures (r.status == 200 <==> handled.Ok?) && (r.status == 500 <==> handled.Err?)
    ensures |r.body| > 0 && r.body[|r.body| - 1] == '\n'
    ensures handled.Err? ==> "ERROR: " <= r.body
  {
    match handled
    case Ok(msg) => Response(200, msg + "\n")
    case Err(e) => Response(500, "ERROR: " + e + "\n")
  }

  /** What a client reads from a response: the message of a 200, the error of any other status. */
  function ReadResponse(r: Response): Result<string, string> {
    var text := if r.body != [] && r.body[|r.body| - 1] == '\n' then r.body[..|r.body| - 1] else r.body;
    if r.status == 200 then Ok(text)
    else if "ERROR: " <= text then Err(text[|"ERROR: "|..])
    else Err(text)
  }

  /** The status says whether handling succeeded, and the body gives back exactly the message or the error. */
  lemma RespondRoundTrip(handled: Result<string, string>)
    ensures Respond(handled).status == (if handled.Ok? then 200 else 500)
    ensures ReadResponse(Respond(handled)) == handled
  {
    match handled
    case Ok(msg) =>
      assert (msg + "\n")[..|msg|] == msg;
    case Err(e) =>
      var text := "ERROR: " + e;
      assert (text + "\n")[..|text|] == text;
      assert "ERROR: " <= text;
      assert text[|"ERROR: "|..] == e;
  }

  // ------------------------------------------------------------------ the upload

  /** The steps every store goes through: metrics if any are populated, workouts if any arrived, then optimizing. */
  function Steps(populated: seq<Metric>, workouts: seq<Workout>): seq<Call> {
    (if |populated| > 0 then [Store(populated)] else [])
    + (if |workouts| > 0 then [StoreWorkouts(workouts)] else [])
    + [OptimizeTables]
  }

  /** One call made on store number `store`, and the error it returned. */
  datatype Invocation = Invocation(store: nat, call: Call, error: Option<string>)

  /** The steps store number `i` is sent: each in turn, up to and including the first that fails. */
  function Attempts(i: nat, s: MetricStore, steps: seq<Call>): seq<Invocation>
    decreases |steps|
  {
    if steps == [] then []
    else
      var e := s.respond(steps[0]);
      [Invocation(i, steps[0], e)] + (if e.Some? then [] else Attempts(i, s, steps[1..]))
  }

  /** The calls the upload makes on one slot of the store list: none for a nil slot. */
  function SlotAttempts(i: nat, slot: Option<MetricStore>, steps: seq<Call>): seq<Invocation> {
    if slot.Some? then Attempts(i, slot.value, steps) else []
  }

  /** The calls the upload makes on the first `n` slots, slot by slot. */
  function UploadUpTo(stores: seq<Option<MetricStore>>, n: nat, populated: seq<Metric>, workouts: seq<Workout>): seq<Invocation>
    requires n <= |stores|
  {
    if n == 0 then []
    else UploadUpTo(stores, n - 1, populated, workouts) + SlotAttempts(n - 1, stores[n - 1], Steps(populated, workouts))
  }

  /**
   * How far the upload loop gets: the first nil slot, where
   * `metricStore.Name()` dereferences a nil interface and the goroutine
   * panics, or the end of the list when no slot is nil. The loader leaves a
   * nil slot for a config entry of unknown type.
   */
  function Reach(stores: seq<Option<MetricStore>>): (r: nat)
    ensures r <= |stores|
    ensures forall k :: 0 <= k < r ==> stores[k].Some?
    ensures r < |stores| ==> stores[r].None?
  {
    if stores == [] || stores[0].None? then 0
    else
      var r := 1 + Reach(stores[1..]);
      assert forall k :: 1 <= k < r ==> stores[k] == stores[1..][k - 1];
      r
  }

  /** The calls the whole upload makes: those on every slot before the first nil one. */
  function Trace(stores: seq<Option<MetricStore>>, populated: seq<Metric>, workouts: seq<Workout>): seq<Invocation> {
    UploadUpTo(stores, Reach(stores), populated, workouts)
  }

  /**
   * The background upload of handle, run after the reply: for each store in
   * order, Store with the populated metrics when there are any, StoreWorkouts
   * when there are workouts, then OptimizeTables; a failing call moves on to
   * the next store. A nil slot panics, which ends the upload (and the server
   * process) there. The result is the calls made, with what each returned,
   * and whether the upload panicked.
   */
  method Upload(stores: seq<Option<MetricStore>>, populated: seq<Metric>, workouts: seq<Workout>)
    returns (trace: seq<Invocation>, panicked: bool)
    ensures trace == Trace(stores, populated, workouts)
    ensures panicked <==> exists k :: 0 <= k < |stores| && stores[k].None?
  {
    trace := [];
    var i := 0;
    while i < |stores| && stores[i].Some?
      invariant i <= Reach(stores)
      invariant trace == UploadUpTo(stores, i, populated, workouts)
    {
      var calls := UploadTo(i, stores[i].value, populated, workouts);
      trace := trace + calls;
      i := i + 1;
    }
    panicked := i < |stores|;
  }

  /** The body of the upload loop for store number `i`: its steps in turn, moving on at the first error. */
  method UploadTo(i: nat, store: MetricStore, populated: seq<Metric>, workouts: seq<Workout>) returns (calls: seq<Invocation>)
    ensures calls == Attempts(i, store, Steps(populated, workouts))
  {
    calls := [];
    if |populated| > 0 {
      var e := store.respond(Store(populated));
      calls := calls + [Invocation(i, Store(populated), e)];
      if e.Some? {
        assert Steps(populated, workouts)[0] == Store(populated);
        return;
      }
    }
    if |workouts| > 0 {
      var e := store.respond(StoreWorkouts(workouts));
      calls := calls + [Invocation(i, StoreWorkouts(workouts), e)];
      if e.Some? {
        AttemptsWorkoutsFail(i, store, populated, workouts);
        return;
      }
    }
    var e := store.respond(OptimizeTables);
    calls := calls + [Invocation(i, OptimizeTables, e)];
    AttemptsAllRun(i, store, populated, workouts);
  }

  /** When the workouts step fails, the store's calls end there. */
  lemma AttemptsWorkoutsFail(i: nat, s: MetricStore, populated: seq<Metric>, workouts: seq<Workout>)
    requires |workouts| > 0 && s.respond(StoreWorkouts(workouts)).Some?
    requires |populated| > 0 ==> s.respond(Store(populated)).None?
    ensures Attempts(i, s, Steps(populated, workouts))
            == (if |populated| > 0 then [Invocation(i, Store(populated), None)] else [])
               + [Invocation(i, StoreWorkouts(workouts), s.respond(StoreWorkouts(workouts)))]
  {
    var steps := Steps(populated, workouts);
    if |populated| > 0 {
      assert steps[0] == Store(populated) && steps[1..][0] == StoreWorkouts(workouts);
    } else {
      assert steps[0] == StoreWorkouts(workouts);
    }
  }

  /** When the earlier steps succeed, the store's calls are all its steps, OptimizeTables last. */
  lemma AttemptsAllRun(i: nat, s: MetricStore, populated: seq<Metric>, workouts: seq<Workout>)
    requires |populated| > 0 ==> s.respond(Store(populated)).None?
    requires |workouts| > 0 ==> s.respond(StoreWorkouts(workouts)).None?
    ensures Attempts(i, s, Steps(populated, workouts))
            == (if |populated| > 0 then [Invocation(i, Store(populated), None)] else [])
               + (if |workouts| > 0 then [Invocation(i, StoreWorkouts(workouts), None)] else [])
               + [Invocation(i, OptimizeTables, s.respond(OptimizeTables))]
  {
    var steps := Steps(populated, workouts);
    var last := [OptimizeTables];
    assert Attempts(i, s, last) == [Invocation(i, OptimizeTables, s.respond(OptimizeTables))] by {
      assert last[1..] == [];
    }
    if |workouts| > 0 {
      var tail := [StoreWorkouts(workouts)] + last;
      assert tail[0] == StoreWorkouts(workouts) && tail[1..] == last;
      if |populated| > 0 {
        assert steps == [Store(populated)] + tail;
        assert steps[0] == Store(populated) && steps[1..] == tail;
      } else {
        assert steps == tail;
      }
    } else {
      if |populated| > 0 {
        assert steps == [Store(populated)] + last;
        assert steps[0] == Store(populated) && steps[1..] == last;
      } else {
        assert steps == last;
      }
    }
  }

  /**
   * ServeHTTP end to end: the response, the calls the background upload
   * makes (none if parsing failed), and whether the upload panicked on a nil
   * store slot.
   */
  method ServeHTTP(parsed: Result<Export, string>, stores: seq<Option<MetricStore>>)
    returns (response: Response, trace: seq<Invocation>, panicked: bool)
    ensures response == Respond(Handle(parsed))
    ensures parsed.Err? ==> trace == [] && !panicked
    ensures parsed.Ok? ==> trace == Trace(stores, parsed.value.populatedMetrics, parsed.value.workouts)
    ensures parsed.Ok? ==> (panicked <==> exists k :: 0 <= k < |stores| && stores[k].None?)
  {
    response := Respond(Handle(parsed));
    trace := [];
    panicked := false;
    if parsed.Ok? {
      trace, panicked := Upload(stores, parsed.value.populatedMetrics, parsed.value.workouts);
    }
  }

  // ------------------------------------------------------------------ properties of the upload

  /**
   * Store `i`'s calls, independently of the recursion: its k-th call is its
   * k-th step with that step's response, every call but the last succeeded,
   * and either every step was made or the last call failed.
   */
  lemma {:induction false} AttemptsShape(i: nat, s: MetricStore, steps: seq<Call>)
    ensures var a := Attempts(i, s, steps);
            && |a| <= |steps|
            && (forall k :: 0 <= k < |a| ==> a[k] == Invocation(i, steps[k], s.respond(steps[k])))
            && (forall k :: 0 <= k < |a| - 1 ==> a[k].error.None?)
            && (|a| == |steps| || a[|a| - 1].error.Some?)
            && (steps != [] ==> |a| >= 1)
    decreases |steps|
  {
    if steps != [] {
      var e := s.respond(steps[0]);
      if e.None? {
        var rest := Attempts(i, s, steps[1..]);
        AttemptsShape(i, s, steps[1..]);
        var a := Attempts(i, s, steps);
        assert a == [Invocation(i, steps[0], e)] + rest;
        forall k | 1 <= k < |a| ensures a[k] == Invocation(i, steps[k], s.respond(steps[k])) {
          assert a[k] == rest[k - 1] && steps[1..][k - 1] == steps[k];
        }
      }
    }
  }

  /** Each of a store's calls is one of its steps, made on that store, with that store's response. */
  lemma {:induction false} AttemptsMember(i: nat, s: MetricStore, steps: seq<Call>, inv: Invocation)
    requires inv in Attempts(i, s, steps)
    ensures inv.store == i && inv.call in steps && inv.error == s.respond(inv.call)
    decreases |steps|
  {
    var head := Invocation(i, steps[0], s.respond(steps[0]));
    if s.respond(steps[0]).None? && inv != head {
      AttemptsMember(i, s, steps[1..], inv);
    }
  }

  /** Every call of the upload is a step of the store it was made on, with that store's response. */
  lemma UploadCall(stores: seq<Option<MetricStore>>, populated: seq<Metric>, workouts: seq<Workout>, inv: Invocation)
    requires inv in Trace(stores, populated, workouts)
    ensures inv.store < Reach(stores) && stores[inv.store].Some? && inv.call in Steps(populated, workouts)
    ensures inv.error == stores[inv.store].value.respond(inv.call)
  {
    OwnAttemptsUpTo(stores, Reach(stores), populated, workouts, inv);
    AttemptsMember(inv.store, stores[inv.store].value, Steps(populated, workouts), inv);
  }

  /**
   * The upload never calls StoreStateOfMind, passes Store only the populated
   * metrics and only when there are some, and calls StoreWorkouts only when
   * there are workouts, always with all of them.
   */
  lemma UploadArguments(stores: seq<Option<MetricStore>>, populated: seq<Metric>, workouts: seq<Workout>, inv: Invocation)
    requires inv in Trace(stores, populated, workouts)
    ensures || (inv.call == Store(populated) && |populated| > 0)
            || (inv.call == StoreWorkouts(workouts) && |workouts| > 0)
            || inv.call == OptimizeTables
  {
    OwnAttemptsUpTo(stores, Reach(stores), populated, workouts, inv);
    AttemptsKinds(inv.store, stores[inv.store].value, populated, workouts, inv);
  }

  /** A store's calls are among the steps there are. */
  lemma AttemptsKinds(i: nat, s: MetricStore, populated: seq<Metric>, workouts: seq<Workout>, inv: Invocation)
    requires inv in Attempts(i, s, Steps(populated, workouts))
    ensures || (inv.call == Store(populated) && |populated| > 0)
            || (inv.call == StoreWorkouts(workouts) && |workouts| > 0)
            || inv.call == OptimizeTables
  {
    AttemptsMember(i, s, Steps(populated, workouts), inv);
    StepKinds(populated, workouts, inv.call);
  }

  /** The only steps there are. */
  lemma StepKinds(populated: seq<Metric>, workouts: seq<Workout>, c: Call)
    requires c in Steps(populated, workouts)
    ensures || (c == Store(populated) && |populated| > 0)
            || (c == StoreWorkouts(workouts) && |workouts| > 0)
            || c == OptimizeTables
  {
  }

  /** The calls on the first `m` slots stay, in the same order, as the upload goes on to later slots. */
  lemma {:induction false} UploadPrefix(stores: seq<Option<MetricStore>>, m: nat, n: nat, populated: seq<Metric>, workouts: seq<Workout>)
    requires m <= n <= |stores|
    ensures UploadUpTo(stores, m, populated, workouts) <= UploadUpTo(stores, n, populated, workouts)
    decreases n - m
  {
    if m < n {
      UploadPrefix(stores, m, n - 1, populated, workouts);
    }
  }

  /**
   * Every store before the first nil slot is sent its first step, whatever
   * became of the stores before it: one store's failure never stops the
   * upload to the next.
   */
  lemma EveryStoreTried(stores: seq<Option<MetricStore>>, populated: seq<Metric>, workouts: seq<Workout>, i: nat)
    requires i < Reach(stores)
    ensures stores[i].Some?
    ensures var first := Steps(populated, workouts)[0];
            Invocation(i, first, stores[i].value.respond(first)) in Trace(stores, populated, workouts)
  {
    var steps := Steps(populated, workouts);
    var a := Attempts(i, stores[i].value, steps);
    AttemptsShape(i, stores[i].value, steps);
    UploadPrefix(stores, i + 1, Reach(stores), populated, workouts);
    var upto := UploadUpTo(stores, i + 1, populated, workouts);
    assert upto == UploadUpTo(stores, i, populated, workouts) + a;
    assert upto[|UploadUpTo(stores, i, populated, workouts)|] == a[0];
    assert a[0] in Trace(stores, populated, workouts);
  }

  /**
   * A nil slot ends the upload: no store at or after it is sent anything,
   * even the stores that follow it in the list.
   */
  lemma NilSlotPanics(stores: seq<Option<MetricStore>>, populated: seq<Metric>, workouts: seq<Workout>, j: nat)
    requires j < |stores| && stores[j].None?
    ensures Reach(stores) <= j
    ensures forall inv :: inv in Trace(stores, populated, workouts) ==> inv.store < j
  {
    forall inv | inv in Trace(stores, populated, workouts)
      ensures inv.store < j
    {
      OwnAttemptsUpTo(stores, Reach(stores), populated, workouts, inv);
    }
  }

  /**
   * A store before the first nil slot is asked to optimize its tables exactly
   * when the steps before it succeeded: the metrics (when sent) and the
   * workouts (when sent).
   */
  lemma OptimizeReached(stores: seq<Option<MetricStore>>, populated: seq<Metric>, workouts: seq<Workout>, i: nat)
    requires i < Reach(stores)
    ensures stores[i].Some?
    ensures (exists e :: Invocation(i, OptimizeTables, e) in Trace(stores, populated, workouts))
            <==> (|populated| > 0 ==> stores[i].value.respond(Store(populated)).None?)
                 && (|workouts| > 0 ==> stores[i].value.respond(StoreWorkouts(workouts)).None?)
  {
    var s := stores[i].value;
    var steps := Steps(populated, workouts);
    var trace := Trace(stores, populated, workouts);
    var before := UploadUpTo(stores, i, populated, workouts);
    var a := Attempts(i, s, steps);
    var upto := UploadUpTo(stores, i + 1, populated, workouts);
    UploadPrefix(stores, i + 1, Reach(stores), populated, workouts);
    assert upto == before + a;
    var ok := (|populated| > 0 ==> s.respond(Store(populated)).None?)
              && (|workouts| > 0 ==> s.respond(StoreWorkouts(workouts)).None?);
    if ok {
      AttemptsAllRun(i, s, populated, workouts);
      var inv := Invocation(i, OptimizeTables, s.respond(OptimizeTables));
      assert a[|a| - 1] == inv;
      assert upto[|before| + |a| - 1] == inv;
      assert inv in trace;
    }
    forall e | Invocation(i, OptimizeTables, e) in trace
      ensures ok
    {
      OnlyOwnAttempts(stores, populated, workouts, i, Invocation(i, OptimizeTables, e));
      OptimizeAttempted(i, s, populated, workouts, e);
    }
  }

  /** Within one store's calls, OptimizeTables is only reached once the earlier steps succeeded. */
  lemma OptimizeAttempted(i: nat, s: MetricStore, populated: seq<Metric>, workouts: seq<Workout>, e: Option<string>)
    requires Invocation(i, OptimizeTables, e) in Attempts(i, s, Steps(populated, workouts))
    ensures |populated| > 0 ==> s.respond(Store(populated)).None?
    ensures |workouts| > 0 ==> s.respond(StoreWorkouts(workouts)).None?
  {
    var steps := Steps(populated, workouts);
    var a := Attempts(i, s, steps);
    AttemptsShape(i, s, steps);
    var k :| 0 <= k < |a| && a[k] == Invocation(i, OptimizeTables, e);
    var w := if |populated| > 0 then 1 else 0;
    assert steps[k] == OptimizeTables;
    if |populated| > 0 {
      assert steps[0] == Store(populated);
      assert k != 0;
      assert a[0].error == s.respond(Store(populated));
    }
    if |workouts| > 0 {
      assert steps[w] == StoreWorkouts(workouts);
      assert k != w;
      assert a[w].error == s.respond(StoreWorkouts(workouts));
    }
  }

  /** A call made on store `i` is one of store `i`'s attempts. */
  lemma {:induction false} OnlyOwnAttempts(stores: seq<Option<MetricStore>>, populated: seq<Metric>, workouts: seq<Workout>,
                                           i: nat, inv: Invocation)
    requires i < |stores| && inv.store == i
    requires inv in Trace(stores, populated, workouts)
    ensures stores[i].Some? && inv in Attempts(i, stores[i].value, Steps(populated, workouts))
  {
    OwnAttemptsUpTo(stores, Reach(stores), populated, workouts, inv);
  }

  lemma {:induction false} OwnAttemptsUpTo(stores: seq<Option<MetricStore>>, n: nat, populated: seq<Metric>, workouts: seq<Workout>,
                                           inv: Invocation)
    requires n <= |stores|
    requires inv in UploadUpTo(stores, n, populated, workouts)
    ensures inv.store < n && stores[inv.store].Some?
    ensures inv in Attempts(inv.store, stores[inv.store].value, Steps(populated, workouts))
  {
    var steps := Steps(populated, workouts);
    var a := SlotAttempts(n - 1, stores[n - 1], steps);
    var before := UploadUpTo(stores, n - 1, populated, workouts);
    assert UploadUpTo(stores, n, populated, workouts) == before + a;
    if inv in before {
      OwnAttemptsUpTo(stores, n - 1, populated, workouts, inv);
    } else {
      AttemptsMember(n - 1, stores[n - 1].value, steps, inv);
    }
  }
}
