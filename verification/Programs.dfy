/** Durable functions as deterministic programs, and what plain recursive evaluation gives. */
module Programs {
  import opened Wrappers
  import opened Store

  /** What runs: a function, its version and its arguments. */
  datatype Work = Work(func: string, version: int, input: Json)

  /** A child call with the attributes its function was declared with. */
  datatype Call = Call(
    func: string, version: int, input: Json, topic: string, executionTimeoutMs: int, durationMs: int, maxFailures: int)

  /** What a function does next: return, raise, await a group of calls, or sleep. */
  datatype Move =
    | Done(value: Json)
    | Raise(error: Json)
    | Gather(calls: seq<Call>)
    | Sleep(delayMs: int)

  /** The results of the groups a run has passed, in order. */
  type History = seq<seq<Json>>

  /** The deployed code: deterministic in the work and the results so far. */
  type Library = (Work, History) -> Move

  function WorkOf(call: Call): Work {
    Work(call.func, call.version, call.input)
  }

  const NAP := [JSON_NULL]

  // ---------------------------------------------------------------- plain evaluation

  /** Run a function to its result without any store, calling its children as it goes. */
  function Run(lib: Library, fuel: nat, work: Work, history: History): Option<Json>
    decreases fuel, 0
  {
    if fuel == 0 then None
    else match lib(work, history)
         case Done(value) => Some(value)
         case Raise(_) => None
         case Sleep(_) => Run(lib, fuel - 1, work, history + [NAP])
         case Gather(calls) =>
           (match RunAll(lib, fuel - 1, calls)
            case Some(values) => Run(lib, fuel - 1, work, history + [values])
            case None => None)
  }

  function RunAll(lib: Library, fuel: nat, calls: seq<Call>): Option<seq<Json>>
    decreases fuel, |calls| + 1
  {
    if calls == [] then Some([])
    else match Run(lib, fuel, WorkOf(calls[0]), [])
         case None => None
         case Some(value) =>
           match RunAll(lib, fuel, calls[1..])
           case Some(values) => Some([value] + values)
           case None => None
  }

  /** Plain evaluation of the work ends with this value. */
  ghost predicate Evaluates(lib: Library, work: Work, value: Json) {
    exists fuel: nat :: Run(lib, fuel, work, []) == Some(value)
  }

  ghost predicate AllEvaluate(lib: Library, calls: seq<Call>, values: seq<Json>) {
    |values| == |calls| && forall i :: 0 <= i < |calls| ==> Evaluates(lib, WorkOf(calls[i]), values[i])
  }

  lemma {:induction false} RunMonotone(lib: Library, fuel: nat, more: nat, work: Work, history: History)
    requires fuel <= more && Run(lib, fuel, work, history).Some?
    ensures Run(lib, more, work, history) == Run(lib, fuel, work, history)
    decreases fuel, 0
  {
    match lib(work, history)
    case Done(value) =>
    case Raise(_) =>
    case Sleep(_) => RunMonotone(lib, fuel - 1, more - 1, work, history + [NAP]);
    case Gather(calls) =>
      RunAllMonotone(lib, fuel - 1, more - 1, calls);
      RunMonotone(lib, fuel - 1, more - 1, work, history + [RunAll(lib, fuel - 1, calls).value]);
  }

  lemma {:induction false} RunAllMonotone(lib: Library, fuel: nat, more: nat, calls: seq<Call>)
    requires fuel <= more && RunAll(lib, fuel, calls).Some?
    ensures RunAll(lib, more, calls) == RunAll(lib, fuel, calls)
    decreases fuel, |calls| + 1
  {
    if calls != [] {
      RunMonotone(lib, fuel, more, WorkOf(calls[0]), []);
      RunAllMonotone(lib, fuel, more, calls[1..]);
    }
  }

  /** Plain evaluation gives at most one value. */
  lemma EvaluatesUnique(lib: Library, work: Work, v: Json, u: Json)
    requires Evaluates(lib, work, v) && Evaluates(lib, work, u)
    ensures v == u
  {
    var f: nat :| Run(lib, f, work, []) == Some(v);
    var g: nat :| Run(lib, g, work, []) == Some(u);
    if f <= g {
      RunMonotone(lib, f, g, work, []);
    } else {
      RunMonotone(lib, g, f, work, []);
    }
  }

  lemma {:induction false} RunAllEvaluates(lib: Library, fuel: nat, calls: seq<Call>)
    requires RunAll(lib, fuel, calls).Some?
    ensures AllEvaluate(lib, calls, RunAll(lib, fuel, calls).value)
  {
    if calls != [] {
      RunAllEvaluates(lib, fuel, calls[1..]);
      var values := RunAll(lib, fuel, calls).value;
      assert values[1..] == RunAll(lib, fuel, calls[1..]).value;
      assert Run(lib, fuel, WorkOf(calls[0]), []) == Some(values[0]);
      forall i | 0 < i < |calls| ensures Evaluates(lib, WorkOf(calls[i]), values[i]) {
        assert calls[1..][i - 1] == calls[i] && values[1..][i - 1] == values[i];
      }
    }
  }

  lemma {:induction false} EvaluatesRunAll(lib: Library, calls: seq<Call>, values: seq<Json>) returns (fuel: nat)
    requires AllEvaluate(lib, calls, values)
    ensures RunAll(lib, fuel, calls) == Some(values)
  {
    if calls == [] {
      fuel := 0;
    } else {
      assert AllEvaluate(lib, calls[1..], values[1..]) by {
        forall i | 0 <= i < |calls| - 1 ensures Evaluates(lib, WorkOf(calls[1..][i]), values[1..][i]) {
          assert Evaluates(lib, WorkOf(calls[i + 1]), values[i + 1]);
        }
      }
      var rest := EvaluatesRunAll(lib, calls[1..], values[1..]);
      var first: nat :| Run(lib, first, WorkOf(calls[0]), []) == Some(values[0]);
      fuel := if first < rest then rest else first;
      RunMonotone(lib, first, fuel, WorkOf(calls[0]), []);
      RunAllMonotone(lib, rest, fuel, calls[1..]);
      assert values == [values[0]] + values[1..];
    }
  }

  // ---------------------------------------------------------------- histories

  /** What passing a group adds to the history. */
  ghost predicate Passes(lib: Library, move: Move, values: seq<Json>) {
    match move
    case Gather(calls) => AllEvaluate(lib, calls, values)
    case Sleep(_) => values == NAP
    case _ => false
  }

  /** A history whose every group holds what plain evaluation gives its calls. */
  ghost predicate ValidHistory(lib: Library, work: Work, history: History) {
    forall k :: 0 <= k < |history| ==> Passes(lib, lib(work, history[..k]), history[k])
  }

  lemma AllEvaluateUnique(lib: Library, calls: seq<Call>, v: seq<Json>, u: seq<Json>)
    requires AllEvaluate(lib, calls, v) && AllEvaluate(lib, calls, u)
    ensures v == u
  {
    forall i | 0 <= i < |calls| ensures v[i] == u[i] {
      EvaluatesUnique(lib, WorkOf(calls[i]), v[i], u[i]);
    }
  }

  /** A valid history extends by one valid group. */
  lemma HistoryExtends(lib: Library, work: Work, history: History, values: seq<Json>)
    requires ValidHistory(lib, work, history) && Passes(lib, lib(work, history), values)
    ensures ValidHistory(lib, work, history + [values])
  {
    hide Passes;
    var longer := history + [values];
    forall k | 0 <= k < |longer| ensures Passes(lib, lib(work, longer[..k]), longer[k]) {
      assert longer[..k] == history[..k];
      if k == |history| {
        assert history[..k] == history;
      }
    }
  }

  lemma HistoryPrefix(lib: Library, work: Work, history: History, k: nat)
    requires ValidHistory(lib, work, history) && k <= |history|
    ensures ValidHistory(lib, work, history[..k])
  {
    hide Passes;
    forall j | 0 <= j < k ensures Passes(lib, lib(work, history[..k][..j]), history[..k][j]) {
      assert history[..k][..j] == history[..j];
    }
  }

  /** Two valid histories of one piece of work agree as far as both go. */
  lemma {:induction false} HistoriesAgree(lib: Library, work: Work, g: History, h: History)
    requires ValidHistory(lib, work, g) && ValidHistory(lib, work, h) && |g| <= |h|
    ensures g == h[..|g|]
  {
    if g != [] {
      var k := |g| - 1;
      HistoryPrefix(lib, work, g, k);
      HistoriesAgree(lib, work, g[..k], h);
      assert Passes(lib, lib(work, g[..k]), g[k]) && Passes(lib, lib(work, h[..k]), h[k]);
      match lib(work, g[..k])
      case Gather(calls) => AllEvaluateUnique(lib, calls, g[k], h[k]);
      case _ =>
    }
  }

  /** Evaluation resumed after a valid history gives the value of the whole. */
  lemma {:induction false} HistoryRuns(lib: Library, work: Work, history: History, fuel: nat, value: Json)
    requires ValidHistory(lib, work, history) && Run(lib, fuel, work, history) == Some(value)
    ensures Evaluates(lib, work, value)
  {
    if history == [] {
      assert Run(lib, fuel, work, []) == Some(value);
    } else {
      var k := |history| - 1;
      HistoryPrefix(lib, work, history, k);
      assert history == history[..k] + [history[k]];
      assert Passes(lib, lib(work, history[..k]), history[k]);
      var more := StepBack(lib, work, history[..k], history[k], fuel, value);
      HistoryRuns(lib, work, history[..k], more, value);
    }
  }

  lemma StepBack(lib: Library, work: Work, history: History, values: seq<Json>, fuel: nat, value: Json)
    returns (more: nat)
    requires Passes(lib, lib(work, history), values) && Run(lib, fuel, work, history + [values]) == Some(value)
    ensures Run(lib, more, work, history) == Some(value)
  {
    match lib(work, history)
    case Sleep(_) => more := fuel + 1;
    case Gather(calls) =>
      var all := EvaluatesRunAll(lib, calls, values);
      var most := if all < fuel then fuel else all;
      RunAllMonotone(lib, all, most, calls);
      RunMonotone(lib, fuel, most, work, history + [values]);
      more := most + 1;
  }

  /** A run that returns after a valid history returns what plain evaluation gives. */
  lemma ReturnsTheValue(lib: Library, work: Work, history: History, value: Json)
    requires ValidHistory(lib, work, history) && lib(work, history) == Done(value)
    ensures Evaluates(lib, work, value)
  {
    assert Run(lib, 1, work, history) == Some(value);
    HistoryRuns(lib, work, history, 1, value);
  }

  /** A run of plain evaluation passes a valid history and then returns. */
  lemma {:induction false} RunHasTrace(lib: Library, work: Work, history: History, fuel: nat, value: Json)
    returns (trace: History)
    requires ValidHistory(lib, work, history) && Run(lib, fuel, work, history) == Some(value)
    ensures ValidHistory(lib, work, trace) && lib(work, trace) == Done(value)
    decreases fuel
  {
    match lib(work, history)
    case Done(_) => trace := history;
    case Sleep(_) =>
      HistoryExtends(lib, work, history, NAP);
      trace := RunHasTrace(lib, work, history + [NAP], fuel - 1, value);
    case Gather(calls) =>
      var values := RunAll(lib, fuel - 1, calls).value;
      RunAllEvaluates(lib, fuel - 1, calls);
      HistoryExtends(lib, work, history, values);
      trace := RunHasTrace(lib, work, history + [values], fuel - 1, value);
  }

  /** Plain evaluation gives a value exactly when some valid history leads to returning it. */
  lemma EvaluatesByTrace(lib: Library, work: Work, value: Json)
    ensures Evaluates(lib, work, value) <==>
              exists trace :: ValidHistory(lib, work, trace) && lib(work, trace) == Done(value)
  {
    if Evaluates(lib, work, value) {
      var fuel: nat :| Run(lib, fuel, work, []) == Some(value);
      var trace := RunHasTrace(lib, work, [], fuel, value);
    }
    if trace :| ValidHistory(lib, work, trace) && lib(work, trace) == Done(value) {
      ReturnsTheValue(lib, work, trace, value);
    }
  }

  // ---------------------------------------------------------------- the combinators

  /** A body that gathers some calls and returns the list of their results. */
  ghost predicate Gathers(lib: Library, work: Work, calls: seq<Call>, pack: seq<Json> -> Json) {
    forall history :: lib(work, history) == if |history| == 0 then Gather(calls) else Done(pack(history[0]))
  }

  /** A body that gathers some calls, gathers one more built from their results, and returns its
      result; a fan-out followed by a reducer has the same shape. */
  function JoinMove(calls: seq<Call>, task: seq<Json> -> Call, history: History): Move {
    if |history| == 0 then Gather(calls)
    else if |history| == 1 then Gather([task(history[0])])
    else if history[1] == [] then Raise(JSON_NULL)
    else Done(history[1][0])
  }

  ghost predicate Joins(lib: Library, work: Work, calls: seq<Call>, task: seq<Json> -> Call) {
    forall history :: lib(work, history) == JoinMove(calls, task, history)
  }

  function Fanout(task: Json -> Call, inputs: seq<Json>): seq<Call> {
    seq(|inputs|, i requires 0 <= i < |inputs| => task(inputs[i]))
  }

  /** Gathering evaluates to the results of the calls, in the order of the calls. */
  lemma GatherMeans(lib: Library, work: Work, calls: seq<Call>, pack: seq<Json> -> Json, value: Json)
    requires Gathers(lib, work, calls, pack)
    ensures Evaluates(lib, work, value) <==> exists values :: AllEvaluate(lib, calls, values) && value == pack(values)
  {
    EvaluatesByTrace(lib, work, value);
    if trace :| ValidHistory(lib, work, trace) && lib(work, trace) == Done(value) {
      assert trace[..0] == [];
      assert Passes(lib, lib(work, trace[..0]), trace[0]);
    }
    if values :| AllEvaluate(lib, calls, values) && value == pack(values) {
      assert lib(work, []) == Gather(calls);
      HistoryExtends(lib, work, [], values);
      assert [] + [values] == [values];
      assert lib(work, [values]) == Done(value);
    }
  }

  /** Joining evaluates to the joining task's result on the results of the calls. */
  lemma JoinMeans(lib: Library, work: Work, calls: seq<Call>, task: seq<Json> -> Call, value: Json)
    requires Joins(lib, work, calls, task)
    ensures Evaluates(lib, work, value) <==>
              exists values :: AllEvaluate(lib, calls, values) && Evaluates(lib, WorkOf(task(values)), value)
  {
    EvaluatesByTrace(lib, work, value);
    if trace :| ValidHistory(lib, work, trace) && lib(work, trace) == Done(value) {
      assert |trace| >= 2 && value == trace[1][0];
      assert trace[..0] == [] && |trace[..1]| == 1 && trace[..1][0] == trace[0];
      assert Passes(lib, lib(work, trace[..0]), trace[0]);
      assert Passes(lib, lib(work, trace[..1]), trace[1]);
      assert AllEvaluate(lib, calls, trace[0]) && Evaluates(lib, WorkOf(task(trace[0])), value);
    }
    if values :| AllEvaluate(lib, calls, values) && Evaluates(lib, WorkOf(task(values)), value) {
      JoinTrace(lib, work, calls, task, values, value);
    }
  }

  lemma JoinTrace(lib: Library, work: Work, calls: seq<Call>, task: seq<Json> -> Call, values: seq<Json>, value: Json)
    requires Joins(lib, work, calls, task) && AllEvaluate(lib, calls, values)
             && Evaluates(lib, WorkOf(task(values)), value)
    ensures ValidHistory(lib, work, [values, [value]]) && lib(work, [values, [value]]) == Done(value)
  {
    hide AllEvaluate, Evaluates;
    assert lib(work, []) == Gather(calls);
    HistoryExtends(lib, work, [], values);
    assert [] + [values] == [values];
    assert lib(work, [values]) == Gather([task(values)]);
    OneEvaluates(lib, task(values), value);
    HistoryExtends(lib, work, [values], [value]);
    assert [values] + [[value]] == [values, [value]];
  }

  lemma OneEvaluates(lib: Library, call: Call, value: Json)
    requires Evaluates(lib, WorkOf(call), value)
    ensures AllEvaluate(lib, [call], [value])
  {
  }

  /** Map-reduce evaluates to the reducer's result on the mapped results, in the order of the inputs. */
  lemma MapReduceMeans(lib: Library, work: Work, mapper: Json -> Call, inputs: seq<Json>, reducer: seq<Json> -> Call,
                       value: Json)
    requires Joins(lib, work, Fanout(mapper, inputs), reducer)
    ensures Evaluates(lib, work, value) <==>
              exists values :: |values| == |inputs|
                               && (forall i :: 0 <= i < |inputs| ==>
                                     Evaluates(lib, WorkOf(mapper(inputs[i])), values[i]))
                               && Evaluates(lib, WorkOf(reducer(values)), value)
  {
    hide Evaluates;
    JoinMeans(lib, work, Fanout(mapper, inputs), reducer, value);
    forall values ensures AllEvaluate(lib, Fanout(mapper, inputs), values) <==>
        |values| == |inputs| && forall i :: 0 <= i < |inputs| ==> Evaluates(lib, WorkOf(mapper(inputs[i])), values[i])
    {
    }
  }
}
