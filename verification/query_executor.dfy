/**
 * The fan-out/fan-in helper `run_queries_parallel`.
 *
 * The thread pool is modelled as a sequential fold over the tasks taken in
 * completion order: the pool chooses that order, so the model takes the tasks
 * already arranged in it and every property below holds for every order. The
 * session is an oracle from query to `Response`; what a query means is not
 * modelled.
 */
module QueryExecutor {
  import opened Results
  import opened Seqs

  /** What `session.sql(q).to_pandas()` does: it yields a table, yields None, or raises with `str(e)`. */
  datatype Response<+T> = Table(table: T) | ReturnedNone | Raised(message: string)

  /** The `(name, result, error)` triple one worker hands back. */
  datatype Completion<+T> = Completion(name: string, table: Option<T>, error: Option<string>)

  /** Collected state after all workers completed: the result dict and the error list. */
  datatype Collected<+T> = Collected(results: map<string, T>, errors: seq<string>)

  /** The error text a worker reports when the session yields None. */
  function NoneMessage(name: string): string
  {
    "Query '" + name + "' returned None"
  }

  /** What `ThreadPoolExecutor` raises (a ValueError) when asked for fewer than one worker. */
  const PoolSizeMessage: string := "max_workers must be greater than 0"

  /** Header of the aggregate exception raised in fail-fast mode. */
  const FailureHeader: string := "Query failures:\n"

  /** One worker (`execute_query`): exactly one of table and error is present. */
  function ExecuteQuery<T>(name: string, response: Response<T>): (c: Completion<T>)
    ensures c.name == name
    ensures c.table.Some? != c.error.Some?
    ensures c.table.Some? <==> response.Table?
    ensures response.Table? ==> c.table == Some(response.table)
    ensures response.ReturnedNone? ==> c.error == Some(NoneMessage(name))
    ensures response.Raised? ==> c.error == Some(response.message)
  {
    match response
    case Table(t) => Completion(name, Some(t), None)
    case ReturnedNone => Completion(name, None, Some(NoneMessage(name)))
    case Raised(m) => Completion(name, None, Some(m))
  }

  /** A None result is an error like any other: a non-empty message that names the query. */
  lemma NoneIsReportedAsError(name: string)
    ensures ExecuteQuery<int>(name, ReturnedNone).error.Some?
    ensures NoneMessage(name) != ""
    ensures Contains(NoneMessage(name), name)
  {
    var m := NoneMessage(name);
    assert m == "Query '" + name + "' returned None";
    assert m[7..7 + |name|] == name;
    assert OccursAt(m, name, 7);
  }

  /** The shape every worker result has. */
  ghost predicate WellFormed<T>(c: Completion<T>)
  {
    c.table.Some? != c.error.Some?
  }

  /** Distinct task names, as the keys of the `queries` dict are. */
  ghost predicate DistinctNames<T>(cs: seq<Completion<T>>)
  {
    forall i, j :: 0 <= i < j < |cs| ==> cs[i].name != cs[j].name
  }

  /** The `"name: error"` line of a failed task. */
  function ErrorLine<T>(c: Completion<T>): string
    requires c.error.Some?
  {
    c.name + ": " + c.error.value
  }

  /**
   * The collection loop with failures recognised by `error is not None`:
   * worker results are folded in completion order.
   */
  function Collect<T>(cs: seq<Completion<T>>): Collected<T>
    requires forall i :: 0 <= i < |cs| ==> WellFormed(cs[i])
    decreases |cs|
  {
    if |cs| == 0 then Collected(map[], [])
    else
      var c := cs[|cs| - 1];
      assert WellFormed(c);
      var prev := Collect(cs[..|cs| - 1]);
      if c.error.Some? then Collected(prev.results, prev.errors + [ErrorLine(c)])
      else Collected(prev.results[c.name := c.table.value], prev.errors)
  }

  /** Result keys are exactly the succeeding names, each mapped to its own table. */
  lemma {:induction false} CollectResults<T>(cs: seq<Completion<T>>)
    requires forall i :: 0 <= i < |cs| ==> WellFormed(cs[i])
    requires DistinctNames(cs)
    ensures forall i :: 0 <= i < |cs| ==> (cs[i].name in Collect(cs).results <==> cs[i].error.None?)
    ensures forall i :: 0 <= i < |cs| && cs[i].error.None? ==> Collect(cs).results[cs[i].name] == cs[i].table.value
    ensures forall n :: n in Collect(cs).results ==> exists i :: 0 <= i < |cs| && cs[i].name == n
    ensures |Collect(cs).results| + |Collect(cs).errors| == |cs|
    decreases |cs|
  {
    if |cs| > 0 {
      var init := cs[..|cs| - 1];
      var c := cs[|cs| - 1];
      assert forall i :: 0 <= i < |init| ==> init[i] == cs[i];
      CollectResults(init);
      var prev := Collect(init);
      var r := Collect(cs);
      assert forall i :: 0 <= i < |init| ==> init[i].name != c.name;
      assert c.name !in prev.results;
      forall i | 0 <= i < |cs|
        ensures cs[i].name in r.results <==> cs[i].error.None?
        ensures cs[i].error.None? ==> r.results[cs[i].name] == cs[i].table.value
      {
        if i < |cs| - 1 {
          assert cs[i] == init[i];
          assert cs[i].name != c.name;
        }
      }
      forall n | n in r.results ensures exists i :: 0 <= i < |cs| && cs[i].name == n {
        if n != c.name {
          var i :| 0 <= i < |init| && init[i].name == n;
          assert cs[i].name == n;
        }
      }
    }
  }

  /** Each failing completion contributes its `"name: error"` line, and every line comes from one. */
  lemma {:induction false} CollectErrors<T>(cs: seq<Completion<T>>)
    requires forall i :: 0 <= i < |cs| ==> WellFormed(cs[i])
    ensures forall i :: 0 <= i < |cs| && cs[i].error.Some? ==> ErrorLine(cs[i]) in Collect(cs).errors
    ensures forall k :: 0 <= k < |Collect(cs).errors| ==>
              exists i :: 0 <= i < |cs| && cs[i].error.Some? && Collect(cs).errors[k] == ErrorLine(cs[i])
    decreases |cs|
  {
    if |cs| > 0 {
      var init := cs[..|cs| - 1];
      var c := cs[|cs| - 1];
      assert forall i :: 0 <= i < |init| ==> init[i] == cs[i];
      CollectErrors(init);
      var prev := Collect(init);
      var r := Collect(cs);
      assert r.errors == if c.error.Some? then prev.errors + [ErrorLine(c)] else prev.errors;
      forall i | 0 <= i < |cs| && cs[i].error.Some? ensures ErrorLine(cs[i]) in r.errors {
        if i < |cs| - 1 {
          assert cs[i] == init[i];
        }
      }
      forall k | 0 <= k < |r.errors|
        ensures exists i :: 0 <= i < |cs| && cs[i].error.Some? && r.errors[k] == ErrorLine(cs[i])
      {
        if k < |prev.errors| {
          assert r.errors[k] == prev.errors[k];
          assert 0 <= k < |prev.errors|;
          var i :| 0 <= i < |init| && init[i].error.Some? && prev.errors[k] == ErrorLine(init[i]);
          assert cs[i] == init[i];
        } else {
          assert r.errors[k] == ErrorLine(cs[|cs| - 1]);
        }
      }
    } else {
      assert Collect(cs).errors == [];
    }
  }

  /** The worker results of a batch, one per task. */
  function Completions<Q, T>(queries: seq<(string, Q)>, oracle: Q -> Response<T>): (cs: seq<Completion<T>>)
    ensures |cs| == |queries|
    ensures forall i :: 0 <= i < |queries| ==> cs[i] == ExecuteQuery(queries[i].0, oracle(queries[i].1))
  {
    seq(|queries|, i requires 0 <= i < |queries| => ExecuteQuery(queries[i].0, oracle(queries[i].1)))
  }

  /** How the worker results of a batch relate to the tasks and the session's responses. */
  lemma CompletionsFacts<Q, T>(queries: seq<(string, Q)>, oracle: Q -> Response<T>)
    requires DistinctKeys(queries)
    ensures forall i :: 0 <= i < |queries| ==> WellFormed(Completions(queries, oracle)[i])
    ensures DistinctNames(Completions(queries, oracle))
    ensures forall i :: 0 <= i < |queries| ==> Completions(queries, oracle)[i].name == queries[i].0
    ensures forall i :: 0 <= i < |queries| ==>
              (Completions(queries, oracle)[i].error.None? <==> oracle(queries[i].1).Table?)
    ensures forall i :: 0 <= i < |queries| && oracle(queries[i].1).Table? ==>
              Completions(queries, oracle)[i].table == Some(oracle(queries[i].1).table)
  {
    var cs := Completions(queries, oracle);
    forall i | 0 <= i < |queries|
      ensures WellFormed(cs[i]) && cs[i].name == queries[i].0
      ensures cs[i].error.None? <==> oracle(queries[i].1).Table?
      ensures oracle(queries[i].1).Table? ==> cs[i].table == Some(oracle(queries[i].1).table)
    {
      assert cs[i] == ExecuteQuery(queries[i].0, oracle(queries[i].1));
    }
  }

  /** The aggregate exception message. */
  function FailureMessage(errors: seq<string>): string
  {
    FailureHeader + Join("\n", errors)
  }

  /** The keys of the `queries` dict are distinct. */
  ghost predicate DistinctKeys<Q>(queries: seq<(string, Q)>)
  {
    forall i, j :: 0 <= i < j < |queries| ==> queries[i].0 != queries[j].0
  }

  /**
   * `run_queries_parallel(session, queries, max_workers, fail_fast)` with the
   * failure test corrected to `error is not None`. `queries` is listed in
   * completion order. A pool of fewer than one worker cannot be built, so
   * the call raises before any query runs; any positive `maxWorkers` only
   * bounds the pool and leaves the outcome as it is.
   */
  function RunQueriesParallel<Q, T>(queries: seq<(string, Q)>, oracle: Q -> Response<T>,
                                    maxWorkers: int := 4, failFast: bool := true)
    : (r: Result<map<string, T>, string>)
    requires DistinctKeys(queries)
    ensures maxWorkers <= 0 ==> r == Failure(PoolSizeMessage)
    ensures maxWorkers >= 1 ==>
              (r.Failure? <==> failFast && exists i :: 0 <= i < |queries| && !oracle(queries[i].1).Table?)
    ensures r.Success? ==>
              forall i :: 0 <= i < |queries| ==> (queries[i].0 in r.value <==> oracle(queries[i].1).Table?)
    ensures r.Success? ==>
              forall i :: 0 <= i < |queries| && oracle(queries[i].1).Table? ==>
                r.value[queries[i].0] == oracle(queries[i].1).table
    ensures r.Success? ==> forall n :: n in r.value ==> exists i :: 0 <= i < |queries| && queries[i].0 == n
    ensures maxWorkers >= 1 && (forall i :: 0 <= i < |queries| ==> oracle(queries[i].1).Table?) ==>
              r.Success? && |r.value| == |queries|
  {
    if maxWorkers <= 0 then Failure(PoolSizeMessage) else
    var cs := Completions(queries, oracle);
    CompletionsFacts(queries, oracle);
    CollectResults(cs);
    var collected := Collect(cs);
    ErrorsIffSomeFailure(queries, oracle);
    if |collected.errors| > 0 && failFast then
      Failure(FailureMessage(collected.errors))
    else
      Success(collected.results)
  }

  /** Collection yields an error line exactly when some query did not return a table. */
  lemma ErrorsIffSomeFailure<Q, T>(queries: seq<(string, Q)>, oracle: Q -> Response<T>)
    requires DistinctKeys(queries)
    ensures |Collect(Completions(queries, oracle)).errors| > 0 <==>
              exists i :: 0 <= i < |queries| && !oracle(queries[i].1).Table?
  {
    var cs := Completions(queries, oracle);
    CompletionsFacts(queries, oracle);
    CollectErrors(cs);
    var collected := Collect(cs);
    if |collected.errors| > 0 {
      var i :| 0 <= i < |cs| && cs[i].error.Some? && collected.errors[0] == ErrorLine(cs[i]);
      assert !oracle(queries[i].1).Table?;
    }
    if exists i :: 0 <= i < |queries| && !oracle(queries[i].1).Table? {
      var i :| 0 <= i < |queries| && !oracle(queries[i].1).Table?;
      assert ErrorLine(cs[i]) in collected.errors;
    }
  }

  /**
   * In fail-fast mode the exception lists every failure, not only the first:
   * its message starts with the header and contains each failing task's
   * `"name: error"` line.
   */
  lemma FailFastReportsEveryError<Q, T>(queries: seq<(string, Q)>, oracle: Q -> Response<T>, maxWorkers: int)
    requires DistinctKeys(queries)
    requires maxWorkers >= 1
    requires exists i :: 0 <= i < |queries| && !oracle(queries[i].1).Table?
    ensures RunQueriesParallel(queries, oracle, maxWorkers, true).Failure?
    ensures var msg := RunQueriesParallel(queries, oracle, maxWorkers, true).error;
            |FailureHeader| <= |msg| && msg[..|FailureHeader|] == FailureHeader
    ensures forall i :: 0 <= i < |queries| && !oracle(queries[i].1).Table? ==>
              Contains(RunQueriesParallel(queries, oracle, maxWorkers, true).error,
                       ErrorLine(ExecuteQuery(queries[i].0, oracle(queries[i].1))))
  {
    var cs := Completions(queries, oracle);
    CompletionsFacts(queries, oracle);
    CollectErrors(cs);
    var errors := Collect(cs).errors;
    var msg := RunQueriesParallel(queries, oracle, maxWorkers, true).error;
    assert msg == FailureMessage(errors);
    assert msg[..|FailureHeader|] == FailureHeader;
    forall i | 0 <= i < |queries| && !oracle(queries[i].1).Table?
      ensures Contains(msg, ErrorLine(ExecuteQuery(queries[i].0, oracle(queries[i].1))))
    {
      assert cs[i] == ExecuteQuery(queries[i].0, oracle(queries[i].1));
      var k :| 0 <= k < |errors| && errors[k] == ErrorLine(cs[i]);
      JoinContainsPart("\n", errors, k);
      ContainsShift(FailureHeader, Join("\n", errors), ErrorLine(cs[i]));
    }
  }

  /** Two orderings of the same worker results have the same members. */
  lemma SameMembers<T>(a: seq<Completion<T>>, b: seq<Completion<T>>)
    requires multiset(a) == multiset(b)
    ensures |a| == |b|
    ensures forall i :: 0 <= i < |a| ==> a[i] in b
    ensures forall j :: 0 <= j < |b| ==> b[j] in a
  {
    assert |multiset(a)| == |a| && |multiset(b)| == |b|;
    forall i | 0 <= i < |a| ensures a[i] in b {
      assert a[i] in multiset(a);
    }
    forall j | 0 <= j < |b| ensures b[j] in a {
      assert b[j] in multiset(b);
    }
  }

  /** Every key of `Collect(a)` is a key of `Collect(b)` with the same table. */
  lemma ResultsIncluded<T>(a: seq<Completion<T>>, b: seq<Completion<T>>)
    requires forall i :: 0 <= i < |a| ==> WellFormed(a[i])
    requires forall j :: 0 <= j < |b| ==> WellFormed(b[j])
    requires DistinctNames(a) && DistinctNames(b)
    requires forall i :: 0 <= i < |a| ==> a[i] in b
    ensures forall n :: n in Collect(a).results ==>
              n in Collect(b).results && Collect(a).results[n] == Collect(b).results[n]
  {
    CollectResults(a);
    CollectResults(b);
    forall n | n in Collect(a).results
      ensures n in Collect(b).results && Collect(a).results[n] == Collect(b).results[n]
    {
      var i :| 0 <= i < |a| && a[i].name == n;
      var j :| 0 <= j < |b| && b[j] == a[i];
    }
  }

  /** Every error line of `Collect(a)` is an error line of `Collect(b)`. */
  lemma ErrorsIncluded<T>(a: seq<Completion<T>>, b: seq<Completion<T>>)
    requires forall i :: 0 <= i < |a| ==> WellFormed(a[i])
    requires forall j :: 0 <= j < |b| ==> WellFormed(b[j])
    requires forall i :: 0 <= i < |a| ==> a[i] in b
    ensures Elems(Collect(a).errors) <= Elems(Collect(b).errors)
  {
    CollectErrors(a);
    CollectErrors(b);
    forall e | e in Collect(a).errors ensures e in Collect(b).errors {
      var k :| 0 <= k < |Collect(a).errors| && Collect(a).errors[k] == e;
      var i :| 0 <= i < |a| && a[i].error.Some? && Collect(a).errors[k] == ErrorLine(a[i]);
      var j :| 0 <= j < |b| && b[j] == a[i];
    }
  }

  /**
   * The outcome does not depend on completion order: any two orders of the
   * same worker results give the same dict, as many error lines, and the same
   * error lines.
   */
  lemma ResultsIndependentOfOrder<T>(a: seq<Completion<T>>, b: seq<Completion<T>>)
    requires forall i :: 0 <= i < |a| ==> WellFormed(a[i])
    requires DistinctNames(a)
    requires multiset(a) == multiset(b)
    requires forall i :: 0 <= i < |b| ==> WellFormed(b[i])
    requires DistinctNames(b)
    ensures Collect(a).results == Collect(b).results
    ensures |Collect(a).errors| == |Collect(b).errors|
    ensures Elems(Collect(a).errors) == Elems(Collect(b).errors)
  {
    SameMembers(a, b);
    ResultsIncluded(a, b);
    ResultsIncluded(b, a);
    ErrorsIncluded(a, b);
    ErrorsIncluded(b, a);
    var A, B := Collect(a).results, Collect(b).results;
    assert A.Keys == B.Keys;
    assert A == B;
    CollectResults(a);
    CollectResults(b);
  }

  // ---------------------------------------------------------------------------
  // The collection loop as written: a failure is recognised by `if error:`,
  // which is false for an exception whose message is the empty string.
  // ---------------------------------------------------------------------------

  /** Python truthiness of the `error` slot: None and "" are both false. */
  predicate Truthy(error: Option<string>)
  {
    error.Some? && error.value != ""
  }

  /** The result dict and error list under the as-written test; a dict value may be None. */
  datatype CollectedAsWritten<+T> = CollectedAsWritten(results: map<string, Option<T>>, errors: seq<string>)

  /** The collection loop exactly as written (`if error:`). */
  function CollectAsWritten<T>(cs: seq<Completion<T>>): CollectedAsWritten<T>
    decreases |cs|
  {
    if |cs| == 0 then CollectedAsWritten(map[], [])
    else
      var c := cs[|cs| - 1];
      var prev := CollectAsWritten(cs[..|cs| - 1]);
      if Truthy(c.error) then CollectedAsWritten(prev.results, prev.errors + [c.name + ": " + c.error.value])
      else CollectedAsWritten(prev.results[c.name := c.table], prev.errors)
  }

  /** Under the as-written test every completion whose error is falsy lands in the dict, table or not. */
  lemma {:induction false} CollectAsWrittenResults<T>(cs: seq<Completion<T>>)
    requires DistinctNames(cs)
    ensures forall i :: 0 <= i < |cs| ==> (cs[i].name in CollectAsWritten(cs).results <==> !Truthy(cs[i].error))
    ensures forall i :: 0 <= i < |cs| && !Truthy(cs[i].error) ==> CollectAsWritten(cs).results[cs[i].name] == cs[i].table
    ensures forall n :: n in CollectAsWritten(cs).results ==> exists i :: 0 <= i < |cs| && cs[i].name == n
    decreases |cs|
  {
    if |cs| > 0 {
      var init := cs[..|cs| - 1];
      var c := cs[|cs| - 1];
      assert forall i :: 0 <= i < |init| ==> init[i] == cs[i];
      CollectAsWrittenResults(init);
      var prev := CollectAsWritten(init);
      var r := CollectAsWritten(cs);
      assert forall i :: 0 <= i < |init| ==> init[i].name != c.name;
      assert c.name !in prev.results;
      forall n | n in r.results ensures exists i :: 0 <= i < |cs| && cs[i].name == n {
        if n != c.name {
          var i :| 0 <= i < |init| && init[i].name == n;
          assert cs[i].name == n;
        }
      }
      forall i | 0 <= i < |cs|
        ensures cs[i].name in r.results <==> !Truthy(cs[i].error)
        ensures !Truthy(cs[i].error) ==> r.results[cs[i].name] == cs[i].table
      {
        if i < |cs| - 1 {
          assert cs[i] == init[i];
          assert cs[i].name != c.name;
        }
      }
    }
  }

  /** Collection under the as-written test yields an error line exactly when some error is truthy. */
  lemma {:induction false} CollectAsWrittenErrors<T>(cs: seq<Completion<T>>)
    ensures |CollectAsWritten(cs).errors| > 0 <==> exists i :: 0 <= i < |cs| && Truthy(cs[i].error)
    decreases |cs|
  {
    if |cs| > 0 {
      var init := cs[..|cs| - 1];
      assert forall i :: 0 <= i < |init| ==> init[i] == cs[i];
      CollectAsWrittenErrors(init);
      if exists i :: 0 <= i < |cs| && Truthy(cs[i].error) {
        var i :| 0 <= i < |cs| && Truthy(cs[i].error);
        if i < |init| {
          assert Truthy(init[i].error);
        }
      }
    }
  }

  /** A session response is reported as an error by the `if error:` test: anything but a table or an empty message. */
  predicate ReportedAsWritten<T>(response: Response<T>)
  {
    !response.Table? && response != Raised("")
  }

  /**
   * `run_queries_parallel` exactly as written: only a truthy error is a
   * failure, so a query raising an empty message lands in the dict as None
   * and does not make fail-fast raise.
   */
  function RunAsWritten<Q, T>(queries: seq<(string, Q)>, oracle: Q -> Response<T>,
                              maxWorkers: int := 4, failFast: bool := true)
    : (r: Result<map<string, Option<T>>, string>)
    requires DistinctKeys(queries)
    ensures maxWorkers <= 0 ==> r == Failure(PoolSizeMessage)
    ensures maxWorkers >= 1 ==>
              (r.Failure? <==> failFast && exists i :: 0 <= i < |queries| && ReportedAsWritten(oracle(queries[i].1)))
    ensures r.Success? ==>
              forall i :: 0 <= i < |queries| ==> (queries[i].0 in r.value <==> !ReportedAsWritten(oracle(queries[i].1)))
    ensures r.Success? ==>
              forall i :: 0 <= i < |queries| && oracle(queries[i].1).Table? ==>
                queries[i].0 in r.value && r.value[queries[i].0] == Some(oracle(queries[i].1).table)
    ensures r.Success? ==>
              forall i :: 0 <= i < |queries| && oracle(queries[i].1) == Raised("") ==>
                queries[i].0 in r.value && r.value[queries[i].0] == None
    ensures r.Success? ==> forall n :: n in r.value ==> exists i :: 0 <= i < |queries| && queries[i].0 == n
  {
    if maxWorkers <= 0 then Failure(PoolSizeMessage) else
    var cs := Completions(queries, oracle);
    assert forall i :: 0 <= i < |queries| ==>
             (Truthy(cs[i].error) <==> ReportedAsWritten(oracle(queries[i].1))) by {
      forall i | 0 <= i < |queries| ensures Truthy(cs[i].error) <==> ReportedAsWritten(oracle(queries[i].1)) {
        assert cs[i] == ExecuteQuery(queries[i].0, oracle(queries[i].1));
        assert NoneMessage(queries[i].0) != "" by {
          NoneIsReportedAsError(queries[i].0);
        }
      }
    }
    CollectAsWrittenErrors(cs);
    assert DistinctNames(cs) by {
      forall i, j | 0 <= i < j < |cs| ensures cs[i].name != cs[j].name {
        assert cs[i].name == queries[i].0 && cs[j].name == queries[j].0;
      }
    }
    CollectAsWrittenResults(cs);
    var collected := CollectAsWritten(cs);
    if |collected.errors| > 0 && failFast then Failure(FailureMessage(collected.errors))
    else Success(collected.results)
  }

  /** A session whose query raises an exception with an empty message, such as `Exception()`. */
  function SilentFailure(q: string): Response<int>
  {
    Raised("")
  }

  /**
   * The discrepancy: with fail-fast on, a query raising an exception whose
   * message is empty is not reported; it lands in the result dict as None.
   * The corrected executor raises.
   */
  lemma EmptyMessageIsSwallowed()
    ensures RunAsWritten([("performance", "q")], SilentFailure, 4, true) == Success(map["performance" := None])
    ensures RunQueriesParallel([("performance", "q")], SilentFailure, 4, true).Failure?
  {
    var queries := [("performance", "q")];
    var cs := Completions(queries, SilentFailure);
    assert cs == [Completion("performance", None, Some(""))];
    assert CollectAsWritten(cs) == CollectedAsWritten(map["performance" := None], []) by {
      assert cs[..0] == [];
    }
  }

  /** The two collection loops agree whenever every raised message is non-empty. */
  lemma {:induction false} CollectAgreesOnNonEmptyMessages<T>(cs: seq<Completion<T>>)
    requires forall i :: 0 <= i < |cs| ==> WellFormed(cs[i])
    requires DistinctNames(cs)
    requires forall i :: 0 <= i < |cs| && cs[i].error.Some? ==> cs[i].error.value != ""
    ensures CollectAsWritten(cs).errors == Collect(cs).errors
    ensures CollectAsWritten(cs).results.Keys == Collect(cs).results.Keys
    ensures forall n :: n in Collect(cs).results ==> CollectAsWritten(cs).results[n] == Some(Collect(cs).results[n])
    decreases |cs|
  {
    if |cs| > 0 {
      var init := cs[..|cs| - 1];
      assert forall i :: 0 <= i < |init| ==> init[i] == cs[i];
      CollectAgreesOnNonEmptyMessages(init);
    }
  }

  /** With non-empty messages the as-written executor raises exactly when the corrected one does. */
  lemma AsWrittenAgreesOnNonEmptyMessages<Q, T>(queries: seq<(string, Q)>, oracle: Q -> Response<T>,
                                                 maxWorkers: int, failFast: bool)
    requires DistinctKeys(queries)
    requires forall i :: 0 <= i < |queries| && oracle(queries[i].1).Raised? ==> oracle(queries[i].1).message != ""
    ensures RunAsWritten(queries, oracle, maxWorkers, failFast).Failure?
            == RunQueriesParallel(queries, oracle, maxWorkers, failFast).Failure?
    ensures RunQueriesParallel(queries, oracle, maxWorkers, failFast).Success? ==>
              RunAsWritten(queries, oracle, maxWorkers, failFast).value.Keys
              == RunQueriesParallel(queries, oracle, maxWorkers, failFast).value.Keys
  {
    var cs := Completions(queries, oracle);
    forall i | 0 <= i < |cs| && cs[i].error.Some? ensures cs[i].error.value != "" {
      assert cs[i] == ExecuteQuery(queries[i].0, oracle(queries[i].1));
    }
    CollectAgreesOnNonEmptyMessages(cs);
  }
}
