/** The thread-pool manager: one fetch job per URL, results collected in the
    order the jobs complete, falsy results dropped, and the executor shut
    down on every exit path. Thread scheduling is abstracted into a sequence
    of picks that says which pending job completes next. */
module ThreadPool {
  import opened Values
  import opened Network

  /** `fetch_data`: the decoded body of a successful GET, and None (`JNull`)
      for every failure, so that it never raises. The `if response.ok else
      None` branch is unreachable once `raise_for_status` has passed. A URL
      that is not a string makes `get` raise, which is caught as well. */
  function FetchData(web: Web, url: Json): (r: Json)
    ensures url.JStr? && Get(web, url.s).Ok? ==> r == Get(web, url.s).value
    ensures !(url.JStr? && Get(web, url.s).Ok?) ==> r == JNull
  {
    match url
    case JStr(s) =>
      (match Get(web, s)
       case Ok(body) => body
       case Raised(_) => JNull)
    case _ => JNull
  }

  /** A falsy job output is either a failed fetch or a falsy decoded body. */
  lemma FetchDataFalsy(web: Web, url: Json)
    ensures !Truthy(FetchData(web, url)) <==>
              !url.JStr? || Get(web, url.s).Raised? || !Truthy(Get(web, url.s).value)
  {
  }

  /** The handle `submit` returns: the job's position among all jobs the
      executor accepted, and the URL `fetch_data` is called with. */
  datatype Future = Future(index: nat, url: Json)

  /** The futures for `urls` submitted in order to an executor that had
      already accepted `start` jobs. */
  function Handles(start: nat, urls: seq<Json>): (fs: seq<Future>)
    ensures |fs| == |urls|
    ensures forall i :: 0 <= i < |fs| ==> fs[i] == Future(start + i, urls[i])
  {
    seq(|urls|, i requires 0 <= i < |urls| => Future(start + i, urls[i]))
  }

  /** Which of the `pending` futures completes next: the scheduler's pick
      modulo the number still pending, the first one once picks run out. */
  function NextPick(pending: nat, picks: seq<nat>): (k: nat)
    requires pending > 0
    ensures k < pending
  {
    if picks == [] then 0 else picks[0] % pending
  }

  function RestPicks(picks: seq<nat>): seq<nat>
  {
    if picks == [] then [] else picks[1..]
  }

  function RemoveAt<T>(s: seq<T>, k: nat): (r: seq<T>)
    requires k < |s|
    ensures |r| == |s| - 1
  {
    s[..k] + s[k + 1..]
  }

  /** The order in which `as_completed` yields `pending` under the scheduler's `picks`. */
  function CompletionOrder(pending: seq<Future>, picks: seq<nat>): (order: seq<Future>)
    ensures |order| == |pending|
    decreases |pending|
  {
    if pending == [] then []
    else
      var k := NextPick(|pending|, picks);
      [pending[k]] + CompletionOrder(RemoveAt(pending, k), RestPicks(picks))
  }

  /** The outputs of `fs`, taken in the order given, keeping only truthy ones. */
  function Collect(web: Web, fs: seq<Future>): (r: seq<Json>)
    ensures |r| <= |fs|
    ensures forall i :: 0 <= i < |r| ==> Truthy(r[i])
  {
    if fs == [] then []
    else
      var result := FetchData(web, fs[0].url);
      (if Truthy(result) then [result] else []) + Collect(web, fs[1..])
  }

  /** What `fetch_all_concurrently` returns for the futures `fs`. */
  function PoolResult(web: Web, fs: seq<Future>, picks: seq<nat>): (r: seq<Json>)
    ensures |r| <= |fs|
    ensures forall i :: 0 <= i < |r| ==> Truthy(r[i])
  {
    Collect(web, CompletionOrder(fs, picks))
  }

  /** The collection loop of `fetch_all_concurrently`: take the futures in
      the order they complete and keep each truthy result. */
  method CollectAsCompleted(web: Web, futures: seq<Future>, picks: seq<nat>) returns (results: seq<Json>)
    ensures results == PoolResult(web, futures, picks)
  {
    results := [];
    var pending := futures;
    var rest := picks;
    while pending != []
      invariant results + Collect(web, CompletionOrder(pending, rest)) == PoolResult(web, futures, picks)
      decreases |pending|
    {
      var k := NextPick(|pending|, rest);
      var future := pending[k];
      CollectNextCompleted(web, pending, rest);
      pending := RemoveAt(pending, k);
      rest := RestPicks(rest);
      ghost var later := Collect(web, CompletionOrder(pending, rest));
      var result := FetchData(web, future.url);
      if Truthy(result) {
        assert results + ([result] + later) == (results + [result]) + later;
        results := results + [result];
      } else {
        assert [] + later == later;
      }
    }
    assert results + [] == results;
  }

  /** Collecting in completion order takes the next completed future's output first. */
  lemma CollectNextCompleted(web: Web, pending: seq<Future>, picks: seq<nat>)
    requires pending != []
    ensures var k := NextPick(|pending|, picks);
            var result := FetchData(web, pending[k].url);
            Collect(web, CompletionOrder(pending, picks)) ==
              (if Truthy(result) then [result] else []) +
              Collect(web, CompletionOrder(RemoveAt(pending, k), RestPicks(picks)))
  {
    var k := NextPick(|pending|, picks);
    var order := CompletionOrder(pending, picks);
    assert order[0] == pending[k];
    assert order[1..] == CompletionOrder(RemoveAt(pending, k), RestPicks(picks));
  }

  /** `as_completed` yields every submitted future exactly once. */
  lemma {:induction false} CompletionOrderIsPermutation(pending: seq<Future>, picks: seq<nat>)
    ensures multiset(CompletionOrder(pending, picks)) == multiset(pending)
    ensures |CompletionOrder(pending, picks)| == |pending|
    decreases |pending|
  {
    if pending != [] {
      var k := NextPick(|pending|, picks);
      var rest := RemoveAt(pending, k);
      CompletionOrderIsPermutation(rest, RestPicks(picks));
      MultisetRemoveAt(pending, k);
      assert CompletionOrder(pending, picks) == [pending[k]] + CompletionOrder(rest, RestPicks(picks));
    }
  }

  /** Completion in submission order is one of the schedules: the instance
      of `AllOrdersReachable` with empty picks, kept as a worked example. */
  lemma {:induction false} SubmissionOrderIsASchedule(fs: seq<Future>)
    ensures CompletionOrder(fs, []) == fs
    decreases |fs|
  {
    if fs != [] {
      SubmissionOrderIsASchedule(fs[1..]);
      assert RemoveAt(fs, 0) == fs[1..];
    }
  }

  lemma ModOfSmaller(k: nat, n: nat)
    requires k < n
    ensures k % n == k
  {
  }

  /** Every rearrangement of the futures is the completion order of some
      schedule, so the picks cover whatever `as_completed` can produce. */
  lemma {:induction false} AllOrdersReachable(fs: seq<Future>, p: seq<Future>)
    requires multiset(p) == multiset(fs)
    ensures exists picks :: CompletionOrder(fs, picks) == p
    decreases |fs|
  {
    if p == [] {
      assert |fs| == |multiset(fs)| == 0;
      assert CompletionOrder(fs, []) == p;
    } else {
      assert p[0] in multiset(fs);
      var k :| 0 <= k < |fs| && fs[k] == p[0];
      RemoveMatching(p, fs, k);
      AllOrdersReachable(RemoveAt(fs, k), p[1..]);
      var later :| CompletionOrder(RemoveAt(fs, k), later) == p[1..];
      var picks := [k] + later;
      ModOfSmaller(k, |fs|);
      assert NextPick(|fs|, picks) == k;
      assert RestPicks(picks) == later;
      assert CompletionOrder(fs, picks) == [p[0]] + p[1..] == p;
    }
  }

  /** Any pending future can be the first one to complete, with the picks
      `[k]`: an instance of `AllOrdersReachable` with an explicit schedule,
      kept as a worked example. */
  lemma AnyJobMayFinishFirst(fs: seq<Future>, k: nat)
    requires k < |fs|
    ensures CompletionOrder(fs, [k])[0] == fs[k]
  {
    assert k % |fs| == k;
    assert NextPick(|fs|, [k]) == k;
    assert CompletionOrder(fs, [k]) == [fs[k]] + CompletionOrder(RemoveAt(fs, k), []);
  }

  lemma {:induction false} CollectAppend(web: Web, a: seq<Future>, b: seq<Future>)
    ensures Collect(web, a + b) == Collect(web, a) + Collect(web, b)
    decreases |a|
  {
    if a == [] {
      assert a + b == b;
    } else {
      CollectAppend(web, a[1..], b);
      assert (a + b)[0] == a[0];
      assert (a + b)[1..] == a[1..] + b;
      var head := FetchData(web, a[0].url);
      var first := if Truthy(head) then [head] else [];
      calc {
        Collect(web, a + b);
        first + Collect(web, a[1..] + b);
        first + (Collect(web, a[1..]) + Collect(web, b));
        (first + Collect(web, a[1..])) + Collect(web, b);
        Collect(web, a) + Collect(web, b);
      }
    }
  }

  /** Taking one future out of the middle splits the collected multiset. */
  lemma CollectRemoveAt(web: Web, s: seq<Future>, k: nat)
    requires k < |s|
    ensures multiset(Collect(web, s)) == multiset(Collect(web, [s[k]])) + multiset(Collect(web, RemoveAt(s, k)))
  {
    assert s == s[..k] + ([s[k]] + s[k + 1..]);
    CollectAppend(web, s[..k], [s[k]] + s[k + 1..]);
    CollectAppend(web, [s[k]], s[k + 1..]);
    CollectAppend(web, s[..k], s[k + 1..]);
  }

  /** Collecting a rearrangement of the same futures collects a rearrangement
      of the same outputs. */
  lemma {:induction false} CollectPermutation(web: Web, a: seq<Future>, b: seq<Future>)
    requires multiset(a) == multiset(b)
    ensures multiset(Collect(web, a)) == multiset(Collect(web, b))
    decreases |a|
  {
    if a == [] {
      assert |b| == |multiset(b)| == 0;
    } else {
      assert a[0] in multiset(b);
      var k :| 0 <= k < |b| && b[k] == a[0];
      RemoveMatching(a, b, k);
      CollectPermutation(web, a[1..], RemoveAt(b, k));
      CollectRemoveAt(web, b, k);
      CollectRemoveAt(web, a, 0);
      assert RemoveAt(a, 0) == a[1..];
    }
  }

  /** Taking the same element out of two rearrangements of each other leaves
      rearrangements of each other. */
  lemma RemoveMatching<T>(a: seq<T>, b: seq<T>, k: nat)
    requires multiset(a) == multiset(b) && a != [] && k < |b| && b[k] == a[0]
    ensures multiset(a[1..]) == multiset(RemoveAt(b, k))
  {
    MultisetRemoveAt(b, k);
    MultisetRemoveAt(a, 0);
    assert RemoveAt(a, 0) == a[1..];
  }

  /** Removing the element at `k` removes one occurrence of it. */
  lemma MultisetRemoveAt<T>(s: seq<T>, k: nat)
    requires k < |s|
    ensures multiset(RemoveAt(s, k)) == multiset(s) - multiset{s[k]}
  {
    var left, right := s[..k], s[k + 1..];
    assert s == left + [s[k]] + right;
    assert multiset(s) == multiset(left) + multiset{s[k]} + multiset(right);
    assert multiset(RemoveAt(s, k)) == multiset(left) + multiset(right);
  }

  /** The number of collected results equals the number of jobs exactly when
      every job's output is truthy. */
  lemma {:induction false} CollectKeepsAllIffAllTruthy(web: Web, fs: seq<Future>)
    ensures |Collect(web, fs)| == |fs| <==> forall i :: 0 <= i < |fs| ==> Truthy(FetchData(web, fs[i].url))
    decreases |fs|
  {
    if fs != [] {
      CollectKeepsAllIffAllTruthy(web, fs[1..]);
      assert forall i :: 1 <= i < |fs| ==> fs[i] == fs[1..][i - 1];
    }
  }

  /** A value is collected exactly when it is the truthy output of some job. */
  lemma {:induction false} CollectMembership(web: Web, fs: seq<Future>, v: Json)
    ensures v in Collect(web, fs) <==> Truthy(v) && exists i :: 0 <= i < |fs| && FetchData(web, fs[i].url) == v
    decreases |fs|
  {
    if fs != [] {
      CollectMembership(web, fs[1..], v);
      if exists i :: 0 <= i < |fs| && FetchData(web, fs[i].url) == v {
        var i :| 0 <= i < |fs| && FetchData(web, fs[i].url) == v;
        if i > 0 {
          assert fs[1..][i - 1] == fs[i];
        }
      }
    }
  }

  /** What the collection loop promises, whatever the completion order: every
      result is truthy; as a multiset the results are the truthy job outputs
      in submission order; there are at most as many results as jobs, and as
      many exactly when no job's output was falsy. */
  lemma PoolResultProperties(web: Web, fs: seq<Future>, picks: seq<nat>)
    ensures forall i :: 0 <= i < |PoolResult(web, fs, picks)| ==> Truthy(PoolResult(web, fs, picks)[i])
    ensures multiset(PoolResult(web, fs, picks)) == multiset(Collect(web, fs))
    ensures |PoolResult(web, fs, picks)| <= |fs|
    ensures |PoolResult(web, fs, picks)| == |fs| <==> forall i :: 0 <= i < |fs| ==> Truthy(FetchData(web, fs[i].url))
  {
    CompletionOrderIsPermutation(fs, picks);
    CollectPermutation(web, CompletionOrder(fs, picks), fs);
    assert |PoolResult(web, fs, picks)| == |multiset(Collect(web, fs))| == |Collect(web, fs)|;
    CollectKeepsAllIffAllTruthy(web, fs);
  }

  /** Three detail fetches of which the third answers HTTP 500: whatever the
      completion order, the two decoded bodies are returned and nothing is raised. */
  lemma OneFailedFetchOfThreeIsDropped(picks: seq<nat>)
    ensures var a := JObj(map["name" := JStr("A")]);
            var b := JObj(map["name" := JStr("B")]);
            var web := map["/A" := Response(200, Some(a)), "/B" := Response(200, Some(b)),
                           "/C" := Response(500, Some(JObj(map[])))];
            var r := PoolResult(web, Handles(0, [JStr("/A"), JStr("/B"), JStr("/C")]), picks);
            |r| == 2 && multiset(r) == multiset{a, b}
  {
    var a := JObj(map["name" := JStr("A")]);
    var b := JObj(map["name" := JStr("B")]);
    var web := map["/A" := Response(200, Some(a)), "/B" := Response(200, Some(b)),
                   "/C" := Response(500, Some(JObj(map[])))];
    var fs := Handles(0, [JStr("/A"), JStr("/B"), JStr("/C")]);
    assert FetchData(web, fs[0].url) == a && FetchData(web, fs[1].url) == b && FetchData(web, fs[2].url) == JNull;
    assert Truthy(a) by { assert "name" in a.fields; }
    assert Truthy(b) by { assert "name" in b.fields; }
    assert fs[1..][0] == fs[1] && fs[1..][1..][0] == fs[2] && fs[1..][1..][1..] == [];
    assert Collect(web, fs[1..][1..]) == [];
    assert Collect(web, fs[1..]) == [b];
    assert Collect(web, fs) == [a, b];
    PoolResultProperties(web, fs, picks);
  }

  /** The executor behind the manager: whether it has been shut down, and the
      URLs of the jobs it accepted, in submission order. */
  class Executor {
    const maxWorkers: nat
    var shutDown: bool
    var submitted: seq<Json>
    ghost var shutdownCalls: nat

    constructor (maxWorkers: nat)
      requires maxWorkers > 0
      ensures this.maxWorkers == maxWorkers
      ensures !shutDown && submitted == [] && shutdownCalls == 0
    {
      this.maxWorkers := maxWorkers;
      shutDown := false;
      submitted := [];
      shutdownCalls := 0;
    }

    /** `submit(fetch_data, url)`: refused with a RuntimeError once shut down. */
    method Submit(url: Json) returns (r: Outcome<Future>)
      modifies this
      ensures shutDown == old(shutDown) && shutdownCalls == old(shutdownCalls)
      ensures old(shutDown) ==> r == Raised(SchedulingAfterShutdown) && submitted == old(submitted)
      ensures !old(shutDown) ==> r == Ok(Future(|old(submitted)|, url)) && submitted == old(submitted) + [url]
    {
      if shutDown {
        r := Raised(SchedulingAfterShutdown);
      } else {
        r := Ok(Future(|submitted|, url));
        submitted := submitted + [url];
      }
    }

    /** `shutdown(wait=True)`; `fault` says whether it ends in an exception. */
    method Shutdown(fault: bool) returns (raised: bool)
      modifies this
      ensures shutDown && submitted == old(submitted)
      ensures shutdownCalls == old(shutdownCalls) + 1
      ensures raised == fault
    {
      shutDown := true;
      shutdownCalls := shutdownCalls + 1;
      raised := fault;
    }
  }

  class ThreadPoolManager {
    const executor: Executor

    constructor (maxWorkers: nat)
      requires maxWorkers > 0
      ensures fresh(executor) && executor.maxWorkers == maxWorkers
      ensures !executor.shutDown && executor.submitted == [] && executor.shutdownCalls == 0
    {
      executor := new Executor(maxWorkers);
    }

    /** `fetch_all_concurrently`: submit one job per URL, collect the truthy
        results as the jobs complete, and shut the executor down exactly once
        whether the call returns or raises. The only exception is the
        RuntimeError of submitting to an executor that is already shut down. */
    method FetchAllConcurrently(urls: seq<Json>, web: Web, picks: seq<nat>, shutdownFault: bool)
      returns (r: Outcome<seq<Json>>)
      modifies executor
      ensures executor.shutDown
      ensures executor.shutdownCalls == old(executor.shutdownCalls) + 1
      ensures old(executor.shutDown) && urls != [] ==>
                r == Raised(SchedulingAfterShutdown) && executor.submitted == old(executor.submitted)
      ensures !(old(executor.shutDown) && urls != []) ==>
                executor.submitted == old(executor.submitted) + urls &&
                r == Ok(PoolResult(web, Handles(|old(executor.submitted)|, urls), picks))
    {
      ghost var start := |executor.submitted|;
      var futures: seq<Future> := [];
      var failure: Option<Error> := None;
      var i := 0;
      while i < |urls|
        invariant 0 <= i <= |urls|
        invariant executor.shutDown == old(executor.shutDown)
        invariant executor.shutdownCalls == old(executor.shutdownCalls)
        invariant failure == None ==> executor.submitted == old(executor.submitted) + urls[..i]
        invariant failure == None ==> futures == Handles(start, urls[..i])
        invariant failure != None ==>
                    old(executor.shutDown) && failure == Some(SchedulingAfterShutdown) &&
                    executor.submitted == old(executor.submitted)
        invariant old(executor.shutDown) ==> i == 0
      {
        var submission := executor.Submit(urls[i]);
        if submission.Raised? {
          failure := Some(submission.error);
          break;
        }
        futures := futures + [submission.value];
        i := i + 1;
      }
      if failure.Some? {
        r := Raised(failure.value);
      } else {
        assert urls[..i] == urls;
        var results := CollectAsCompleted(web, futures, picks);
        r := Ok(results);
      }
      Shutdown(shutdownFault);
    }

    /** `shutdown`: shuts the executor down. An exception the executor raises
        is logged and swallowed, so `raised` is not passed on. */
    method Shutdown(fault: bool)
      modifies executor
      ensures executor.shutDown && executor.submitted == old(executor.submitted)
      ensures executor.shutdownCalls == old(executor.shutdownCalls) + 1
    {
      var raised := executor.Shutdown(fault);
    }
  }
}
