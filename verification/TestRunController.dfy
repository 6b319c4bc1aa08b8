/** core/test-run-controller/src/test-run-controller.ts: N workers pull tests from one queue and push
    retries back onto it.

    Between two awaits a worker either pulls (or finds the queue empty and exits), or learns how its
    attempt ended, or pushes a retry after the delay. Hooks are arbitrary: `Skip` is a true
    `shouldNotStart`, a failure may come from a hook as well as from the test, and `noRetry` is the
    answer of `shouldNotRetry`. */
module TestRuns {
  import opened Common
  import opened Queues

  type Error = string

  datatype Item = Item(test: nat, retryCount: nat)

  datatype Worker = Looping | Running(item: Item) | Retrying(item: Item) | Exited

  datatype Outcome = Skip | Pass | Fail(error: Error, noRetry: bool)

  datatype Verdict = Skipped | Passed | Failed

  datatype Settlement = Settlement(test: nat, verdict: Verdict)

  /** `retryErrors` holds for every test the array that all its queue items share; `pulled` and
      `settled` are the history. */
  datatype Run = Run(
    retries: nat,
    queue: seq<Item>,
    workers: seq<Worker>,
    errors: seq<Error>,
    retryErrors: seq<seq<Error>>,
    pulled: seq<Item>,
    settled: seq<Settlement>)

  datatype WorkerLimit = Local | Count(n: int)

  /** `executeQueue` and the preparation of the queue: how many workers are started. */
  function Start(tests: nat, retries: nat, limit: WorkerLimit): Result<Run, string> {
    if limit.Local? then Ok(Prepared(tests, retries, 1))
    else if limit.n > 0 then Ok(Prepared(tests, retries, if limit.n < tests then limit.n else tests))
    else Err("Invalid workerLimit argument value")
  }

  function Prepared(tests: nat, retries: nat, workers: nat): Run {
    Run(retries, seq(tests, (i: nat) => Item(i, 0)), seq(workers, i => Looping), [],
        seq(tests, i => []), [], [])
  }

  /** A run starts unless the limit is a number that is not positive. A local run has one worker, any
      other as many as allowed, but no more than there are tests; all of them begin to loop over the
      same queue, in which every test stands once and in order. */
  lemma StartMeans(tests: nat, retries: nat, limit: WorkerLimit)
    ensures Start(tests, retries, limit).Err? <==> limit.Count? && limit.n <= 0
    ensures Start(tests, retries, limit).Ok? ==>
              var r := Start(tests, retries, limit).value;
              && (limit.Local? ==> |r.workers| == 1)
              && (limit.Count? ==> |r.workers| <= limit.n && |r.workers| <= tests)
              && (limit.Count? ==> |r.workers| == limit.n || |r.workers| == tests)
              && (forall i :: 0 <= i < |r.workers| ==> r.workers[i].Looping?)
              && |r.queue| == tests && (forall i :: 0 <= i < tests ==> r.queue[i] == Item(i, 0))
              && r.retries == retries && r.errors == [] && r.pulled == [] && r.settled == []
  {
  }

  datatype Event = EPull(worker: nat) | EFinish(worker: nat, outcome: Outcome) | EPush(worker: nat)

  predicate Enabled(r: Run, e: Event) {
    && e.worker < |r.workers|
    && (match e
        case EPull(i) => r.workers[i].Looping?
        case EFinish(i, _) => r.workers[i].Running? && r.workers[i].item.test < |r.retryErrors|
        case EPush(i) => r.workers[i].Retrying?)
  }

  /** One turn of the worker loop: take the first test, or leave when there is none. */
  function Pull(r: Run, i: nat): Run
    requires i < |r.workers|
  {
    if r.queue == [] then r.(workers := r.workers[i := Exited])
    else r.(queue := r.queue[1..],
            workers := r.workers[i := Running(r.queue[0])],
            pulled := r.pulled + [r.queue[0]])
  }

  function Settle(r: Run, i: nat, verdict: Verdict): Run
    requires i < |r.workers| && r.workers[i].Running?
  {
    r.(workers := r.workers[i := Looping],
       settled := r.settled + [Settlement(r.workers[i].item.test, verdict)])
  }

  function MayRetry(r: Run, item: Item, noRetry: bool): bool {
    !noRetry && item.retryCount < r.retries
  }

  /** The failed test's shared error array grows. */
  function Noted(r: Run, test: nat, error: Error): Run
    requires test < |r.retryErrors|
  {
    r.(retryErrors := r.retryErrors[test := r.retryErrors[test] + [error]])
  }

  /** The catch branch of `executeWorker` and `onTestFailed` up to the retry delay. */
  function OnTestFailed(r: Run, i: nat, error: Error, noRetry: bool): Run
    requires i < |r.workers| && r.workers[i].Running? && r.workers[i].item.test < |r.retryErrors|
  {
    var item := r.workers[i].item;
    var noted := Noted(r, item.test, error);
    if MayRetry(r, item, noRetry) then noted.(workers := r.workers[i := Retrying(item)])
    else Settle(noted.(errors := r.errors + [error]), i, Failed)
  }

  function Finish(r: Run, i: nat, outcome: Outcome): Run
    requires i < |r.workers| && r.workers[i].Running? && r.workers[i].item.test < |r.retryErrors|
  {
    match outcome
    case Skip => Settle(r, i, Skipped)
    case Pass => Settle(r, i, Passed)
    case Fail(error, noRetry) => OnTestFailed(r, i, error, noRetry)
  }

  function PushRetry(r: Run, i: nat): Run
    requires i < |r.workers| && r.workers[i].Retrying?
  {
    var item := r.workers[i].item;
    r.(queue := r.queue + [item.(retryCount := item.retryCount + 1)], workers := r.workers[i := Looping])
  }

  function Step(r: Run, e: Event): Run
    requires Enabled(r, e)
  {
    match e
    case EPull(i) => Pull(r, i)
    case EFinish(i, outcome) => Finish(r, i, outcome)
    case EPush(i) => PushRetry(r, i)
  }

  // ---- How an attempt ends ----

  /** The worker is free again, its test has this verdict, and nothing is queued. */
  ghost predicate SettledBy(r: Run, t: Run, i: nat, verdict: Verdict)
    requires i < |r.workers| && r.workers[i].Running?
  {
    && t.workers == r.workers[i := Looping]
    && t.settled == r.settled + [Settlement(r.workers[i].item.test, verdict)]
    && t.queue == r.queue
  }

  /** An attempt that did not fail settles its test without an error. */
  lemma AttemptSucceeds(r: Run, i: nat, outcome: Outcome)
    requires Enabled(r, EFinish(i, outcome)) && !outcome.Fail?
    ensures var t := Step(r, EFinish(i, outcome));
            && SettledBy(r, t, i, if outcome == Skip then Skipped else Passed)
            && t.errors == r.errors && t.retryErrors == r.retryErrors && t.pulled == r.pulled
  {
  }

  /** A failed attempt leaves its error with the test. The worker goes on to retry that very item if
      the hook does not forbid it and fewer retries than configured were used; in every other case the
      test is settled as failed and the error is reported. */
  lemma AttemptFails(r: Run, i: nat, error: Error, noRetry: bool)
    requires Enabled(r, EFinish(i, Fail(error, noRetry)))
    ensures var t, item := Step(r, EFinish(i, Fail(error, noRetry))), r.workers[i].item;
            && (t.workers[i] == Retrying(item) <==> !noRetry && item.retryCount < r.retries)
            && (t.workers[i] == Retrying(item) ==>
                  t == r.(workers := r.workers[i := Retrying(item)], retryErrors := t.retryErrors))
            && (t.workers[i] != Retrying(item) ==>
                  SettledBy(r, t, i, Failed) && t.errors == r.errors + [error] && t.pulled == r.pulled)
            && t.retryErrors == r.retryErrors[item.test := r.retryErrors[item.test] + [error]]
  {
  }

  /** A worker takes the first item, and leaves only when there is none. */
  lemma PullTakesFirst(r: Run, i: nat)
    requires Enabled(r, EPull(i))
    ensures var t := Step(r, EPull(i));
            && (t.workers[i].Exited? <==> r.queue == [])
            && (r.queue == [] ==> t == r.(workers := r.workers[i := Exited]))
            && (r.queue != [] ==> t.workers[i].Running? && r.queue == [t.workers[i].item] + t.queue
                                  && t.pulled == r.pulled + [t.workers[i].item])
            && t.workers == r.workers[i := t.workers[i]] && t.settled == r.settled && t.errors == r.errors
  {
  }

  /** A retry puts the item at the end of the queue, with one more retry counted. */
  lemma RetryIsQueued(r: Run, i: nat)
    requires Enabled(r, EPush(i))
    ensures var t, item := Step(r, EPush(i)), r.workers[i].item;
            t == r.(queue := t.queue, workers := r.workers[i := Looping])
            && |t.queue| == |r.queue| + 1 && t.queue[..|r.queue|] == r.queue
            && t.queue[|r.queue|].test == item.test && t.queue[|r.queue|].retryCount == item.retryCount + 1
  {
  }

  ghost predicate Reaches(r: Run, es: seq<Event>, t: Run)
    decreases |es|
  {
    if es == [] then r == t
    else Enabled(r, es[0]) && Reaches(Step(r, es[0]), es[1..], t)
  }

  // ---- Sums over the queue and over the workers ----

  function QueueSum(f: Item -> nat, q: seq<Item>): nat {
    if q == [] then 0 else f(q[0]) + QueueSum(f, q[1..])
  }

  function WorkersSum(g: Worker -> nat, ws: seq<Worker>): nat {
    if ws == [] then 0 else g(ws[0]) + WorkersSum(g, ws[1..])
  }

  lemma {:induction false} QueueAppend(f: Item -> nat, q: seq<Item>, item: Item)
    ensures QueueSum(f, q + [item]) == QueueSum(f, q) + f(item)
  {
    if q == [] {
      assert q + [item] == [item] && [item][1..] == [];
    } else {
      QueueAppend(f, q[1..], item);
      assert (q + [item])[1..] == q[1..] + [item];
    }
  }

  lemma {:induction false} WorkersUpdate(g: Worker -> nat, ws: seq<Worker>, i: nat, w: Worker)
    requires i < |ws|
    ensures WorkersSum(g, ws[i := w]) + g(ws[i]) == WorkersSum(g, ws) + g(w)
  {
    if i == 0 {
      assert ws[0 := w][1..] == ws[1..];
    } else {
      WorkersUpdate(g, ws[1..], i - 1, w);
      assert ws[i := w][1..] == ws[1..][i - 1 := w];
    }
  }

  /** How often a test occurs in the queue, with the workers, and among the settlements. */
  function OfTest(t: nat): Item -> nat {
    (x: Item) => if x.test == t then 1 else 0
  }

  function Holds(w: Worker, t: nat): nat {
    if (w.Running? || w.Retrying?) && w.item.test == t then 1 else 0
  }

  function HoldsTest(t: nat): Worker -> nat {
    (w: Worker) => Holds(w, t)
  }

  function InQueue(q: seq<Item>, t: nat): nat {
    QueueSum(OfTest(t), q)
  }

  function WithWorkers(ws: seq<Worker>, t: nat): nat {
    WorkersSum(HoldsTest(t), ws)
  }

  function Settlements(s: seq<Settlement>, t: nat): nat {
    if s == [] then 0 else Settlements(s[..|s| - 1], t) + if s[|s| - 1].test == t then 1 else 0
  }

  lemma {:induction false} WorkersHold(ws: seq<Worker>, i: nat, t: nat)
    requires i < |ws| && Holds(ws[i], t) == 1
    ensures WithWorkers(ws, t) >= 1
    ensures forall j :: 0 <= j < |ws| && j != i && Holds(ws[j], t) == 1 ==> WithWorkers(ws, t) >= 2
  {
    if i > 0 {
      WorkersHold(ws[1..], i - 1, t);
    } else {
      forall j | 1 <= j < |ws| && Holds(ws[j], t) == 1 ensures WithWorkers(ws[1..], t) >= 1 {
        WorkersHold(ws[1..], j - 1, t);
      }
    }
  }

  lemma {:induction false} QueueHolds(q: seq<Item>, item: Item)
    requires item in q
    ensures InQueue(q, item.test) >= 1
  {
    if q[0] != item {
      assert item in q[1..];
      QueueHolds(q[1..], item);
    }
  }

  lemma {:induction false} SettledHolds(s: seq<Settlement>, x: Settlement)
    requires x in s
    ensures Settlements(s, x.test) >= 1
  {
    if s[|s| - 1] != x {
      assert x in s[..|s| - 1];
      SettledHolds(s[..|s| - 1], x);
    }
  }

  // ---- The invariant of every interleaving ----

  /** The retry counts with which a test was pulled, in order. */
  function Attempts(pulled: seq<Item>, t: nat): seq<nat> {
    if pulled == [] then []
    else
      var last := pulled[|pulled| - 1];
      Attempts(pulled[..|pulled| - 1], t) + if last.test == t then [last.retryCount] else []
  }

  function UpTo(k: nat): seq<nat> {
    seq(k, (i: nat) => i)
  }

  function CountFailed(s: seq<Settlement>): nat {
    if s == [] then 0
    else CountFailed(s[..|s| - 1]) + if s[|s| - 1].verdict == Failed then 1 else 0
  }

  function Places(r: Run, t: nat): nat {
    InQueue(r.queue, t) + WithWorkers(r.workers, t) + Settlements(r.settled, t)
  }

  /** Every test is in exactly one place: queued, with one worker, or settled. */
  ghost predicate Conserved(r: Run) {
    forall t: nat :: Places(r, t) == if t < |r.retryErrors| then 1 else 0
  }

  /** While tests are queued, some worker will come back for them. */
  ghost predicate Attended(r: Run) {
    r.queue != [] ==> exists i :: 0 <= i < |r.workers| && !r.workers[i].Exited?
  }

  /** How many attempts at a test were begun, and how many errors its shared array holds. */
  ghost predicate Record(r: Run, t: nat, attempts: nat, errors: nat) {
    && t < |r.retryErrors|
    && Attempts(r.pulled, t) == UpTo(attempts)
    && |r.retryErrors[t]| == errors
  }

  ghost predicate QueuedOk(r: Run, item: Item) {
    item.retryCount <= r.retries && Record(r, item.test, item.retryCount, item.retryCount)
  }

  ghost predicate WorkerOk(r: Run, w: Worker) {
    match w
    case Running(item) =>
      item.retryCount <= r.retries && Record(r, item.test, item.retryCount + 1, item.retryCount)
    case Retrying(item) =>
      item.retryCount < r.retries && Record(r, item.test, item.retryCount + 1, item.retryCount + 1)
    case _ => true
  }

  /** A settled test took at least one and at most retryCount + 1 attempts, numbered 0, 1, 2, ...;
      every attempt but a successful last one left an error. */
  ghost predicate SettledOk(r: Run, s: Settlement) {
    exists k: nat :: SettledAfter(r, s, k)
  }

  ghost predicate SettledAfter(r: Run, s: Settlement, k: nat) {
    1 <= k <= r.retries + 1 && Record(r, s.test, k, if s.verdict == Failed then k else k - 1)
  }

  ghost predicate Accounted(r: Run) {
    && (forall x :: x in r.queue ==> QueuedOk(r, x))
    && (forall i :: 0 <= i < |r.workers| ==> WorkerOk(r, r.workers[i]))
    && (forall s :: s in r.settled ==> SettledOk(r, s))
    && |r.errors| == CountFailed(r.settled)
  }

  ghost predicate RunInv(r: Run) {
    Conserved(r) && Attended(r) && Accounted(r)
  }

  lemma {:induction false} AttemptsAppend(pulled: seq<Item>, x: Item, t: nat)
    ensures Attempts(pulled + [x], t) == Attempts(pulled, t) + if x.test == t then [x.retryCount] else []
  {
  }

  lemma UpToNext(k: nat)
    ensures UpTo(k) + [k] == UpTo(k + 1)
  {
  }

  lemma SettledAppend(s: seq<Settlement>, x: Settlement, t: nat)
    ensures Settlements(s + [x], t) == Settlements(s, t) + if x.test == t then 1 else 0
    ensures CountFailed(s + [x]) == CountFailed(s) + if x.verdict == Failed then 1 else 0
  {
  }

  // Conservation, step by step.

  lemma PullConserves(r: Run, i: nat, t: nat)
    requires i < |r.workers| && r.workers[i].Looping?
    ensures Places(Pull(r, i), t) == Places(r, t)
  {
    WorkersUpdate(HoldsTest(t), r.workers, i, if r.queue == [] then Exited else Running(r.queue[0]));
  }

  lemma SettleConserves(r: Run, i: nat, verdict: Verdict, t: nat)
    requires i < |r.workers| && r.workers[i].Running?
    ensures Places(Settle(r, i, verdict), t) == Places(r, t)
  {
    WorkersUpdate(HoldsTest(t), r.workers, i, Looping);
    SettledAppend(r.settled, Settlement(r.workers[i].item.test, verdict), t);
  }

  lemma FinishConserves(r: Run, i: nat, outcome: Outcome, t: nat)
    requires i < |r.workers| && r.workers[i].Running? && r.workers[i].item.test < |r.retryErrors|
    ensures Places(Finish(r, i, outcome), t) == Places(r, t)
  {
    match outcome
    case Skip => SettleConserves(r, i, Skipped, t);
    case Pass => SettleConserves(r, i, Passed, t);
    case Fail(error, noRetry) =>
      WorkersUpdate(HoldsTest(t), r.workers, i, Retrying(r.workers[i].item));
      SettleConserves(r, i, Failed, t);
  }

  lemma PushConserves(r: Run, i: nat, t: nat)
    requires i < |r.workers| && r.workers[i].Retrying?
    ensures Places(PushRetry(r, i), t) == Places(r, t)
  {
    var item := r.workers[i].item;
    WorkersUpdate(HoldsTest(t), r.workers, i, Looping);
    QueueAppend(OfTest(t), r.queue, item.(retryCount := item.retryCount + 1));
  }

  lemma StepConserves(r: Run, e: Event)
    requires Conserved(r) && Enabled(r, e)
    ensures Conserved(Step(r, e))
  {
    forall t: nat ensures Places(Step(r, e), t) == Places(r, t) {
      match e
      case EPull(i) => PullConserves(r, i, t);
      case EFinish(i, outcome) => FinishConserves(r, i, outcome, t);
      case EPush(i) => PushConserves(r, i, t);
    }
  }

  // Accounting: a step changes the record of one test, which is in one place only.

  lemma QueueHeadAlone(r: Run)
    requires Conserved(r) && r.queue != []
    ensures var t := r.queue[0].test;
            && t < |r.retryErrors|
            && (forall x :: x in r.queue[1..] ==> x.test != t)
            && (forall j :: 0 <= j < |r.workers| ==> Holds(r.workers[j], t) == 0)
            && (forall x :: x in r.settled ==> x.test != t)
  {
    var t := r.queue[0].test;
    assert Places(r, t) <= 1;
    forall x | x in r.queue[1..] ensures x.test != t {
      if x.test == t { QueueHolds(r.queue[1..], x); }
    }
    forall j | 0 <= j < |r.workers| ensures Holds(r.workers[j], t) == 0 {
      if Holds(r.workers[j], t) == 1 { WorkersHold(r.workers, j, t); }
    }
    forall x | x in r.settled ensures x.test != t {
      if x.test == t { SettledHolds(r.settled, x); }
    }
  }

  lemma WorkerAlone(r: Run, i: nat)
    requires Conserved(r) && i < |r.workers| && (r.workers[i].Running? || r.workers[i].Retrying?)
    ensures var t := r.workers[i].item.test;
            && t < |r.retryErrors|
            && (forall x :: x in r.queue ==> x.test != t)
            && (forall j :: 0 <= j < |r.workers| && j != i ==> Holds(r.workers[j], t) == 0)
            && (forall x :: x in r.settled ==> x.test != t)
  {
    var t := r.workers[i].item.test;
    assert Places(r, t) <= 1;
    WorkersHold(r.workers, i, t);
    forall x | x in r.queue ensures x.test != t {
      if x.test == t { QueueHolds(r.queue, x); }
    }
    forall x | x in r.settled ensures x.test != t {
      if x.test == t { SettledHolds(r.settled, x); }
    }
  }

  /** Records depend only on the pulls and on the error arrays. */
  lemma SameRecords(r: Run, t: Run)
    requires t.retries == r.retries && t.pulled == r.pulled && t.retryErrors == r.retryErrors
    ensures forall x :: QueuedOk(r, x) ==> QueuedOk(t, x)
    ensures forall w :: WorkerOk(r, w) ==> WorkerOk(t, w)
    ensures forall s :: SettledOk(r, s) ==> SettledOk(t, s)
  {
    forall s | SettledOk(r, s) ensures SettledOk(t, s) {
      var k: nat :| SettledAfter(r, s, k);
      assert SettledAfter(t, s, k);
    }
  }

  lemma PullAccounts(r: Run, i: nat)
    requires Conserved(r) && Accounted(r) && i < |r.workers| && r.workers[i].Looping?
    ensures Accounted(Pull(r, i))
  {
    if r.queue == [] {
      SameRecords(r, Pull(r, i));
    } else {
      PullItemAccounts(r, i);
    }
  }

  lemma PullItemAccounts(r: Run, i: nat)
    requires Conserved(r) && Accounted(r) && i < |r.workers| && r.workers[i].Looping? && r.queue != []
    ensures Accounted(Pull(r, i))
  {
    var x := r.queue[0];
    var t := Pull(r, i);
    QueueHeadAlone(r);
    assert QueuedOk(r, x);
    AttemptsAppend(r.pulled, x, x.test);
    UpToNext(x.retryCount);
    forall u: nat | u != x.test ensures Attempts(t.pulled, u) == Attempts(r.pulled, u) {
      AttemptsAppend(r.pulled, x, u);
    }
    forall y | y in t.queue ensures QueuedOk(t, y) {
      assert QueuedOk(r, y);
    }
    forall j | 0 <= j < |t.workers| ensures WorkerOk(t, t.workers[j]) {
      assert j != i ==> WorkerOk(r, r.workers[j]);
    }
    forall s | s in t.settled ensures SettledOk(t, s) {
      var k: nat :| SettledAfter(r, s, k);
      assert SettledAfter(t, s, k);
    }
  }

  lemma PushAccounts(r: Run, i: nat)
    requires Accounted(r) && i < |r.workers| && r.workers[i].Retrying?
    ensures Accounted(PushRetry(r, i))
  {
    SameRecords(r, PushRetry(r, i));
    assert WorkerOk(r, r.workers[i]);
  }

  /** The accounts of everybody but worker i. */
  ghost predicate OthersAccounted(r: Run, i: nat) {
    && (forall x :: x in r.queue ==> QueuedOk(r, x))
    && (forall j :: 0 <= j < |r.workers| && j != i ==> WorkerOk(r, r.workers[j]))
    && (forall s :: s in r.settled ==> SettledOk(r, s))
  }

  /** The worker's test leaves it with a verdict and an up-to-date record. */
  lemma SettleAccounts(r: Run, i: nat, verdict: Verdict, item: Item)
    requires i < |r.workers| && r.workers[i] == Running(item) && OthersAccounted(r, i)
    requires |r.errors| == CountFailed(r.settled) + if verdict == Failed then 1 else 0
    requires SettledAfter(r, Settlement(item.test, verdict), item.retryCount + 1)
    ensures Accounted(Settle(r, i, verdict))
  {
    SameRecords(r, Settle(r, i, verdict));
    SettledAppend(r.settled, Settlement(item.test, verdict), 0);
  }

  lemma RetryingAccounts(r: Run, i: nat, item: Item)
    requires i < |r.workers| && item.retryCount < r.retries && OthersAccounted(r, i)
    requires |r.errors| == CountFailed(r.settled)
    requires Record(r, item.test, item.retryCount + 1, item.retryCount + 1)
    ensures Accounted(r.(workers := r.workers[i := Retrying(item)]))
  {
    SameRecords(r, r.(workers := r.workers[i := Retrying(item)]));
  }

  lemma NotedKeepsOthers(r: Run, i: nat, error: Error)
    requires Conserved(r) && Accounted(r) && i < |r.workers| && r.workers[i].Running?
    requires r.workers[i].item.test < |r.retryErrors|
    ensures var item := r.workers[i].item;
            var t := Noted(r, item.test, error);
            && OthersAccounted(t, i)
            && item.retryCount <= r.retries
            && Record(t, item.test, item.retryCount + 1, item.retryCount + 1)
  {
    var item := r.workers[i].item;
    var t := Noted(r, item.test, error);
    WorkerAlone(r, i);
    assert WorkerOk(r, r.workers[i]);
    forall x | x in t.queue ensures QueuedOk(t, x) {
      assert QueuedOk(r, x);
    }
    forall j | 0 <= j < |t.workers| && j != i ensures WorkerOk(t, t.workers[j]) {
      assert WorkerOk(r, r.workers[j]) && Holds(r.workers[j], item.test) == 0;
    }
    forall s | s in t.settled ensures SettledOk(t, s) {
      var k: nat :| SettledAfter(r, s, k);
      assert SettledAfter(t, s, k);
    }
  }

  lemma FailAccounts(r: Run, i: nat, error: Error, noRetry: bool)
    requires Conserved(r) && Accounted(r) && i < |r.workers| && r.workers[i].Running?
    requires r.workers[i].item.test < |r.retryErrors|
    ensures Accounted(OnTestFailed(r, i, error, noRetry))
  {
    var item := r.workers[i].item;
    NotedKeepsOthers(r, i, error);
    var noted := Noted(r, item.test, error);
    if MayRetry(r, item, noRetry) {
      RetryingAccounts(noted, i, item);
    } else {
      var failed := noted.(errors := r.errors + [error]);
      SameRecords(noted, failed);
      SettleAccounts(failed, i, Failed, item);
    }
  }

  lemma FinishAccounts(r: Run, i: nat, outcome: Outcome)
    requires Conserved(r) && Accounted(r) && i < |r.workers| && r.workers[i].Running?
    requires r.workers[i].item.test < |r.retryErrors|
    ensures Accounted(Finish(r, i, outcome))
  {
    assert WorkerOk(r, r.workers[i]);
    match outcome
    case Skip => SettleAccounts(r, i, Skipped, r.workers[i].item);
    case Pass => SettleAccounts(r, i, Passed, r.workers[i].item);
    case Fail(error, noRetry) => FailAccounts(r, i, error, noRetry);
  }

  lemma StepAttends(r: Run, e: Event)
    requires Attended(r) && Enabled(r, e)
    ensures Attended(Step(r, e))
  {
    var t := Step(r, e);
    if t.queue != [] {
      assert !t.workers[e.worker].Exited?;
    }
  }

  /** Every step of every worker keeps the invariant. */
  lemma StepKeepsInv(r: Run, e: Event)
    requires RunInv(r) && Enabled(r, e)
    ensures RunInv(Step(r, e))
  {
    StepConserves(r, e);
    StepAttends(r, e);
    match e
    case EPull(i) => PullAccounts(r, i);
    case EFinish(i, outcome) => FinishAccounts(r, i, outcome);
    case EPush(i) => PushAccounts(r, i);
  }

  // ---- Whole runs ----

  lemma {:induction false} FreshQueue(tests: nat, from: nat, t: nat)
    requires from <= tests
    ensures InQueue(Prepared(tests, 0, 0).queue[from..], t) == if from <= t < tests then 1 else 0
    decreases tests - from
  {
    var q := Prepared(tests, 0, 0).queue;
    if from < tests {
      FreshQueue(tests, from + 1, t);
      assert q[from..][1..] == q[from + 1..];
    }
  }

  lemma {:induction false} FreshWorkers(g: Worker -> nat, ws: seq<Worker>)
    requires forall i :: 0 <= i < |ws| ==> ws[i] == Looping
    ensures WorkersSum(g, ws) == |ws| * g(Looping)
  {
    if ws != [] {
      FreshWorkers(g, ws[1..]);
    }
  }

  lemma PreparedInv(tests: nat, retries: nat, workers: nat)
    requires tests > 0 ==> workers > 0
    ensures RunInv(Prepared(tests, retries, workers))
  {
    var r := Prepared(tests, retries, workers);
    forall t: nat ensures Places(r, t) == if t < tests then 1 else 0 {
      FreshQueue(tests, 0, t);
      assert r.queue == Prepared(tests, 0, 0).queue[0..];
      FreshWorkers(HoldsTest(t), r.workers);
    }
    if tests > 0 {
      assert !r.workers[0].Exited?;
    }
  }

  lemma {:induction false} ReachesKeepsInv(r: Run, es: seq<Event>, t: Run)
    requires RunInv(r) && Reaches(r, es, t)
    ensures RunInv(t) && t.retries == r.retries && |t.retryErrors| == |r.retryErrors|
    decreases |es|
  {
    if es != [] {
      StepKeepsInv(r, es[0]);
      ReachesKeepsInv(Step(r, es[0]), es[1..], t);
    }
  }

  ghost predicate AllExited(r: Run) {
    forall i :: 0 <= i < |r.workers| ==> r.workers[i].Exited?
  }

  lemma {:induction false} ExitedHoldNothing(ws: seq<Worker>, t: nat)
    requires forall i :: 0 <= i < |ws| ==> ws[i].Exited?
    ensures WithWorkers(ws, t) == 0
  {
    if ws != [] {
      assert ws[0].Exited?;
      ExitedHoldNothing(ws[1..], t);
    }
  }

  /** Completeness: whatever the number of workers and the interleaving, when the last worker has
      left the queue is empty and every test has been settled exactly once. */
  lemma EveryTestSettledOnce(tests: nat, retries: nat, limit: WorkerLimit, es: seq<Event>, t: Run)
    requires Start(tests, retries, limit).Ok? && Reaches(Start(tests, retries, limit).value, es, t)
    requires AllExited(t)
    ensures t.queue == []
    ensures forall test: nat :: Settlements(t.settled, test) == if test < tests then 1 else 0
    ensures |t.errors| == CountFailed(t.settled)
    ensures forall s :: s in t.settled ==> SettledOk(t, s)
  {
    var r := Start(tests, retries, limit).value;
    PreparedInv(tests, retries, |r.workers|);
    ReachesKeepsInv(r, es, t);
    forall test: nat ensures Settlements(t.settled, test) == if test < tests then 1 else 0 {
      ExitedHoldNothing(t.workers, test);
      assert Places(t, test) == if test < tests then 1 else 0;
    }
  }

  /** A worker that has not left can always take a step: it pulls or exits, its attempt ends one way
      or another, or it pushes its retry. */
  lemma NoWorkerIsStuck(r: Run, i: nat, outcome: Outcome)
    requires RunInv(r) && i < |r.workers| && !r.workers[i].Exited?
    ensures Enabled(r, EPull(i)) || Enabled(r, EFinish(i, outcome)) || Enabled(r, EPush(i))
  {
  }

  // ---- Termination ----

  /** Attempts that can still begin, as a budget, and steps that can still be taken. */
  function ItemBudget(retries: nat): Item -> nat {
    (x: Item) => if x.retryCount <= retries then retries + 1 - x.retryCount else 0
  }

  function WorkerBudget(retries: nat): Worker -> nat {
    (w: Worker) => if (w.Running? || w.Retrying?) && w.item.retryCount <= retries
                   then retries - w.item.retryCount else 0
  }

  function Budget(r: Run): nat {
    QueueSum(ItemBudget(r.retries), r.queue) + WorkersSum(WorkerBudget(r.retries), r.workers)
  }

  function StepsOf(w: Worker): nat {
    match w
    case Looping => 1
    case Running(_) => 3
    case Retrying(_) => 2
    case Exited => 0
  }

  function Steps(): Worker -> nat {
    (w: Worker) => StepsOf(w)
  }

  /** Three steps for each attempt that can still begin, and what the workers still have to do. */
  function Work(r: Run): nat {
    3 * Budget(r) + WorkersSum(Steps(), r.workers)
  }

  lemma PullSpends(r: Run, i: nat)
    requires i < |r.workers| && r.workers[i].Looping? && Accounted(r)
    ensures |Pull(r, i).pulled| + Budget(Pull(r, i)) == |r.pulled| + Budget(r)
    ensures r.queue != [] ==> Budget(Pull(r, i)) == Budget(r) - 1
  {
    WorkersUpdate(WorkerBudget(r.retries), r.workers, i, Pull(r, i).workers[i]);
    assert r.queue != [] ==> QueuedOk(r, r.queue[0]);
  }

  lemma FinishSpends(r: Run, i: nat, outcome: Outcome)
    requires i < |r.workers| && r.workers[i].Running? && r.workers[i].item.test < |r.retryErrors|
    ensures Finish(r, i, outcome).pulled == r.pulled && Budget(Finish(r, i, outcome)) <= Budget(r)
  {
    WorkersUpdate(WorkerBudget(r.retries), r.workers, i, Finish(r, i, outcome).workers[i]);
  }

  lemma PushSpends(r: Run, i: nat)
    requires i < |r.workers| && r.workers[i].Retrying? && Accounted(r)
    ensures PushRetry(r, i).pulled == r.pulled && Budget(PushRetry(r, i)) == Budget(r)
  {
    var item := r.workers[i].item;
    assert WorkerOk(r, r.workers[i]);
    WorkersUpdate(WorkerBudget(r.retries), r.workers, i, Looping);
    QueueAppend(ItemBudget(r.retries), r.queue, item.(retryCount := item.retryCount + 1));
  }

  lemma StepSpendsBudget(r: Run, e: Event)
    requires Enabled(r, e) && Accounted(r)
    ensures |Step(r, e).pulled| + Budget(Step(r, e)) <= |r.pulled| + Budget(r)
    ensures Budget(Step(r, e)) <= Budget(r)
    ensures e.EPull? && r.queue != [] ==> Budget(Step(r, e)) == Budget(r) - 1
  {
    match e
    case EPull(i) => PullSpends(r, i);
    case EFinish(i, outcome) => FinishSpends(r, i, outcome);
    case EPush(i) => PushSpends(r, i);
  }

  lemma StepDoesWork(r: Run, e: Event)
    requires Enabled(r, e) && Accounted(r)
    ensures Work(Step(r, e)) < Work(r)
  {
    var i := e.worker;
    WorkersUpdate(Steps(), r.workers, i, Step(r, e).workers[i]);
    StepSpendsBudget(r, e);
  }

  lemma {:induction false} RunsAreBounded(r: Run, es: seq<Event>, t: Run)
    requires RunInv(r) && Reaches(r, es, t)
    ensures |es| + Work(t) <= Work(r)
    ensures |t.pulled| + Budget(t) <= |r.pulled| + Budget(r)
    decreases |es|
  {
    if es != [] {
      StepDoesWork(r, es[0]);
      StepSpendsBudget(r, es[0]);
      StepKeepsInv(r, es[0]);
      RunsAreBounded(Step(r, es[0]), es[1..], t);
    }
  }

  lemma {:induction false} FreshBudget(retries: nat, q: seq<Item>)
    requires forall i :: 0 <= i < |q| ==> q[i].retryCount == 0
    ensures QueueSum(ItemBudget(retries), q) == |q| * (retries + 1)
  {
    if q != [] {
      FreshBudget(retries, q[1..]);
      assert |q| * (retries + 1) == (|q| - 1) * (retries + 1) + (retries + 1);
    }
  }

  /** Termination and accounting: in every interleaving at most tests x (retryCount + 1) attempts are
      begun, and at most three steps are taken for each, besides the exits of the workers. */
  lemma EveryRunEnds(tests: nat, retries: nat, limit: WorkerLimit, es: seq<Event>, t: Run)
    requires Start(tests, retries, limit).Ok? && Reaches(Start(tests, retries, limit).value, es, t)
    ensures |t.pulled| <= tests * (retries + 1)
    ensures |es| <= 3 * (tests * (retries + 1)) + |Start(tests, retries, limit).value.workers|
  {
    var r := Start(tests, retries, limit).value;
    PreparedInv(tests, retries, |r.workers|);
    RunsAreBounded(r, es, t);
    FreshBudget(retries, r.queue);
    FreshWorkers(WorkerBudget(retries), r.workers);
    FreshWorkers(Steps(), r.workers);
  }

  // ---- How many attempts a failed test took ----

  /** The hook forbids to retry a failed attempt at the test although retries are left. */
  predicate ForbidsEarly(r: Run, e: Event, test: nat)
    requires Enabled(r, e)
  {
    e.EFinish? && e.outcome.Fail? && e.outcome.noRetry
    && r.workers[e.worker].item.test == test && r.workers[e.worker].item.retryCount < r.retries
  }

  /** The hook does so at some step of a run. */
  ghost predicate EverForbidden(r: Run, es: seq<Event>, t: Run, test: nat)
    requires Reaches(r, es, t)
    decreases |es|
  {
    es != [] && (ForbidsEarly(r, es[0], test) || EverForbidden(Step(r, es[0]), es[1..], t, test))
  }

  /** The test has failed for good after fewer attempts than configured. */
  ghost predicate GivenUp(r: Run, test: nat) {
    Settlement(test, Failed) in r.settled && |Attempts(r.pulled, test)| <= r.retries
  }

  lemma PullGivesUpNothing(r: Run, i: nat, test: nat)
    requires Conserved(r) && Enabled(r, EPull(i))
    ensures GivenUp(Step(r, EPull(i)), test) <==> GivenUp(r, test)
  {
    if r.queue != [] {
      QueueHeadAlone(r);
      AttemptsAppend(r.pulled, r.queue[0], test);
    }
  }

  lemma FinishGivesUpIff(r: Run, i: nat, outcome: Outcome, test: nat)
    requires Conserved(r) && Accounted(r) && Enabled(r, EFinish(i, outcome))
    ensures GivenUp(Step(r, EFinish(i, outcome)), test)
            <==> GivenUp(r, test) || ForbidsEarly(r, EFinish(i, outcome), test)
  {
    WorkerAlone(r, i);
    assert WorkerOk(r, r.workers[i]);
    match outcome
    case Fail(error, noRetry) => AttemptFails(r, i, error, noRetry);
    case _ => AttemptSucceeds(r, i, outcome);
  }

  lemma StepGivesUpIff(r: Run, e: Event, test: nat)
    requires RunInv(r) && Enabled(r, e)
    ensures GivenUp(Step(r, e), test) <==> GivenUp(r, test) || ForbidsEarly(r, e, test)
  {
    match e
    case EPull(i) => PullGivesUpNothing(r, i, test);
    case EFinish(i, outcome) => FinishGivesUpIff(r, i, outcome, test);
    case EPush(i) =>
  }

  lemma {:induction false} RunGivesUpIff(r: Run, es: seq<Event>, t: Run, test: nat)
    requires RunInv(r) && Reaches(r, es, t)
    ensures GivenUp(t, test) <==> GivenUp(r, test) || EverForbidden(r, es, t, test)
    decreases |es|
  {
    if es != [] {
      StepGivesUpIff(r, es[0], test);
      StepKeepsInv(r, es[0]);
      RunGivesUpIff(Step(r, es[0]), es[1..], t, test);
    }
  }

  /** A test that has failed for good took exactly one attempt more than there are retries, in every
      interleaving, unless the hook forbade a retry that was left; and then it took fewer. */
  lemma FailedAfterAllRetriesIff(tests: nat, retries: nat, limit: WorkerLimit, es: seq<Event>, t: Run, test: nat)
    requires Start(tests, retries, limit).Ok? && Reaches(Start(tests, retries, limit).value, es, t)
    requires Settlement(test, Failed) in t.settled
    ensures |Attempts(t.pulled, test)| == retries + 1
            <==> !EverForbidden(Start(tests, retries, limit).value, es, t, test)
    ensures Attempts(t.pulled, test) == UpTo(|Attempts(t.pulled, test)|)
  {
    var r := Start(tests, retries, limit).value;
    PreparedInv(tests, retries, |r.workers|);
    ReachesKeepsInv(r, es, t);
    RunGivesUpIff(r, es, t, test);
    assert SettledOk(t, Settlement(test, Failed));
    var k: nat :| SettledAfter(t, Settlement(test, Failed), k);
  }

  // ---- One worker without interference ----

  /** `executeWorker` from its shift to its return. */
  function Turn(r: Run, i: nat, outcomes: Item -> Outcome): Run
    requires i < |r.workers| && r.queue != [] && r.queue[0].test < |r.retryErrors|
  {
    var t := Finish(Pull(r, i), i, outcomes(r.queue[0]));
    if t.workers[i].Retrying? then PushRetry(t, i) else t
  }

  /** What each step keeps or lowers. */
  ghost predicate Progress(r: Run, t: Run) {
    && RunInv(t) && t.retries == r.retries && |t.retryErrors| == |r.retryErrors|
    && Budget(t) <= Budget(r) && |t.pulled| + Budget(t) <= |r.pulled| + Budget(r)
  }

  lemma StepProgresses(r: Run, e: Event)
    requires RunInv(r) && Enabled(r, e)
    ensures Progress(r, Step(r, e))
  {
    StepKeepsInv(r, e);
    StepSpendsBudget(r, e);
  }

  lemma AttemptProgresses(s: Run, i: nat, outcome: Outcome)
    requires RunInv(s) && Enabled(s, EFinish(i, outcome))
    ensures var t := Finish(s, i, outcome);
            Progress(s, if t.workers[i].Retrying? then PushRetry(t, i) else t)
  {
    StepProgresses(s, EFinish(i, outcome));
    var t := Finish(s, i, outcome);
    if t.workers[i].Retrying? {
      StepProgresses(t, EPush(i));
    }
  }

  lemma PullProgresses(r: Run, i: nat)
    requires RunInv(r) && i < |r.workers| && r.workers[i].Looping? && r.queue != []
    ensures Progress(r, Pull(r, i)) && Budget(Pull(r, i)) < Budget(r)
    ensures r.queue[0].test < |r.retryErrors|
  {
    QueueHeadAlone(r);
    StepProgresses(r, EPull(i));
    PullSpends(r, i);
  }

  lemma TurnComesBack(r: Run, i: nat, outcomes: Item -> Outcome)
    requires i < |r.workers| && r.workers[i].Looping? && r.queue != [] && r.queue[0].test < |r.retryErrors|
    ensures Turn(r, i, outcomes).workers == r.workers
  {
  }

  lemma TurnKeepsInv(r: Run, i: nat, outcomes: Item -> Outcome)
    requires RunInv(r) && i < |r.workers| && r.workers[i].Looping? && r.queue != []
    ensures r.queue[0].test < |r.retryErrors|
    ensures Progress(r, Turn(r, i, outcomes)) && Budget(Turn(r, i, outcomes)) < Budget(r)
    ensures Turn(r, i, outcomes).workers == r.workers
  {
    PullProgresses(r, i);
    AttemptProgresses(Pull(r, i), i, outcomes(r.queue[0]));
    TurnComesBack(r, i, outcomes);
  }

  // ---- The class ----

  /** One run of the controller. Pull, Finish and PushRetry are the atomic parts of one turn of a
      worker's loop; RunLocalWorker is the loop of the only worker of a local run. */
  class TestRunController {
    const retryCount: nat
    const queue: Queue<Item>
    var workers: seq<Worker>
    var errors: seq<Error>
    var retryErrors: seq<seq<Error>>
    ghost var pulled: seq<Item>
    ghost var settled: seq<Settlement>

    ghost function Abs(): Run
      reads this, queue
    {
      Run(retryCount, queue.items, workers, errors, retryErrors, pulled, settled)
    }

    constructor (tests: nat, retries: nat, limit: nat)
      ensures fresh(queue) && Abs() == Prepared(tests, retries, limit)
    {
      retryCount := retries;
      queue := new Queue<Item>(seq(tests, (i: nat) => Item(i, 0)));
      workers := seq(limit, i => Looping);
      errors := [];
      retryErrors := seq(tests, i => []);
      pulled, settled := [], [];
    }

    method PullTest(i: nat)
      requires i < |workers|
      modifies this`workers, this`pulled, queue
      ensures Abs() == Pull(old(Abs()), i)
    {
      var item := queue.Shift();
      if item.None? {
        workers := workers[i := Exited];
      } else {
        workers := workers[i := Running(item.value)];
        pulled := pulled + [item.value];
      }
    }

    method EndAttempt(i: nat, outcome: Outcome)
      requires i < |workers| && workers[i].Running? && workers[i].item.test < |retryErrors|
      modifies this`workers, this`errors, this`retryErrors, this`settled
      ensures Abs() == Finish(old(Abs()), i, outcome)
    {
      var item := workers[i].item;
      match outcome {
        case Skip =>
          workers := workers[i := Looping];
          settled := settled + [Settlement(item.test, Skipped)];
        case Pass =>
          workers := workers[i := Looping];
          settled := settled + [Settlement(item.test, Passed)];
        case Fail(error, noRetry) =>
          retryErrors := retryErrors[item.test := retryErrors[item.test] + [error]];
          if !noRetry && item.retryCount < retryCount {
            workers := workers[i := Retrying(item)];
          } else {
            errors := errors + [error];
            workers := workers[i := Looping];
            settled := settled + [Settlement(item.test, Failed)];
          }
      }
    }

    method PushRetryOf(i: nat)
      requires i < |workers| && workers[i].Retrying?
      modifies this`workers, queue
      ensures Abs() == PushRetry(old(Abs()), i)
    {
      var item := workers[i].item;
      queue.Push(item.(retryCount := item.retryCount + 1));
      workers := workers[i := Looping];
    }

    /** `executeWorker`, run to its end without interference. */
    method ExecuteWorker(i: nat, outcomes: Item -> Outcome)
      requires i < |workers| && queue.items != [] && queue.items[0].test < |retryErrors|
      modifies this, queue
      ensures Abs() == Turn(old(Abs()), i, outcomes)
    {
      PullTest(i);
      EndAttempt(i, outcomes(workers[i].item));
      if workers[i].Retrying? {
        PushRetryOf(i);
      }
    }

    /** A local run settles every test exactly once, whatever the outcomes of the attempts. */
    method RunLocalWorker(outcomes: Item -> Outcome)
      requires exists tests: nat :: Abs() == Prepared(tests, retryCount, 1)
      modifies this, queue
      ensures queue.items == []
      ensures forall t: nat :: Settlements(settled, t) == if t < old(|retryErrors|) then 1 else 0
      ensures |errors| == CountFailed(settled)
      ensures |pulled| <= old(|retryErrors|) * (retryCount + 1)
    {
      ghost var tests := |retryErrors|;
      PreparedInv(tests, retryCount, 1);
      FreshBudget(retryCount, queue.items);
      FreshWorkers(WorkerBudget(retryCount), workers);
      while |queue.items| > 0
        invariant RunInv(Abs()) && workers == [Looping] && |retryErrors| == tests
        invariant |pulled| + Budget(Abs()) <= tests * (retryCount + 1)
        decreases Budget(Abs())
      {
        TurnKeepsInv(Abs(), 0, outcomes);
        ExecuteWorker(0, outcomes);
      }
      forall t: nat ensures Settlements(settled, t) == if t < tests then 1 else 0 {
        FreshWorkers(HoldsTest(t), workers);
        assert Places(Abs(), t) == if t < tests then 1 else 0;
      }
    }
  }
}
