/** core/logger/src/logger-server.ts: the log queue, its runner, and the retries of failed entries.

    An attempt at an entry is everything between `runQueue` taking it from the queue and the end of its
    hooks; other entries may be logged meanwhile. What the hooks do decides how an attempt ends. */
module LoggerServers {
  import opened Common

  type Entry = nat

  datatype Status = Empty | Running

  /** The entry being attempted and the number of retries that are left. */
  datatype Attempt = Attempt(entry: Entry, retry: nat)

  datatype Settings = Settings(retries: nat, shouldSkip: bool, silent: bool, minLevel: int)

  datatype Logger = Logger(
    queue: seq<Entry>,
    status: Status,
    runner: Option<Attempt>,
    accepted: seq<Entry>,      // history: entries that passed the filters
    delivered: seq<Entry>,     // history: attempts that ended well
    skipped: seq<Entry>,       // history: entries dropped after their last retry
    thrown: seq<Entry>,        // history: entries lost to an error nobody catches
    attempts: nat)

  const START := Logger([], Empty, None, [], [], [], [], 0)

  datatype Event =
    | Log(entry: Entry, level: int)
    | Succeed
    | Fail
    | ErrorHookThrows   // the attempt fails, and so does the onError hook

  predicate Enabled(s: Logger, e: Event) {
    e.Log? || s.runner.Some?
  }

  /** `runQueue` up to its first await. */
  function RunQueue(s: Logger, retry: nat): Logger {
    if s.queue == [] then s.(status := Empty, runner := None)
    else s.(queue := s.queue[1..], status := Running, runner := Some(Attempt(s.queue[0], retry)))
  }

  function LogEntry(c: Settings, s: Logger, entry: Entry, level: int): Logger {
    if c.silent || level < c.minLevel then s
    else
      var t := s.(queue := s.queue + [entry], accepted := s.accepted + [entry]);
      if s.status.Running? then t else RunQueue(t, c.retries)
  }

  function EndFailed(c: Settings, s: Logger): Logger
    requires s.runner.Some?
  {
    var Attempt(entry, retry) := s.runner.value;
    var t := s.(attempts := s.attempts + 1);
    if retry > 0 then RunQueue(t.(queue := t.queue + [entry]), retry - 1)
    else if c.shouldSkip then RunQueue(t.(skipped := t.skipped + [entry]), c.retries)
    else t.(runner := None, thrown := t.thrown + [entry])
  }

  function Step(c: Settings, s: Logger, e: Event): Logger
    requires Enabled(s, e)
  {
    match e
    case Log(entry, level) => LogEntry(c, s, entry, level)
    case Succeed =>
      RunQueue(s.(attempts := s.attempts + 1, delivered := s.delivered + [s.runner.value.entry]), c.retries)
    case Fail => EndFailed(c, s)
    case ErrorHookThrows =>
      s.(attempts := s.attempts + 1, runner := None, thrown := s.thrown + [s.runner.value.entry])
  }

  predicate Legal(c: Settings, s: Logger, es: seq<Event>)
    decreases |es|
  {
    es == [] || (Enabled(s, es[0]) && Legal(c, Step(c, s, es[0]), es[1..]))
  }

  function Run(c: Settings, s: Logger, es: seq<Event>): Logger
    requires Legal(c, s, es)
    decreases |es|
  {
    if es == [] then s else Run(c, Step(c, s, es[0]), es[1..])
  }

  // ---- One runner, no lost entry, a bounded number of attempts ----

  /** No error has been left uncaught. */
  predicate Healthy(s: Logger) {
    s.thrown == []
  }

  /** RUNNING means that a runner is active or that an uncaught error has stopped it; while nothing was
      lost, entries wait only behind a runner. */
  predicate OneRunner(s: Logger) {
    && (s.status.Running? <==> s.runner.Some? || !Healthy(s))
    && (s.runner.Some? ==> Healthy(s))
    && (s.queue != [] ==> s.status.Running?)
  }

  /** How often an entry is waiting, being attempted, or settled. */
  ghost function Times(s: Logger, entry: Entry): nat {
    multiset(s.queue)[entry] + multiset(s.delivered)[entry] + multiset(s.skipped)[entry] + multiset(s.thrown)[entry]
    + if s.runner.Some? && s.runner.value.entry == entry then 1 else 0
  }

  ghost predicate NothingLost(s: Logger) {
    forall entry :: Times(s, entry) == multiset(s.accepted)[entry]
  }

  /** What n entries may cost in attempts. */
  function Cost(c: Settings, n: nat): nat {
    if n == 0 then 0 else Cost(c, n - 1) + c.retries + 1
  }

  lemma {:induction false} CostIsProduct(c: Settings, n: nat)
    ensures Cost(c, n) == n * (c.retries + 1)
  {
    if n > 0 {
      CostIsProduct(c, n - 1);
    }
  }

  function RunnerBudget(runner: Option<Attempt>): nat {
    if runner.Some? then runner.value.retry + 1 else 0
  }

  /** The attempts that the queue and the runner may still cost. */
  function Budget(c: Settings, s: Logger): nat {
    Cost(c, |s.queue|) + RunnerBudget(s.runner)
  }

  predicate WithinBudget(c: Settings, s: Logger) {
    && s.attempts + Budget(c, s) <= Cost(c, |s.accepted|)
    && (s.runner.Some? ==> s.runner.value.retry <= c.retries)
  }

  ghost predicate LoggerInv(c: Settings, s: Logger) {
    OneRunner(s) && NothingLost(s) && WithinBudget(c, s)
  }

  lemma RunQueueCounts(s: Logger, retry: nat, entry: Entry)
    ensures Times(RunQueue(s, retry), entry) == Times(s.(runner := None), entry)
  {
    if s.queue != [] {
      assert s.queue == [s.queue[0]] + s.queue[1..];
    }
  }

  predicate Accepts(c: Settings, e: Event) {
    e.Log? && !c.silent && e.level >= c.minLevel
  }

  lemma LogCounts(c: Settings, s: Logger, added: Entry, level: int, entry: Entry)
    requires OneRunner(s)
    ensures Times(LogEntry(c, s, added, level), entry) ==
            Times(s, entry) + if Accepts(c, Log(added, level)) && added == entry then 1 else 0
  {
    if Accepts(c, Log(added, level)) {
      RunQueueCounts(s.(queue := s.queue + [added], accepted := s.accepted + [added]), c.retries, entry);
    }
  }

  lemma SucceedCounts(c: Settings, s: Logger, entry: Entry)
    requires s.runner.Some?
    ensures Times(Step(c, s, Succeed), entry) == Times(s, entry)
  {
    RunQueueCounts(s.(attempts := s.attempts + 1, delivered := s.delivered + [s.runner.value.entry]), c.retries, entry);
  }

  lemma FailCounts(c: Settings, s: Logger, entry: Entry)
    requires s.runner.Some?
    ensures Times(EndFailed(c, s), entry) == Times(s, entry)
  {
    var Attempt(failed, retry) := s.runner.value;
    var t := s.(attempts := s.attempts + 1);
    if retry > 0 {
      RunQueueCounts(t.(queue := t.queue + [failed]), retry - 1, entry);
    } else if c.shouldSkip {
      RunQueueCounts(t.(skipped := t.skipped + [failed]), c.retries, entry);
    }
  }

  /** An event adds to the count of an entry exactly when it accepts it. */
  lemma StepCounts(c: Settings, s: Logger, e: Event, entry: Entry)
    requires Enabled(s, e) && OneRunner(s)
    ensures Times(Step(c, s, e), entry) == Times(s, entry) + if Accepts(c, e) && e.entry == entry then 1 else 0
  {
    match e
    case Log(added, level) => LogCounts(c, s, added, level, entry);
    case Succeed => SucceedCounts(c, s, entry);
    case Fail => FailCounts(c, s, entry);
    case ErrorHookThrows =>
  }

  lemma StepAccepts(c: Settings, s: Logger, e: Event)
    requires Enabled(s, e)
    ensures Step(c, s, e).accepted == if Accepts(c, e) then s.accepted + [e.entry] else s.accepted
  {
  }

  lemma StepKeepsNothingLost(c: Settings, s: Logger, e: Event)
    requires Enabled(s, e) && OneRunner(s) && NothingLost(s)
    ensures NothingLost(Step(c, s, e))
  {
    StepAccepts(c, s, e);
    forall entry ensures Times(Step(c, s, e), entry) == multiset(Step(c, s, e).accepted)[entry] {
      StepCounts(c, s, e, entry);
      assert Times(s, entry) == multiset(s.accepted)[entry];
    }
  }

  lemma StepKeepsOneRunner(c: Settings, s: Logger, e: Event)
    requires Enabled(s, e) && OneRunner(s)
    ensures OneRunner(Step(c, s, e))
  {
  }

  lemma LogBudget(c: Settings, s: Logger, added: Entry, level: int)
    requires OneRunner(s) && WithinBudget(c, s)
    ensures WithinBudget(c, LogEntry(c, s, added, level))
  {
  }

  lemma SucceedBudget(c: Settings, s: Logger)
    requires s.runner.Some? && WithinBudget(c, s)
    ensures WithinBudget(c, Step(c, s, Succeed)) && Budget(c, Step(c, s, Succeed)) < Budget(c, s)
  {
  }

  lemma FailBudget(c: Settings, s: Logger)
    requires s.runner.Some? && WithinBudget(c, s)
    ensures WithinBudget(c, EndFailed(c, s)) && Budget(c, EndFailed(c, s)) < Budget(c, s)
  {
  }

  /** Every attempt lowers the budget. */
  lemma StepKeepsWithinBudget(c: Settings, s: Logger, e: Event)
    requires Enabled(s, e) && OneRunner(s) && WithinBudget(c, s)
    ensures WithinBudget(c, Step(c, s, e))
    ensures !e.Log? ==> Budget(c, Step(c, s, e)) < Budget(c, s)
  {
    match e
    case Log(added, level) => LogBudget(c, s, added, level);
    case Succeed => SucceedBudget(c, s);
    case Fail => FailBudget(c, s);
    case ErrorHookThrows =>
  }

  lemma {:induction false} RunKeepsInv(c: Settings, s: Logger, es: seq<Event>)
    requires LoggerInv(c, s) && Legal(c, s, es)
    ensures LoggerInv(c, Run(c, s, es))
    decreases |es|
  {
    if es != [] {
      StepKeepsOneRunner(c, s, es[0]);
      StepKeepsNothingLost(c, s, es[0]);
      StepKeepsWithinBudget(c, s, es[0]);
      RunKeepsInv(c, Step(c, s, es[0]), es[1..]);
    }
  }

  /** How many events of a run end an attempt. */
  function Endings(es: seq<Event>): nat
    decreases |es|
  {
    if es == [] then 0 else Endings(es[1..]) + if es[0].Log? then 0 else 1
  }

  lemma {:induction false} AttemptsAreCounted(c: Settings, s: Logger, es: seq<Event>)
    requires Legal(c, s, es)
    ensures Run(c, s, es).attempts == s.attempts + Endings(es)
    decreases |es|
  {
    if es != [] {
      AttemptsAreCounted(c, Step(c, s, es[0]), es[1..]);
    }
  }

  /** In every run: every accepted entry is waiting, being attempted, or settled, as often as it was
      accepted; and n accepted entries take at most n * (retries + 1) attempts. */
  lemma EntriesConserved(c: Settings, es: seq<Event>, entry: Entry)
    requires Legal(c, START, es)
    ensures Times(Run(c, START, es), entry) == multiset(Run(c, START, es).accepted)[entry]
    ensures Run(c, START, es).attempts == Endings(es) <= |Run(c, START, es).accepted| * (c.retries + 1)
    ensures OneRunner(Run(c, START, es))
  {
    RunKeepsInv(c, START, es);
    AttemptsAreCounted(c, START, es);
    CostIsProduct(c, |Run(c, START, es).accepted|);
  }

  /** The events stop the log: an error hook throws, or, unless entries are skipped, one attempt more
      than there are retries fails without a success in between. `failed` counts the failures so far. */
  predicate StopsLog(c: Settings, es: seq<Event>, failed: nat)
    decreases |es|
  {
    es != [] &&
    match es[0]
    case Log(_, _) => StopsLog(c, es[1..], failed)
    case Succeed => StopsLog(c, es[1..], 0)
    case Fail => (!c.shouldSkip && failed >= c.retries) || StopsLog(c, es[1..], failed + 1)
    case ErrorHookThrows => true
  }

  /** The retries that are left are those that have not been used up since the last success. */
  predicate FailedInARow(c: Settings, s: Logger, failed: nat) {
    !c.shouldSkip ==> if s.runner.Some? then s.runner.value.retry == c.retries - failed else failed == 0
  }

  /** One event that leaves the logger RUNNING without a runner: every attempt whose error hook throws,
      and a failed one exactly when no retry is left and entries are not skipped. */
  lemma StepStopsIff(c: Settings, s: Logger, e: Event)
    requires OneRunner(s) && s.runner.Some? && Enabled(s, e)
    ensures Step(c, s, e).runner.None? && Step(c, s, e).status.Running?
            <==> e == ErrorHookThrows || (e == Fail && s.runner.value.retry == 0 && !c.shouldSkip)
    ensures !Healthy(Step(c, s, e)) <==> Step(c, s, e).runner.None? && Step(c, s, e).status.Running?
  {
  }

  lemma FailedInARowStep(c: Settings, s: Logger, e: Event, failed: nat)
    requires OneRunner(s) && Healthy(s) && FailedInARow(c, s, failed) && Enabled(s, e) && Healthy(Step(c, s, e))
    ensures FailedInARow(c, Step(c, s, e), match e
                                           case Log(_, _) => failed
                                           case Succeed => 0
                                           case Fail => failed + 1
                                           case ErrorHookThrows => 0)
  {
  }

  lemma {:induction false} UnhealthyStays(c: Settings, s: Logger, es: seq<Event>)
    requires OneRunner(s) && !Healthy(s) && Legal(c, s, es)
    ensures !Healthy(Run(c, s, es))
    decreases |es|
  {
    if es != [] {
      StepKeepsOneRunner(c, s, es[0]);
      UnhealthyStays(c, Step(c, s, es[0]), es[1..]);
    }
  }

  lemma {:induction false} HealthyIff(c: Settings, s: Logger, es: seq<Event>, failed: nat)
    requires OneRunner(s) && Healthy(s) && FailedInARow(c, s, failed) && Legal(c, s, es)
    ensures Healthy(Run(c, s, es)) <==> !StopsLog(c, es, failed)
    decreases |es|
  {
    if es != [] {
      var e, t := es[0], Step(c, s, es[0]);
      StepKeepsOneRunner(c, s, e);
      if Healthy(t) {
        FailedInARowStep(c, s, e, failed);
        HealthyIff(c, t, es[1..], match e
                                  case Log(_, _) => failed
                                  case Succeed => 0
                                  case Fail => failed + 1
                                  case ErrorHookThrows => 0);
      } else {
        UnhealthyStays(c, t, es[1..]);
      }
    }
  }

  /** RUNNING means exactly that a runner is active if and only if the events have not stopped the log;
      and then entries wait only behind a runner. */
  lemma RunningIffRunner(c: Settings, es: seq<Event>)
    requires Legal(c, START, es)
    ensures (Run(c, START, es).status.Running? <==> Run(c, START, es).runner.Some?) <==> !StopsLog(c, es, 0)
    ensures Run(c, START, es).runner.None? && !StopsLog(c, es, 0) ==> Run(c, START, es).queue == []
  {
    RunKeepsInv(c, START, es);
    HealthyIff(c, START, es, 0);
  }

  /** With `shouldSkip` only a throwing error hook stops the log. */
  lemma {:induction false} SkippingStopsIff(c: Settings, es: seq<Event>, failed: nat)
    requires c.shouldSkip
    ensures StopsLog(c, es, failed) <==> ErrorHookThrows in es
    decreases |es|
  {
    if es != [] {
      assert es[0] in es && forall e :: e in es[1..] ==> e in es;
      assert forall e :: e in es ==> e == es[0] || e in es[1..];
      SkippingStopsIff(c, es[1..], if es[0].Succeed? then 0 else if es[0].Fail? then failed + 1 else failed);
    }
  }

  predicate NoLogs(es: seq<Event>) {
    forall i :: 0 <= i < |es| ==> !es[i].Log?
  }

  /** Without new entries the runner stops within the budget, and when it does nothing is left, if and
      only if no error was left uncaught. */
  lemma {:induction false} QueueDrains(c: Settings, s: Logger, es: seq<Event>)
    requires LoggerInv(c, s) && Legal(c, s, es) && NoLogs(es)
    ensures |es| <= Budget(c, s)
    ensures Run(c, s, es).runner.None? ==>
              (Run(c, s, es).queue == [] && Run(c, s, es).status.Empty? <==> Healthy(Run(c, s, es)))
    decreases |es|
  {
    if es != [] {
      StepKeepsOneRunner(c, s, es[0]);
      StepKeepsNothingLost(c, s, es[0]);
      StepKeepsWithinBudget(c, s, es[0]);
      QueueDrains(c, Step(c, s, es[0]), es[1..]);
    }
  }

  // ---- Every entry starts with all retries ----

  /** The failures since the last success, beginning again with the failure that uses up the retries. */
  function Streak(c: Settings, es: seq<Event>, failed: nat): nat
    decreases |es|
  {
    if es == [] then failed
    else
      match es[0]
      case Log(_, _) => Streak(c, es[1..], failed)
      case Succeed => Streak(c, es[1..], 0)
      case Fail => Streak(c, es[1..], if failed < c.retries then failed + 1 else 0)
      case ErrorHookThrows => Streak(c, es[1..], 0)
  }

  /** The running attempt may be repeated as often as retries are configured, less the failures. */
  predicate RetriesMatch(c: Settings, s: Logger, failed: nat) {
    if s.runner.Some? then failed <= c.retries && s.runner.value.retry == c.retries - failed
    else failed == 0
  }

  lemma RetriesMatchStep(c: Settings, s: Logger, e: Event, failed: nat)
    requires OneRunner(s) && RetriesMatch(c, s, failed) && Enabled(s, e) && Healthy(Step(c, s, e))
    ensures RetriesMatch(c, Step(c, s, e), Streak(c, [e], failed))
  {
    assert [e][1..] == [];
  }

  lemma StreakStep(c: Settings, es: seq<Event>, failed: nat)
    requires es != []
    ensures Streak(c, es, failed) == Streak(c, es[1..], Streak(c, [es[0]], failed))
  {
    assert [es[0]][1..] == [];
  }

  lemma {:induction false} RetriesMatchRun(c: Settings, s: Logger, es: seq<Event>, failed: nat)
    requires OneRunner(s) && RetriesMatch(c, s, failed) && Legal(c, s, es) && Healthy(Run(c, s, es))
    ensures RetriesMatch(c, Run(c, s, es), Streak(c, es, failed))
    decreases |es|
  {
    if es != [] {
      var t := Step(c, s, es[0]);
      StepKeepsOneRunner(c, s, es[0]);
      if !Healthy(t) {
        UnhealthyStays(c, t, es[1..]);
      }
      RetriesMatchStep(c, s, es[0], failed);
      StreakStep(c, es, failed);
      RetriesMatchRun(c, t, es[1..], Streak(c, [es[0]], failed));
    }
  }

  /** In every run that no error has stopped, the attempt that is running has as many retries left as
      are configured, less the failures since the last success or skip. A further failure is retried
      while there are any, and else the entry is skipped or the log stops. */
  lemma RetriesLeft(c: Settings, es: seq<Event>)
    requires Legal(c, START, es) && Healthy(Run(c, START, es)) && Run(c, START, es).runner.Some?
    ensures var s, failed := Run(c, START, es), Streak(c, es, 0);
            && s.runner.value.retry == c.retries - failed
            && (Step(c, s, Fail).skipped == s.skipped + [s.runner.value.entry] <==> failed == c.retries && c.shouldSkip)
            && (Step(c, s, Fail).thrown == [s.runner.value.entry] <==> failed == c.retries && !c.shouldSkip)
  {
    RetriesMatchRun(c, START, es, 0);
    var s := Run(c, START, es);
    assert |s.skipped + [s.runner.value.entry]| != |s.skipped|;
  }

  // ---- Without failures the log keeps its order ----

  predicate NoFailures(es: seq<Event>) {
    forall e :: e in es ==> e.Log? || e.Succeed?
  }

  /** What was delivered, what is being attempted, and what waits. */
  function Line(s: Logger): seq<Entry> {
    s.delivered + (if s.runner.Some? then [s.runner.value.entry] else []) + s.queue
  }

  lemma RunQueueLine(s: Logger, retry: nat)
    ensures Line(RunQueue(s, retry)) == s.delivered + s.queue
  {
  }

  lemma LogLine(c: Settings, s: Logger, entry: Entry, level: int)
    requires OneRunner(s) && Healthy(s)
    ensures Line(LogEntry(c, s, entry, level)) ==
            if Accepts(c, Log(entry, level)) then Line(s) + [entry] else Line(s)
  {
    if Accepts(c, Log(entry, level)) && !s.status.Running? {
      RunQueueLine(s.(queue := s.queue + [entry], accepted := s.accepted + [entry]), c.retries);
    }
  }

  lemma StepLine(c: Settings, s: Logger, e: Event)
    requires OneRunner(s) && Healthy(s) && Enabled(s, e) && (e.Log? || e.Succeed?)
    ensures Line(Step(c, s, e)) == if Accepts(c, e) then Line(s) + [e.entry] else Line(s)
  {
    match e
    case Log(entry, level) => LogLine(c, s, entry, level);
    case Succeed =>
      RunQueueLine(s.(attempts := s.attempts + 1, delivered := s.delivered + [s.runner.value.entry]), c.retries);
  }

  lemma {:induction false} LineGrows(c: Settings, s: Logger, es: seq<Event>)
    requires OneRunner(s) && Healthy(s) && Legal(c, s, es) && NoFailures(es) && Line(s) == s.accepted
    ensures Line(Run(c, s, es)) == Run(c, s, es).accepted
    decreases |es|
  {
    if es != [] {
      assert es[0] in es && forall e :: e in es[1..] ==> e in es;
      StepKeepsOneRunner(c, s, es[0]);
      StepLine(c, s, es[0]);
      StepAccepts(c, s, es[0]);
      LineGrows(c, Step(c, s, es[0]), es[1..]);
    }
  }

  /** In every run without failures entries are delivered in the order in which they were accepted. */
  lemma DeliveryIsFifo(c: Settings, es: seq<Event>)
    requires Legal(c, START, es) && NoFailures(es)
    ensures Line(Run(c, START, es)) == Run(c, START, es).accepted
    ensures Run(c, START, es).delivered <= Run(c, START, es).accepted
  {
    LineGrows(c, START, es);
  }

  // ---- What retries do not guarantee ----

  /** The retry that follows a failure is spent on the failed entry itself exactly when no other entry
      waits in front of it. */
  lemma RetryIsOwnIff(c: Settings, s: Logger)
    requires s.runner.Some? && s.runner.value.retry > 0
    ensures Step(c, s, Fail).runner == Some(Attempt(s.runner.value.entry, s.runner.value.retry - 1))
            <==> s.queue == [] || s.queue[0] == s.runner.value.entry
  {
  }

  /** So an entry can be skipped after a single attempt although one retry is configured. */
  lemma RetryOfAnotherEntry(a: Entry, b: Entry)
    requires a != b
    ensures var c, es := Settings(1, true, false, 0), [Log(a, 0), Log(b, 0), Fail, Fail];
            Legal(c, START, es) && Run(c, START, es).skipped == [b] && Run(c, START, es).queue == []
            && Run(c, START, es).runner == Some(Attempt(a, 1))
  {
    var c := Settings(1, true, false, 0);
    var s1 := Step(c, START, Log(a, 0));
    assert s1.runner == Some(Attempt(a, 1)) && s1.queue == [];
    var s2 := Step(c, s1, Log(b, 0));
    assert s2.queue == [b];
    var s3 := Step(c, s2, Fail);
    assert s3.runner == Some(Attempt(b, 0)) && s3.queue == [a];
    var s4 := Step(c, s3, Fail);
    RunNext(c, s4, Fail, []);
    RunNext(c, s3, Fail, []);
    RunNext(c, s2, Fail, [Fail]);
    RunNext(c, s1, Log(b, 0), [Fail, Fail]);
    RunNext(c, START, Log(a, 0), [Log(b, 0), Fail, Fail]);
  }

  lemma RunNext(c: Settings, s: Logger, e: Event, es: seq<Event>)
    requires Enabled(s, e) && Legal(c, Step(c, s, e), es)
    ensures Legal(c, s, [e] + es) && Run(c, s, [e] + es) == Run(c, Step(c, s, e), es)
  {
  }

  /** After that no entry is ever attempted again, however many are logged. */
  lemma {:induction false} StoppedForEver(c: Settings, s: Logger, es: seq<Event>)
    requires s.runner.None? && s.status.Running? && Legal(c, s, es)
    ensures Run(c, s, es).runner.None? && Run(c, s, es).attempts == s.attempts
    ensures Run(c, s, es).delivered == s.delivered && s.queue <= Run(c, s, es).queue
    decreases |es|
  {
    if es != [] {
      StoppedForEver(c, Step(c, s, es[0]), es[1..]);
    }
  }

  /** One failing entry, no retries and no skipping: the next entry is never attempted. */
  lemma OneFailureStops(a: Entry, b: Entry)
    ensures var c, es := Settings(0, false, false, 0), [Log(a, 0), Fail, Log(b, 0)];
            Legal(c, START, es) && Run(c, START, es).status.Running? && Run(c, START, es).runner.None?
            && Run(c, START, es).queue == [b]
  {
    var c := Settings(0, false, false, 0);
    var s1 := Step(c, START, Log(a, 0));
    assert s1.runner == Some(Attempt(a, 0)) && s1.queue == [];
    var s2 := Step(c, s1, Fail);
    RunNext(c, s2, Log(b, 0), []);
    RunNext(c, s1, Fail, [Log(b, 0)]);
    RunNext(c, START, Log(a, 0), [Fail, Log(b, 0)]);
  }

  // ---- The class ----

  class LoggerServer {
    const settings: Settings
    var queue: seq<Entry>
    var status: Status
    ghost var runner: Option<Attempt>
    ghost var accepted: seq<Entry>
    ghost var delivered: seq<Entry>
    ghost var skipped: seq<Entry>
    ghost var thrown: seq<Entry>
    ghost var attempts: nat

    ghost function Abs(): Logger
      reads this
    {
      Logger(queue, status, runner, accepted, delivered, skipped, thrown, attempts)
    }

    constructor (settings: Settings)
      ensures this.settings == settings && Abs() == START
    {
      this.settings := settings;
      queue, status, runner, attempts := [], Empty, None, 0;
      accepted, delivered, skipped, thrown := [], [], [], [];
    }

    /** Takes the next entry; the attempt at it goes on in `EndAttempt`. */
    method TakeNext(retry: nat) returns (taken: Option<Entry>)
      modifies this
      ensures Abs() == RunQueue(old(Abs()), retry)
      ensures taken == if old(queue) == [] then None else Some(old(queue)[0])
    {
      if queue == [] {
        status := Empty;
        runner := None;
        return None;
      }
      taken := Some(queue[0]);
      queue := queue[1..];
      status := Running;
      runner := Some(Attempt(taken.value, retry));
    }

    method Log(entry: Entry, level: int) returns (taken: Option<Entry>)
      modifies this
      ensures Abs() == Step(settings, old(Abs()), Event.Log(entry, level))
      ensures taken.Some? <==> old(status) == Empty && !settings.silent && level >= settings.minLevel
      ensures taken.Some? ==> runner == Some(Attempt(taken.value, settings.retries))
    {
      taken := None;
      if settings.silent || level < settings.minLevel {
        return;
      }
      var shouldRun := status != Running;
      queue := queue + [entry];
      accepted := accepted + [entry];
      if shouldRun {
        taken := TakeNext(settings.retries);
      }
    }

    /** The end of the attempt at `entry`: it ended well, or a hook or the output failed and the error
        hook returned, or the error hook threw too. */
    method EndAttempt(entry: Entry, retry: nat, ending: Event) returns (taken: Option<Entry>)
      requires runner == Some(Attempt(entry, retry)) && !ending.Log?
      modifies this
      ensures Abs() == Step(settings, old(Abs()), ending)
      ensures if taken.Some? then runner.Some? && runner.value.entry == taken.value else runner.None?
    {
      attempts := attempts + 1;
      taken := None;
      if ending == ErrorHookThrows {
        thrown := thrown + [entry];
        runner := None;
      } else if ending == Succeed {
        delivered := delivered + [entry];
        taken := TakeNext(settings.retries);
      } else if retry > 0 {
        queue := queue + [entry];
        taken := TakeNext(retry - 1);
      } else if settings.shouldSkip {
        skipped := skipped + [entry];
        taken := TakeNext(settings.retries);
      } else {
        thrown := thrown + [entry];
        runner := None;
      }
    }
  }
}
