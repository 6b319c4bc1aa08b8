/** packages/browser-proxy/src/browser-proxy-controller.ts: which worker executes the commands of an
    applicant. A worker is named by its place in the pool. */
module BrowserProxyControllers {
  type Applicant = string

  /** `workerLimit` after `init`. NotANumber is what `Number` makes of a word; no size is below it. */
  datatype Limit = Local | Workers(count: int) | NotANumber

  /** The configured `workerLimit`: missing or empty, the word `local`, a number, or another word with
      the number it spells, if any. */
  datatype Setting = Unset | LocalWord | Numeric(n: int) | Word(spelled: Spelled)

  datatype Spelled = Number(n: int) | NoNumber

  /** `init`: a setting that is not truthy leaves the limit at 1, and 0 is not. */
  function InitialLimit(setting: Setting): Limit {
    match setting
    case Unset => Workers(1)
    case LocalWord => Local
    case Numeric(n) => if n == 0 then Workers(1) else Workers(n)
    case Word(Number(n)) => Workers(n)
    case Word(NoNumber) => NotANumber
  }

  predicate Below(size: nat, limit: Limit) {
    limit.Workers? && size < limit.count
  }

  /** `history` lists the workers of all fresh assignments, oldest first. */
  datatype Dispatch = Dispatch(size: nat, assignments: map<Applicant, nat>, lastWorkerIndex: int, history: seq<nat>)

  const INITIAL := Dispatch(0, map[], -1, [])

  datatype Answer = LocalWorker | Worker(index: nat) | Nothing | Failure

  datatype Event = Command(applicant: Applicant) | End(applicant: Applicant)

  /** `getWorker`. */
  function GetWorker(limit: Limit, s: Dispatch, applicant: Applicant): (Dispatch, Answer) {
    if limit.Local? then (s, LocalWorker)
    else if applicant in s.assignments then (s, Worker(s.assignments[applicant]))
    else
      var size := if Below(s.size, limit) then s.size + 1 else s.size;
      var last :=
        if Below(s.size, limit) then s.size
        else if s.lastWorkerIndex + 1 < s.size then s.lastWorkerIndex + 1 else 0;
      if 0 <= last < size then
        (Dispatch(size, s.assignments[applicant := last], last, s.history + [last]), Worker(last))
      else (s.(lastWorkerIndex := last), Failure)
  }

  function Step(limit: Limit, s: Dispatch, e: Event): (Dispatch, Answer) {
    match e
    case Command(applicant) => GetWorker(limit, s, applicant)
    case End(applicant) =>
      if limit.Local? then (s, LocalWorker)
      else if applicant in s.assignments then
        (s.(assignments := s.assignments - {applicant}), Worker(s.assignments[applicant]))
      else (s, Nothing)
  }

  function Run(limit: Limit, s: Dispatch, es: seq<Event>): Dispatch {
    if es == [] then s else Step(limit, Run(limit, s, es[..|es| - 1]), es[|es| - 1]).0
  }

  // ---- Round robin ----

  /** The k-th fresh assignment went to worker k mod n, and the state is where this leaves it. */
  ghost predicate RoundRobin(n: nat, s: Dispatch)
    requires n > 0
  {
    && (forall k :: 0 <= k < |s.history| ==> s.history[k] == k % n)
    && s.size == (if |s.history| < n then |s.history| else n)
    && s.lastWorkerIndex == (if s.history == [] then -1 else (|s.history| - 1) % n)
    && (forall a :: a in s.assignments ==> s.assignments[a] < s.size)
  }

  lemma NextMod(k: nat, n: nat)
    requires n > 0
    ensures (k + 1) % n == (if k % n + 1 < n then k % n + 1 else 0)
    ensures (k + 1) / n == (if k % n + 1 < n then k / n else k / n + 1)
  {
    var q, r := k / n, k % n;
    assert k == q * n + r;
    if r + 1 < n {
      DivModUnique(k + 1, n, q, r + 1);
    } else {
      assert k + 1 == (q + 1) * n;
      DivModUnique(k + 1, n, q + 1, 0);
    }
  }

  lemma DivModUnique(k: nat, n: nat, q: nat, r: nat)
    requires n > 0 && r < n && k == q * n + r
    ensures k / n == q && k % n == r
  {
    var d := k / n - q;
    assert d > 0 ==> d * n >= n;
    assert d < 0 ==> d * n <= 0 - n;
    assert d * n == r - k % n;
  }

  lemma GetWorkerRoundRobin(n: nat, s: Dispatch, applicant: Applicant)
    requires n > 0 && RoundRobin(n, s)
    ensures RoundRobin(n, GetWorker(Workers(n), s, applicant).0)
    ensures GetWorker(Workers(n), s, applicant).1.Worker?
    ensures applicant !in s.assignments ==> GetWorker(Workers(n), s, applicant).1 == Worker(|s.history| % n)
  {
    var k := |s.history|;
    if applicant !in s.assignments {
      if k < n {
        DivModUnique(k, n, 0, k);
      } else {
        NextMod(k - 1, n);
      }
    }
  }

  lemma {:induction false} RunRoundRobin(n: nat, es: seq<Event>)
    requires n > 0
    ensures RoundRobin(n, Run(Workers(n), INITIAL, es))
  {
    if es != [] {
      var s := Run(Workers(n), INITIAL, es[..|es| - 1]);
      RunRoundRobin(n, es[..|es| - 1]);
      match es[|es| - 1]
      case Command(applicant) => GetWorkerRoundRobin(n, s, applicant);
      case End(_) =>
    }
  }

  // ---- Fairness ----

  function Count(s: seq<nat>, worker: nat): nat {
    if s == [] then 0 else Count(s[..|s| - 1], worker) + (if s[|s| - 1] == worker then 1 else 0)
  }

  lemma {:induction false} RoundRobinCount(n: nat, s: seq<nat>, worker: nat)
    requires n > 0 && worker < n && forall k :: 0 <= k < |s| ==> s[k] == k % n
    ensures Count(s, worker) == |s| / n + if worker < |s| % n then 1 else 0
  {
    if s == [] {
      DivModUnique(0, n, 0, 0);
    } else {
      RoundRobinCount(n, s[..|s| - 1], worker);
      NextMod(|s| - 1, n);
    }
  }

  /** In every run with a positive limit, no worker has got more than one fresh assignment more than
      another one, and there are never more workers than the limit. */
  lemma AssignmentsAreFair(n: nat, es: seq<Event>, a: nat, b: nat)
    requires a < n && b < n
    ensures var s := Run(Workers(n), INITIAL, es);
            s.size <= n && Count(s.history, a) <= Count(s.history, b) + 1
  {
    var s := Run(Workers(n), INITIAL, es);
    RunRoundRobin(n, es);
    RoundRobinCount(n, s.history, a);
    RoundRobinCount(n, s.history, b);
  }

  // ---- Stickiness ----

  lemma StepIsSticky(limit: Limit, s: Dispatch, e: Event, applicant: Applicant)
    requires applicant in s.assignments && e != End(applicant)
    ensures applicant in Step(limit, s, e).0.assignments
    ensures Step(limit, s, e).0.assignments[applicant] == s.assignments[applicant]
  {
  }

  /** An applicant keeps its worker until it ends. */
  lemma {:induction false} WorkerIsSticky(limit: Limit, s: Dispatch, es: seq<Event>, applicant: Applicant)
    requires applicant in s.assignments && End(applicant) !in es
    ensures applicant in Run(limit, s, es).assignments
    ensures Run(limit, s, es).assignments[applicant] == s.assignments[applicant]
  {
    if es != [] {
      var n := |es| - 1;
      assert forall e :: e in es[..n] ==> e in es;
      WorkerIsSticky(limit, s, es[..n], applicant);
      assert es[n] in es;
      StepIsSticky(limit, Run(limit, s, es[..n]), es[n], applicant);
    }
  }

  /** A command of an applicant that got worker w and has not ended since is executed by w. */
  lemma CommandsStayTogether(n: nat, es: seq<Event>, more: seq<Event>, applicant: Applicant)
    requires n > 0 && End(applicant) !in more
    ensures var (s, first) := Step(Workers(n), Run(Workers(n), INITIAL, es), Command(applicant));
            first.Worker? && Step(Workers(n), Run(Workers(n), s, more), Command(applicant)).1 == first
  {
    RunRoundRobin(n, es);
    var s := Run(Workers(n), INITIAL, es);
    GetWorkerRoundRobin(n, s, applicant);
    WorkerIsSticky(Workers(n), Step(Workers(n), s, Command(applicant)).0, more, applicant);
  }

  /** The end of an applicant goes to its worker and is the only thing that forgets the assignment; an
      applicant without a worker is answered at once. Nothing else changes. */
  lemma EndForgets(limit: Limit, s: Dispatch, applicant: Applicant)
    requires !limit.Local?
    ensures var (t, answer) := Step(limit, s, End(applicant));
            && (applicant in s.assignments ==> answer == Worker(s.assignments[applicant]))
            && (applicant !in s.assignments ==> answer == Nothing)
            && t.assignments.Keys == s.assignments.Keys - {applicant}
            && (forall a :: a in t.assignments ==> t.assignments[a] == s.assignments[a])
            && t == s.(assignments := t.assignments)
  {
  }

  /** A local controller gives every command and every end to the local worker, and changes nothing. */
  lemma LocalAnswers(s: Dispatch, e: Event)
    ensures Step(Local, s, e) == (s, LocalWorker)
  {
  }

  /** After an applicant has ended, its next command is a fresh assignment: the next worker in turn. */
  lemma EndedApplicantMovesOn(n: nat, es: seq<Event>, applicant: Applicant)
    requires n > 0
    ensures var s := Step(Workers(n), Run(Workers(n), INITIAL, es), End(applicant)).0;
            Step(Workers(n), s, Command(applicant)).1 == Worker(|s.history| % n)
  {
    RunRoundRobin(n, es);
    var s := Run(Workers(n), INITIAL, es);
    EndForgets(Workers(n), s, applicant);
    GetWorkerRoundRobin(n, Step(Workers(n), s, End(applicant)).0, applicant);
  }

  // ---- What the configured limit means ----

  /** The word `local` means the local worker, a missing or empty setting and the number 0 mean one
      worker, and every other positive number means as many workers, which take turns. */
  lemma FirstCommandAnswer(setting: Setting, es: seq<Event>, applicant: Applicant)
    requires applicant !in Run(InitialLimit(setting), INITIAL, es).assignments
    ensures var limit := InitialLimit(setting);
            var s := Run(limit, INITIAL, es);
            var answer := Step(limit, s, Command(applicant)).1;
            && (answer == LocalWorker <==> setting == LocalWord)
            && (setting in {Unset, Numeric(0)} ==> answer == Worker(0))
            && (forall n :: n > 0 && setting in {Numeric(n), Word(Number(n))} ==> answer == Worker(|s.history| % n))
  {
    var limit := InitialLimit(setting);
    if limit.Workers? && limit.count > 0 {
      RunRoundRobin(limit.count, es);
      GetWorkerRoundRobin(limit.count, Run(limit, INITIAL, es), applicant);
    }
  }

  // ---- Limits that are not positive ----

  predicate NoRoom(limit: Limit) {
    !limit.Local? && !Below(0, limit)
  }

  lemma {:induction false} NoWorkerWithoutLimit(limit: Limit, es: seq<Event>)
    requires NoRoom(limit)
    ensures Run(limit, INITIAL, es).size == 0 && Run(limit, INITIAL, es).assignments == map[]
    ensures Run(limit, INITIAL, es).history == []
    ensures -1 <= Run(limit, INITIAL, es).lastWorkerIndex <= 0
  {
    if es != [] {
      NoWorkerWithoutLimit(limit, es[..|es| - 1]);
    }
  }

  /** A command without a worker assigns nothing; only the round-robin index is set to 0. */
  lemma FailingCommand(limit: Limit, es: seq<Event>, applicant: Applicant)
    requires NoRoom(limit)
    ensures Step(limit, Run(limit, INITIAL, es), Command(applicant)) == (INITIAL.(lastWorkerIndex := 0), Failure)
  {
    NoWorkerWithoutLimit(limit, es);
  }

  /** After any run, a command finds no worker exactly when the configured limit is a negative number,
      or a word that spells no positive number; a limit of 0 works like 1. */
  lemma CommandFailsIff(setting: Setting, es: seq<Event>, applicant: Applicant)
    ensures Step(InitialLimit(setting), Run(InitialLimit(setting), INITIAL, es), Command(applicant)).1 == Failure
            <==> match setting
                 case Numeric(n) => n < 0
                 case Word(Number(n)) => n <= 0
                 case Word(NoNumber) => true
                 case _ => false
  {
    var limit := InitialLimit(setting);
    if NoRoom(limit) {
      NoWorkerWithoutLimit(limit, es);
    } else if limit.Workers? {
      RunRoundRobin(limit.count, es);
      GetWorkerRoundRobin(limit.count, Run(limit, INITIAL, es), applicant);
    }
  }

  // ---- The class ----

  class BrowserProxyController {
    const workerLimit: Limit
    var workersPool: nat
    var applicantWorkerMap: map<Applicant, nat>
    var lastWorkerIndex: int
    ghost var history: seq<nat>

    ghost function Abs(): Dispatch
      reads this
    {
      Dispatch(workersPool, applicantWorkerMap, lastWorkerIndex, history)
    }

    /** A controller after `init`. */
    constructor (setting: Setting)
      ensures workerLimit == InitialLimit(setting) && Abs() == INITIAL
    {
      workerLimit := InitialLimit(setting);
      workersPool, applicantWorkerMap, lastWorkerIndex, history := 0, map[], -1, [];
    }

    method FindWorker(applicant: Applicant) returns (worker: Answer)
      modifies this
      ensures (Abs(), worker) == GetWorker(workerLimit, old(Abs()), applicant)
    {
      if workerLimit.Local? {
        return LocalWorker;
      }
      if applicant in applicantWorkerMap {
        return Worker(applicantWorkerMap[applicant]);
      }
      if workerLimit.Workers? && workersPool < workerLimit.count {
        workersPool := workersPool + 1;
        lastWorkerIndex := workersPool - 1;
      } else {
        lastWorkerIndex := if lastWorkerIndex + 1 < workersPool then lastWorkerIndex + 1 else 0;
      }
      if !(0 <= lastWorkerIndex < workersPool) {
        return Failure;
      }
      applicantWorkerMap := applicantWorkerMap[applicant := lastWorkerIndex];
      history := history + [lastWorkerIndex];
      worker := Worker(lastWorkerIndex);
    }

    method Execute(e: Event) returns (worker: Answer)
      modifies this
      ensures (Abs(), worker) == Step(workerLimit, old(Abs()), e)
    {
      match e {
        case Command(applicant) =>
          worker := FindWorker(applicant);
        case End(applicant) =>
          if workerLimit.Local? {
            return LocalWorker;
          }
          if applicant !in applicantWorkerMap {
            return Nothing;
          }
          worker := FindWorker(applicant);
          applicantWorkerMap := applicantWorkerMap - {applicant};
      }
    }
  }
}
