/** core/fs-store/src/utils/LockPool.ts: a bounded pool of slots with a waiting queue.

    `acquire` returns a promise and `release` resolves the promises of other callers, so promises
    are numbered in the order they are handed out, and the pool's history records which requests
    were granted, in which order, and which promises were resolved with `false`. */
module LockPools {
  import opened Common
  import opened MultiLocks
  import opened Queues

  /** A request; `promise` is the promise that its notifier resolves. */
  datatype Ticket = Ticket(worker: Id, request: Option<string>, promise: nat)

  datatype Pool = Pool(
    limit: int,
    held: multiset<Id>,
    waiting: seq<Ticket>,
    requests: set<string>,
    issued: nat,
    granted: seq<Ticket>,
    denied: set<nat>)

  datatype Outcome = Rejected | Granted | Queued

  function NewPool(limit: int): Pool {
    Pool(limit, multiset{}, [], {}, 0, [], {})
  }

  predicate Named(request: Option<string>) {
    request.Some? && request.value != ""
  }

  predicate Repeats(p: Pool, request: Option<string>) {
    Named(request) && request.value in p.requests
  }

  function Matching(worker: Id, request: string): (Ticket, nat) -> bool {
    (t: Ticket, i: nat) => t.worker == worker && t.request == Some(request)
  }

  /** `acquireAction` for a given promise: take a slot, or queue behind everybody else. */
  function Enter(p: Pool, t: Ticket): Pool {
    if HasRoom(p.limit, p.held) then
      p.(held := p.held + multiset{t.worker}, granted := p.granted + [t])
    else
      p.(waiting := p.waiting + [t])
  }

  function AcquireSlot(p: Pool, worker: Id, request: Option<string>): (Pool, Outcome) {
    if Repeats(p, request) then (p, Rejected)
    else
      var q := p.(requests := if Named(request) then p.requests + {request.value} else p.requests,
                  issued := p.issued + 1);
      (Enter(q, Ticket(worker, request, p.issued)),
       if HasRoom(p.limit, p.held) then Granted else Queued)
  }

  function Withdraw(p: Pool, worker: Id, request: string): Pool
    requires Keep(p.waiting, Matching(worker, request)) != []
  {
    p.(waiting := Keep(p.waiting, Not(Matching(worker, request))),
       denied := p.denied + {Keep(p.waiting, Matching(worker, request))[0].promise})
  }

  /** The head of the queue tries again. */
  function Retry(p: Pool): Pool {
    if p.waiting == [] then p else Enter(p.(waiting := p.waiting[1..]), p.waiting[0])
  }

  function HandOver(p: Pool, worker: Id, request: string): Pool {
    Retry(p.(held := p.held - multiset{worker})).(requests := p.requests - {request})
  }

  function ReleaseSlot(p: Pool, worker: Id, request: string): (Pool, bool) {
    if Keep(p.waiting, Matching(worker, request)) != [] then (Withdraw(p, worker, request), true)
    else if worker in p.held then (HandOver(p, worker, request), true)
    else (p, false)
  }

  datatype Event = EAcquire(worker: Id, request: Option<string>) | ERelease(worker: Id, name: string)

  function Step(p: Pool, e: Event): Pool {
    match e
    case EAcquire(w, r) => AcquireSlot(p, w, r).0
    case ERelease(w, r) => ReleaseSlot(p, w, r).0
  }

  function Run(p: Pool, es: seq<Event>): Pool {
    if es == [] then p else Step(Run(p, es[..|es| - 1]), es[|es| - 1])
  }

  // ---- The invariant of every run ----

  ghost predicate Ordered(ts: seq<Ticket>) {
    forall i, j :: 0 <= i < j < |ts| ==> ts[i].promise < ts[j].promise
  }

  /** Everybody who was or will be served: the granted requests in order, then the queue. */
  function Line(p: Pool): seq<Ticket> {
    p.granted + p.waiting
  }

  /** - the pool is never overfull, and nobody waits while there is room;
      - grants are made in arrival order, and everybody granted arrived before everybody waiting;
      - no promise is resolved twice, and none that still waits is resolved. */
  ghost predicate PoolInv(p: Pool) {
    && WithinLimit(p.limit, p.held)
    && (p.waiting != [] ==> !HasRoom(p.limit, p.held))
    && Ordered(Line(p))
    && (forall t :: t in Line(p) ==> t.promise < p.issued && t.promise !in p.denied)
    && (forall n :: n in p.denied ==> n < p.issued)
  }

  lemma {:induction false} SubsequenceOrdered(a: seq<Ticket>, b: seq<Ticket>)
    requires IsSubsequence(a, b) && Ordered(b)
    ensures Ordered(a) && forall t :: t in a ==> t in b
    decreases |b|
  {
    if a != [] {
      var a', b' := a[..|a| - 1], b[..|b| - 1];
      if a[|a| - 1] == b[|b| - 1] && IsSubsequence(a', b') {
        SubsequenceOrdered(a', b');
        assert a == a' + [a[|a| - 1]] && b == b' + [b[|b| - 1]];
        forall i | 0 <= i < |a'| ensures a[i].promise < a[|a| - 1].promise {
          assert a'[i] in b';
        }
      } else {
        SubsequenceOrdered(a, b');
      }
    }
  }

  lemma AcquireKeepsInv(p: Pool, worker: Id, request: Option<string>)
    requires PoolInv(p)
    ensures PoolInv(AcquireSlot(p, worker, request).0)
  {
    if !Repeats(p, request) {
      var t := Ticket(worker, request, p.issued);
      var q := AcquireSlot(p, worker, request).0;
      assert Line(q) == Line(p) + [t];
      forall i | 0 <= i < |Line(p)| ensures Line(p)[i].promise < p.issued {
        assert Line(p)[i] in Line(p);
      }
    }
  }

  lemma WaitingOrdered(p: Pool)
    requires Ordered(Line(p))
    ensures Ordered(p.waiting) && Distinct(p.waiting)
  {
    forall i, j | 0 <= i < j < |p.waiting| ensures p.waiting[i].promise < p.waiting[j].promise {
      assert Line(p)[|p.granted| + i] == p.waiting[i] && Line(p)[|p.granted| + j] == p.waiting[j];
    }
  }

  /** A promise names one ticket, and a waiting ticket was not granted. */
  lemma SamePromise(p: Pool, t: Ticket, u: Ticket)
    requires Ordered(Line(p)) && t in Line(p) && u in p.waiting && t.promise == u.promise
    ensures t == u && t !in p.granted
  {
    var line := Line(p);
    var k :| 0 <= k < |p.waiting| && p.waiting[k] == u;
    assert line[|p.granted| + k] == u;
    var i :| 0 <= i < |line| && line[i] == t;
    assert i == |p.granted| + k;
    forall j | 0 <= j < |p.granted| ensures p.granted[j] != t {
      assert line[j] == p.granted[j];
    }
  }

  /** Withdrawing leaves a line in the same order, without any of the withdrawn requests. */
  lemma WithdrawnGone(p: Pool, f: (Ticket, nat) -> bool, gone: Ticket)
    requires Ordered(Line(p)) && gone in Keep(p.waiting, f)
    ensures Ordered(p.granted + Keep(p.waiting, Not(f)))
    ensures gone in p.waiting
    ensures forall t :: t in p.granted + Keep(p.waiting, Not(f)) ==>
              t in Line(p) && t.promise != gone.promise
  {
    var rest := Keep(p.waiting, Not(f));
    KeepMembers(p.waiting, f, gone);
    KeepSubsequence(p.granted, p.waiting, Not(f));
    SubsequenceOrdered(p.granted + rest, Line(p));
    WaitingOrdered(p);
    KeepDisjoint(p.waiting, f, gone);
    forall t | t in p.granted + rest ensures t.promise != gone.promise {
      if t.promise == gone.promise {
        SamePromise(p, t, gone);
      }
    }
  }

  lemma WithdrawKeepsInv(p: Pool, worker: Id, request: string)
    requires PoolInv(p) && Keep(p.waiting, Matching(worker, request)) != []
    ensures PoolInv(Withdraw(p, worker, request))
  {
    WithdrawnGone(p, Matching(worker, request), Keep(p.waiting, Matching(worker, request))[0]);
  }

  /** A freed slot goes to the head of the queue: the line is unchanged, so nobody is overtaken,
      and the head never has to queue again. */
  lemma HandOverKeepsInv(p: Pool, worker: Id, request: string)
    requires PoolInv(p) && worker in p.held
    ensures PoolInv(HandOver(p, worker, request))
    ensures Line(HandOver(p, worker, request)) == Line(p)
  {
    if p.waiting != [] {
      assert |p.held - multiset{worker}| == |p.held| - 1;
      assert HasRoom(p.limit, p.held - multiset{worker});
      assert Line(HandOver(p, worker, request)) == Line(p);
    }
  }

  lemma ReleaseKeepsInv(p: Pool, worker: Id, request: string)
    requires PoolInv(p)
    ensures PoolInv(ReleaseSlot(p, worker, request).0)
  {
    if Keep(p.waiting, Matching(worker, request)) != [] {
      WithdrawKeepsInv(p, worker, request);
    } else if worker in p.held {
      HandOverKeepsInv(p, worker, request);
    }
  }

  /** Every run of acquires and releases, whatever the ids, keeps the pool invariant. */
  lemma {:induction false} RunKeepsInv(limit: int, es: seq<Event>)
    ensures PoolInv(Run(NewPool(limit), es)) && Run(NewPool(limit), es).limit == limit
  {
    if es != [] {
      RunKeepsInv(limit, es[..|es| - 1]);
      var p := Run(NewPool(limit), es[..|es| - 1]);
      match es[|es| - 1]
      case EAcquire(w, r) => AcquireKeepsInv(p, w, r);
      case ERelease(w, r) => ReleaseKeepsInv(p, w, r);
    }
  }

  /** No barging: once a request has been granted, no earlier one is still waiting, and the grants
      themselves were made in arrival order. */
  lemma NoOvertaking(limit: int, es: seq<Event>, earlier: Ticket, later: Ticket)
    requires var p := Run(NewPool(limit), es);
             earlier in Line(p) && later in p.granted && earlier.promise < later.promise
    ensures var p := Run(NewPool(limit), es);
            exists i, j :: 0 <= i < j < |p.granted| && p.granted[i] == earlier && p.granted[j] == later
  {
    RunKeepsInv(limit, es);
    var p := Run(NewPool(limit), es);
    var i :| 0 <= i < |Line(p)| && Line(p)[i] == earlier;
    var j :| 0 <= j < |p.granted| && p.granted[j] == later;
    assert Line(p)[j] == later;
    assert i < j;
    assert p.granted[i] == earlier;
  }

  /** While a request waits, a pool with a positive limit is exactly full. */
  lemma WaitingMeansFull(limit: int, es: seq<Event>)
    requires limit > 0
    ensures |Run(NewPool(limit), es).held| <= limit
    ensures Run(NewPool(limit), es).waiting != [] ==> |Run(NewPool(limit), es).held| == limit
  {
    RunKeepsInv(limit, es);
  }

  // ---- What a request and a release are answered ----

  /** A repeated name is rejected and changes nothing; any other request takes a slot at once if there
      is room, and else stands at the end of the queue. Names that are given are registered. */
  lemma AcquireAnswers(p: Pool, worker: Id, request: Option<string>)
    ensures var (q, outcome) := AcquireSlot(p, worker, request);
            var t := Ticket(worker, request, p.issued);
            && (outcome == Rejected <==> request.Some? && request.value != "" && request.value in p.requests)
            && (outcome == Rejected ==> q == p)
            && (outcome == Granted <==> outcome != Rejected && (p.limit == 0 || |p.held| < p.limit))
            && (outcome == Granted ==>
                  q.held == p.held + multiset{worker} && q.granted == p.granted + [t] && q.waiting == p.waiting)
            && (outcome == Queued ==>
                  q.held == p.held && q.granted == p.granted && q.waiting == p.waiting + [t])
            && (outcome != Rejected ==> q.issued == p.issued + 1 && q.denied == p.denied)
            && (forall n :: n in q.requests <==> n in p.requests || (n != "" && request == Some(n)))
  {
  }

  /** The worker waits under this name. */
  predicate WaitsAs(p: Pool, worker: Id, name: string) {
    exists t :: t in p.waiting && t.worker == worker && t.request == Some(name)
  }

  /** A waiting request is withdrawn with all others of the same worker and name: no slot is freed, the
      first of them is denied, and the name stays registered. */
  lemma WithdrawalAnswers(p: Pool, worker: Id, name: string, t: Ticket)
    requires WaitsAs(p, worker, name)
    ensures var (q, ok) := ReleaseSlot(p, worker, name);
            && ok && q.held == p.held && q.granted == p.granted && q.requests == p.requests && q.issued == p.issued
            && IsSubsequence(q.waiting, p.waiting)
            && Occurrences(q.waiting, t) ==
               (if t.worker == worker && t.request == Some(name) then 0 else Occurrences(p.waiting, t))
    ensures exists u :: u in p.waiting && u.worker == worker && u.request == Some(name)
                        && ReleaseSlot(p, worker, name).0.denied == p.denied + {u.promise}
  {
    var f := Matching(worker, name);
    var w :| w in p.waiting && w.worker == worker && w.request == Some(name);
    KeptMatch(p.waiting, worker, name, w);
    KeepOccurrences(p.waiting, Not(f), t, !(t.worker == worker && t.request == Some(name)));
    KeepSubsequence([], p.waiting, Not(f));
    assert [] + Keep(p.waiting, Not(f)) == Keep(p.waiting, Not(f)) && [] + p.waiting == p.waiting;
    var u := Keep(p.waiting, f)[0];
    KeepMembers(p.waiting, f, u);
    KeptMatch(p.waiting, worker, name, u);
  }

  lemma NobodyMatches(p: Pool, worker: Id, name: string)
    requires !WaitsAs(p, worker, name)
    ensures Keep(p.waiting, Matching(worker, name)) == []
  {
    var kept := Keep(p.waiting, Matching(worker, name));
    if kept != [] {
      KeepMembers(p.waiting, Matching(worker, name), kept[0]);
      KeptMatch(p.waiting, worker, name, kept[0]);
    }
  }

  /** Otherwise a release succeeds exactly if the worker holds a slot: the slot goes to the head of the
      queue, if there is one, and the name may be used again. */
  lemma ReleaseAnswers(p: Pool, worker: Id, name: string)
    requires PoolInv(p) && !WaitsAs(p, worker, name)
    ensures var (q, ok) := ReleaseSlot(p, worker, name);
            && (ok <==> worker in p.held)
            && (!ok ==> q == p)
            && (ok ==> q.requests == p.requests - {name} && q.denied == p.denied && q.issued == p.issued)
            && (ok && p.waiting == [] ==>
                  q.held == p.held - multiset{worker} && q.granted == p.granted && q.waiting == [])
            && (ok && p.waiting != [] ==>
                  && q.held == p.held - multiset{worker} + multiset{p.waiting[0].worker}
                  && q.granted == p.granted + [p.waiting[0]] && q.waiting == p.waiting[1..])
  {
    NobodyMatches(p, worker, name);
    if worker in p.held {
      assert |p.held - multiset{worker}| == |p.held| - 1;
    }
  }

  // ---- Which names are taken ----

  /** The name was given with a request, and no slot has been released under it since. */
  ghost predicate Taken(limit: int, es: seq<Event>, name: string) {
    es != [] &&
    (var init, e := es[..|es| - 1], es[|es| - 1];
     var p := Run(NewPool(limit), init);
     match e
     case EAcquire(_, request) => (name != "" && request == Some(name)) || Taken(limit, init, name)
     case ERelease(w, r) => Taken(limit, init, name) && !(r == name && !WaitsAs(p, w, r) && w in p.held))
  }

  /** A request is rejected in a run exactly when its name is taken. */
  lemma {:induction false} RejectedIffTaken(limit: int, es: seq<Event>, worker: Id, name: string)
    requires name != ""
    ensures AcquireSlot(Run(NewPool(limit), es), worker, Some(name)).1 == Rejected <==> Taken(limit, es, name)
  {
    AcquireAnswers(Run(NewPool(limit), es), worker, Some(name));
    if es != [] {
      var init, e := es[..|es| - 1], es[|es| - 1];
      var p := Run(NewPool(limit), init);
      RejectedIffTaken(limit, init, worker, name);
      AcquireAnswers(p, worker, Some(name));
      RunKeepsInv(limit, init);
      match e
      case EAcquire(w, r) => AcquireAnswers(p, w, r);
      case ERelease(w, r) =>
        if WaitsAs(p, w, r) {
          WithdrawalAnswers(p, w, r, Ticket(w, Some(r), 0));
        } else {
          ReleaseAnswers(p, w, r);
        }
    }
  }

  lemma OneHoldsOneWaits(e0: Event, e1: Event)
    requires e0 == EAcquire("a", Some("x")) && e1 == EAcquire("b", Some("y"))
    ensures var p := Run(NewPool(1), [e0, e1]);
            p.requests == {"x", "y"} && p.waiting == [Ticket("b", Some("y"), 1)]
  {
    assert [] + [e0] == [e0] && [e0] + [e1] == [e0, e1];
    RunSnoc(NewPool(1), [], e0);
    RunSnoc(NewPool(1), [e0], e1);
    assert Run(NewPool(1), [e0]) == Pool(1, multiset{"a"}, [], {"x"}, 1, [Ticket("a", Some("x"), 0)], {});
  }

  lemma WithdrawnNameStays(p: Pool, worker: Id, name: string)
    requires name in p.requests && name != "" && WaitsAs(p, worker, name)
    ensures AcquireSlot(ReleaseSlot(p, worker, name).0, worker, Some(name)).1 == Rejected
  {
    WithdrawalAnswers(p, worker, name, Ticket(worker, Some(name), 0));
  }

  /** A request that was withdrawn while it waited cannot be made again under its name. */
  lemma WithdrawnNameStaysTaken(e0: Event, e1: Event)
    requires e0 == EAcquire("a", Some("x")) && e1 == EAcquire("b", Some("y"))
    ensures AcquireSlot(Run(NewPool(1), [e0, e1, ERelease("b", "y")]), "b", Some("y")).1 == Rejected
  {
    OneHoldsOneWaits(e0, e1);
    var p := Run(NewPool(1), [e0, e1]);
    assert p.waiting[0] in p.waiting;
    WithdrawnNameStays(p, "b", "y");
    assert [e0, e1] + [ERelease("b", "y")] == [e0, e1, ERelease("b", "y")];
    RunSnoc(NewPool(1), [e0, e1], ERelease("b", "y"));
  }

  // ---- Which promises can get lost ----

  ghost predicate InLine(p: Pool, n: nat) {
    exists t :: t in Line(p) && t.promise == n
  }

  /** Every promise handed out was resolved or still waits to be. */
  ghost predicate NothingLost(p: Pool) {
    forall n: nat :: n < p.issued ==> n in p.denied || InLine(p, n)
  }

  lemma AcquireLosesNothing(p: Pool, worker: Id, request: Option<string>)
    requires PoolInv(p) && NothingLost(p)
    ensures NothingLost(AcquireSlot(p, worker, request).0)
  {
  }

  /** `release` notifies only the first request it withdraws, so it keeps every promise alive
      exactly when it withdraws at most one. */
  lemma ReleaseLosesNothingIff(p: Pool, worker: Id, request: string)
    requires PoolInv(p) && NothingLost(p)
    ensures NothingLost(ReleaseSlot(p, worker, request).0)
       <==> |Keep(p.waiting, Matching(worker, request))| <= 1
  {
    var withdrawn := Keep(p.waiting, Matching(worker, request));
    if |withdrawn| > 1 {
      WithdrawalLoses(p, worker, request);
    } else if |withdrawn| == 1 {
      WithdrawalKeeps(p, worker, request);
    } else if worker in p.held {
      HandOverKeepsInv(p, worker, request);
      var q := HandOver(p, worker, request);
      forall n: nat | n < q.issued && n !in q.denied ensures InLine(q, n) {
        var u :| u in Line(p) && u.promise == n;
        assert u in Line(q);
      }
    }
  }

  lemma WithdrawalLoses(p: Pool, worker: Id, request: string)
    requires PoolInv(p) && |Keep(p.waiting, Matching(worker, request))| > 1
    ensures !NothingLost(Withdraw(p, worker, request))
  {
    var f := Matching(worker, request);
    var withdrawn := Keep(p.waiting, f);
    var q := Withdraw(p, worker, request);
    WithdrawnOrdered(p, f);
    var lost := withdrawn[1];
    WithdrawnGone(p, f, lost);
    assert lost in Line(p);
    assert lost.promise !in q.denied && !InLine(q, lost.promise);
  }

  lemma WithdrawnOrdered(p: Pool, f: (Ticket, nat) -> bool)
    requires Ordered(Line(p))
    ensures Ordered(Keep(p.waiting, f))
  {
    KeepSubsequence([], p.waiting, f);
    assert [] + Keep(p.waiting, f) == Keep(p.waiting, f) && [] + p.waiting == p.waiting;
    WaitingOrdered(p);
    SubsequenceOrdered(Keep(p.waiting, f), p.waiting);
  }

  lemma WithdrawalKeeps(p: Pool, worker: Id, request: string)
    requires PoolInv(p) && NothingLost(p) && |Keep(p.waiting, Matching(worker, request))| == 1
    ensures NothingLost(Withdraw(p, worker, request))
  {
    var f := Matching(worker, request);
    var q := Withdraw(p, worker, request);
    forall n: nat | n < q.issued && n !in q.denied ensures InLine(q, n) {
      var u :| u in Line(p) && u.promise == n;
      KeepMembers(p.waiting, f, u);
      assert u in Line(q);
    }
  }

  /** Requests with an empty id escape the duplicate check, so one release can drop two of them. */
  lemma EmptyIdsCanBeLost()
    ensures var e := EAcquire("w", Some(""));
            !NothingLost(Run(NewPool(1), [e, e, e, ERelease("w", "")]))
  {
    var e := EAcquire("w", Some(""));
    ThreeAcquires(e);
    var p := Run(NewPool(1), [e, e, e]);
    RunKeepsInv(1, [e, e, e]);
    RunSnoc(NewPool(1), [e, e, e], ERelease("w", ""));
    assert [e, e, e] + [ERelease("w", "")] == [e, e, e, ERelease("w", "")];
    TwoAreTooMany(p, p.waiting[0], p.waiting[1]);
  }

  lemma ThreeAcquires(e: Event)
    requires e == EAcquire("w", Some(""))
    ensures Run(NewPool(1), [e, e, e]).waiting == [Ticket("w", Some(""), 1), Ticket("w", Some(""), 2)]
  {
    var t0, t1 := Ticket("w", Some(""), 0), Ticket("w", Some(""), 1);
    var p1 := Pool(1, multiset{"w"}, [], {}, 1, [t0], {});
    var p2 := Pool(1, multiset{"w"}, [t1], {}, 2, [t0], {});
    assert [] + [e] == [e] && [e] + [e] == [e, e] && [e, e] + [e] == [e, e, e];
    RunSnoc(NewPool(1), [], e);
    RunSnoc(NewPool(1), [e], e);
    RunSnoc(NewPool(1), [e, e], e);
    assert Run(NewPool(1), [e]) == p1;
    assert Run(NewPool(1), [e, e]) == p2;
  }

  lemma TwoAreTooMany(p: Pool, t: Ticket, u: Ticket)
    requires PoolInv(p) && p.waiting == [t, u]
    requires t.worker == u.worker == "w" && t.request == u.request == Some("")
    ensures !NothingLost(ReleaseSlot(p, "w", "").0)
  {
    KeepBoth(t, u, Matching("w", ""));
    WithdrawalLoses(p, "w", "");
  }

  lemma RunSnoc(p: Pool, es: seq<Event>, e: Event)
    ensures Run(p, es + [e]) == Step(Run(p, es), e)
  {
  }

  lemma KeepBoth(t: Ticket, u: Ticket, f: (Ticket, nat) -> bool)
    requires f(t, 0) && f(u, 1)
    ensures Keep([t, u], f) == [t, u]
  {
    assert [t, u][..1] == [t] && [t][..0] == [];
    assert Keep([t], f) == [t];
  }

  /** A run that names its requests: a release carries a non-empty id, and that id is not the one
      under which a different worker waits. */
  ghost predicate Disciplined(p: Pool, es: seq<Event>) {
    es == [] ||
    (&& Disciplined(p, es[..|es| - 1])
     && (es[|es| - 1].ERelease? ==> NamesOwn(Run(p, es[..|es| - 1]), es[|es| - 1].worker, es[|es| - 1].name)))
  }

  ghost predicate NamesOwn(p: Pool, worker: Id, name: string) {
    name != "" && forall t :: t in p.waiting && t.request == Some(name) ==> t.worker == worker
  }

  /** Named waiting requests are registered, and no name waits twice. */
  ghost predicate NamesDistinct(p: Pool) {
    && (forall t :: t in p.waiting && Named(t.request) ==> t.request.value in p.requests)
    && (forall t, u :: t in p.waiting && u in p.waiting && Named(t.request) && t.request == u.request ==>
          t == u)
  }

  lemma {:induction false} KeptMatch(ts: seq<Ticket>, worker: Id, request: string, t: Ticket)
    requires t in ts
    ensures t in Keep(ts, Matching(worker, request)) <==> t.worker == worker && t.request == Some(request)
  {
    var init := ts[..|ts| - 1];
    if t in init {
      KeptMatch(init, worker, request, t);
    } else {
      KeepMembers(init, Matching(worker, request), t);
    }
  }

  lemma AtMostOneMatch(p: Pool, worker: Id, name: string)
    requires PoolInv(p) && NamesDistinct(p) && name != ""
    ensures |Keep(p.waiting, Matching(worker, name))| <= 1
  {
    var f := Matching(worker, name);
    var kept := Keep(p.waiting, f);
    if |kept| > 1 {
      WithdrawnOrdered(p, f);
      KeepMembers(p.waiting, f, kept[0]);
      KeepMembers(p.waiting, f, kept[1]);
      KeptMatch(p.waiting, worker, name, kept[0]);
      KeptMatch(p.waiting, worker, name, kept[1]);
    }
  }

  lemma ReleaseKeepsNames(p: Pool, worker: Id, name: string)
    requires PoolInv(p) && NamesDistinct(p) && NamesOwn(p, worker, name)
    ensures NamesDistinct(ReleaseSlot(p, worker, name).0)
  {
    var f := Matching(worker, name);
    forall t | t in Keep(p.waiting, Not(f)) ensures t in p.waiting {
      KeepMembers(p.waiting, f, t);
    }
    if Keep(p.waiting, f) == [] && worker in p.held {
      forall t | t in p.waiting ensures t.request != Some(name) {
        KeptMatch(p.waiting, worker, name, t);
      }
      HandOverKeepsInv(p, worker, name);
      assert p.waiting != [] ==> HandOver(p, worker, name).waiting == p.waiting[1..];
    }
  }

  /** With named requests no promise is ever lost: each one handed out is resolved or waits. */
  lemma {:induction false} DisciplinedRunsLoseNothing(limit: int, es: seq<Event>)
    requires Disciplined(NewPool(limit), es)
    ensures NothingLost(Run(NewPool(limit), es)) && NamesDistinct(Run(NewPool(limit), es))
  {
    if es != [] {
      var init := es[..|es| - 1];
      DisciplinedRunsLoseNothing(limit, init);
      RunKeepsInv(limit, init);
      var p := Run(NewPool(limit), init);
      match es[|es| - 1]
      case EAcquire(w, r) =>
        AcquireLosesNothing(p, w, r);
      case ERelease(w, r) =>
        AtMostOneMatch(p, w, r);
        ReleaseLosesNothingIff(p, w, r);
        ReleaseKeepsNames(p, w, r);
    }
  }

  // ---- The class ----

  lemma {:induction false} NothingRemoved(ts: seq<Ticket>, f: (Ticket, nat) -> bool)
    requires Keep(ts, f) == []
    ensures Keep(ts, Not(f)) == ts
  {
    if ts != [] {
      NothingRemoved(ts[..|ts| - 1], f);
    }
  }

  class LockPool {
    const poolLock: MultiLock
    const requestQue: Queue<Ticket>
    var requests: set<string>
    var issued: nat
    ghost var granted: seq<Ticket>
    ghost var denied: set<nat>

    ghost predicate Valid()
      reads this, poolLock, requestQue
    {
      poolLock.Valid()
    }

    ghost function Abs(): Pool
      reads this, poolLock, requestQue
    {
      Pool(poolLock.lockLimit, poolLock.Held, requestQue.items, requests, issued, granted, denied)
    }

    constructor (maxLockCount: int)
      ensures Valid() && Abs() == NewPool(maxLockCount)
      ensures fresh(poolLock) && fresh(requestQue)
    {
      requests := {};
      requestQue := new Queue<Ticket>([]);
      poolLock := new MultiLock(maxLockCount);
      issued := 0;
      granted := [];
      denied := {};
    }

    method Acquire(worker: Id, request: Option<string>) returns (outcome: Outcome)
      requires Valid()
      modifies this, poolLock, requestQue
      ensures Valid()
      ensures Abs() == AcquireSlot(old(Abs()), worker, request).0
      ensures outcome == AcquireSlot(old(Abs()), worker, request).1
    {
      if Named(request) {
        if request.value in requests {
          return Rejected;
        }
        requests := requests + {request.value};
      }
      var ticket := Ticket(worker, request, issued);
      issued := issued + 1;
      var ok := AcquireAction(ticket);
      outcome := if ok then Granted else Queued;
    }

    method AcquireAction(ticket: Ticket) returns (ok: bool)
      requires poolLock.Valid()
      modifies this`granted, poolLock, requestQue
      ensures poolLock.Valid()
      ensures ok == HasRoom(poolLock.lockLimit, old(poolLock.Held))
      ensures Abs() == Enter(old(Abs()), ticket)
    {
      ok := poolLock.Acquire(ticket.worker);
      if ok {
        granted := granted + [ticket];
      } else {
        requestQue.Push(ticket);
      }
    }

    method Release(worker: Id, request: string) returns (ok: bool)
      requires Valid()
      modifies this, poolLock, requestQue
      ensures Valid()
      ensures Abs() == ReleaseSlot(old(Abs()), worker, request).0
      ensures ok == ReleaseSlot(old(Abs()), worker, request).1
    {
      ghost var before := Abs();
      var removed := requestQue.Extract(Matching(worker, request));
      if |removed| > 0 {
        denied := denied + {removed[0].promise};
        assert Abs() == Withdraw(before, worker, request);
        return true;
      }
      NothingRemoved(before.waiting, Matching(worker, request));
      assert Abs() == before;
      ok := poolLock.Release(worker);
      if ok {
        RetryFirst();
        requests := requests - {request};
      }
    }

    method RetryFirst()
      requires poolLock.Valid()
      modifies this`granted, poolLock, requestQue
      ensures poolLock.Valid()
      ensures Abs() == Retry(old(Abs()))
    {
      var newItem := requestQue.Shift();
      if newItem.Some? {
        var again := AcquireAction(newItem.value);
      }
    }
  }
}
