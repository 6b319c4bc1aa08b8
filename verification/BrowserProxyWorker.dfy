/** packages/browser-proxy/src/browser-proxy-worker.ts: commands sent to a child process that may crash.

    Each event is one stretch of code between two awaits. A command executed while there is no worker
    starts a spawn of its own and waits for it, so several spawns can be in flight. */
module BrowserProxyWorkers {
  import opened Common

  type Uid = nat
  type Pid = nat

  /** A command in the pool and the process it was sent to. */
  datatype Sent = Sent(uid: Uid, to: Pid)

  datatype Proxy = Proxy(
    worker: Option<Pid>,          // `worker` and `workerID`, which are always set together
    queue: seq<Uid>,              // `pendingCommandsQueue`
    pool: seq<Sent>,              // `pendingCommandsPool`, in insertion order
    spawning: seq<Option<Uid>>,   // spawns in flight, each with the command that waits for it, if any
    resuming: seq<Uid>,           // commands whose spawn is done and whose `execute` goes on next
    attached: set<Pid>,           // processes whose exit is listened to
    settled: seq<Uid>,            // commands resolved or rejected
    issued: set<Uid>)

  const START := Proxy(None, [], [], [], [], {}, [], {})

  datatype Event =
    | Issue(uid: Uid)
    | SpawnDone(spawn: nat, pid: Pid)
    | SpawnFail(spawn: nat)
    | Resume(command: nat)
    | Exit(pid: Pid)
    | Response(source: Pid, uid: Uid)

  predicate Enabled(s: Proxy, e: Event) {
    match e
    case Issue(uid) => uid !in s.issued
    case SpawnDone(i, pid) => i < |s.spawning| && pid !in s.attached
    case SpawnFail(i) => i < |s.spawning|
    case Resume(i) => i < |s.resuming|
    case Exit(pid) => pid in s.attached
    case Response(_, _) => true
  }

  function RemoveAt<T>(s: seq<T>, i: nat): seq<T>
    requires i < |s|
  {
    s[..i] + s[i + 1..]
  }

  function Uids(pool: seq<Sent>): seq<Uid> {
    seq(|pool|, i requires 0 <= i < |pool| => pool[i].uid)
  }

  function SendAll(uids: seq<Uid>, to: Pid): seq<Sent> {
    seq(|uids|, i requires 0 <= i < |uids| => Sent(uids[i], to))
  }

  /** The place of a command in the pool; `|pool|` when it is not there. */
  function Find(pool: seq<Sent>, uid: Uid): (i: nat)
    ensures i <= |pool| && (i < |pool| ==> pool[i].uid == uid)
    ensures forall k :: 0 <= k < i ==> pool[k].uid != uid
  {
    if pool == [] || pool[0].uid == uid then 0 else Find(pool[1..], uid) + 1
  }

  function Execute(s: Proxy, uid: Uid): Proxy {
    var s := s.(issued := s.issued + {uid});
    if s.worker.Some? then s.(pool := s.pool + [Sent(uid, s.worker.value)]) else s.(spawning := s.spawning + [Some(uid)])
  }

  /** The worker is set and everything in the queue is sent to it. */
  function Connect(s: Proxy, i: nat, pid: Pid): Proxy
    requires i < |s.spawning|
  {
    s.(worker := Some(pid), attached := s.attached + {pid},
       pool := s.pool + SendAll(s.queue, pid), queue := [],
       resuming := s.resuming + (if s.spawning[i].Some? then [s.spawning[i].value] else []),
       spawning := RemoveAt(s.spawning, i))
  }

  /** A failed spawn rejects the command that waited for it. */
  function FailSpawn(s: Proxy, i: nat): Proxy
    requires i < |s.spawning|
  {
    s.(settled := s.settled + (if s.spawning[i].Some? then [s.spawning[i].value] else []),
       spawning := RemoveAt(s.spawning, i))
  }

  function Continue(s: Proxy, i: nat): Proxy
    requires i < |s.resuming|
  {
    var uid := s.resuming[i];
    var s := s.(resuming := RemoveAt(s.resuming, i));
    if s.worker.Some? then s.(pool := s.pool + [Sent(uid, s.worker.value)]) else s.(queue := s.queue + [uid])
  }

  /** `onExit` does not look at which process has gone. */
  function Disconnect(s: Proxy, pid: Pid): Proxy {
    s.(worker := None, attached := s.attached - {pid},
       queue := s.queue + Uids(s.pool), pool := [], spawning := s.spawning + [None])
  }

  /** A response from another process, or for a command that is not in the pool, changes nothing. */
  function Respond(s: Proxy, source: Pid, uid: Uid): Proxy {
    var i := Find(s.pool, uid);
    if s.worker == Some(source) && i < |s.pool| then
      s.(pool := RemoveAt(s.pool, i), settled := s.settled + [uid])
    else s
  }

  function Step(s: Proxy, e: Event): Proxy
    requires Enabled(s, e)
  {
    match e
    case Issue(uid) => Execute(s, uid)
    case SpawnDone(i, pid) => Connect(s, i, pid)
    case SpawnFail(i) => FailSpawn(s, i)
    case Resume(i) => Continue(s, i)
    case Exit(pid) => Disconnect(s, pid)
    case Response(source, uid) => Respond(s, source, uid)
  }

  predicate Legal(s: Proxy, es: seq<Event>)
    decreases |es|
  {
    es == [] || (Enabled(s, es[0]) && Legal(Step(s, es[0]), es[1..]))
  }

  function Run(s: Proxy, es: seq<Event>): Proxy
    requires Legal(s, es)
    decreases |es|
  {
    if es == [] then s else Run(Step(s, es[0]), es[1..])
  }

  // ---- No command is lost or settled twice ----

  /** How many times a command is on its way or settled. */
  ghost function Times(s: Proxy, uid: Uid): nat {
    multiset(s.spawning)[Some(uid)] + multiset(s.resuming)[uid] + multiset(s.queue)[uid]
    + multiset(Uids(s.pool))[uid] + multiset(s.settled)[uid]
  }

  ghost predicate Conserved(s: Proxy) {
    forall uid :: Times(s, uid) == if uid in s.issued then 1 else 0
  }

  /** Commands wait in the queue only without a worker, and in the pool only with one. */
  predicate QueueOrPool(s: Proxy) {
    if s.worker.Some? then s.queue == [] else s.pool == []
  }

  /** The exit of the present worker is listened to. */
  predicate WorkerAttached(s: Proxy) {
    s.worker.Some? ==> s.worker.value in s.attached
  }

  ghost predicate ProxyInv(s: Proxy) {
    Conserved(s) && QueueOrPool(s) && WorkerAttached(s)
  }

  lemma RemoveAtCount<T>(s: seq<T>, i: nat, x: T)
    requires i < |s|
    ensures multiset(s)[x] == multiset(RemoveAt(s, i))[x] + if s[i] == x then 1 else 0
  {
    assert s == s[..i] + [s[i]] + s[i + 1..];
  }

  lemma UidsConcat(a: seq<Sent>, b: seq<Sent>)
    ensures Uids(a + b) == Uids(a) + Uids(b)
  {
  }

  lemma UidsSendAll(uids: seq<Uid>, to: Pid)
    ensures Uids(SendAll(uids, to)) == uids
  {
  }

  lemma UidsRemoveAt(pool: seq<Sent>, i: nat)
    requires i < |pool|
    ensures Uids(RemoveAt(pool, i)) == RemoveAt(Uids(pool), i)
  {
  }

  lemma ConnectCounts(s: Proxy, i: nat, pid: Pid, uid: Uid)
    requires i < |s.spawning|
    ensures Times(Connect(s, i, pid), uid) == Times(s, uid)
  {
    RemoveAtCount(s.spawning, i, Some(uid));
    UidsConcat(s.pool, SendAll(s.queue, pid));
    UidsSendAll(s.queue, pid);
  }

  lemma FailCounts(s: Proxy, i: nat, uid: Uid)
    requires i < |s.spawning|
    ensures Times(FailSpawn(s, i), uid) == Times(s, uid)
  {
    RemoveAtCount(s.spawning, i, Some(uid));
  }

  lemma PoolAppendCounts(pool: seq<Sent>, sent: Sent, uid: Uid)
    ensures multiset(Uids(pool + [sent]))[uid] == multiset(Uids(pool))[uid] + if sent.uid == uid then 1 else 0
  {
    UidsConcat(pool, [sent]);
    assert Uids([sent]) == [sent.uid];
  }

  lemma ContinueCounts(s: Proxy, i: nat, uid: Uid)
    requires i < |s.resuming|
    ensures Times(Continue(s, i), uid) == Times(s, uid)
  {
    RemoveAtCount(s.resuming, i, uid);
    if s.worker.Some? {
      PoolAppendCounts(s.pool, Sent(s.resuming[i], s.worker.value), uid);
    }
  }

  lemma RespondCounts(s: Proxy, source: Pid, u: Uid, uid: Uid)
    ensures Times(Respond(s, source, u), uid) == Times(s, uid)
  {
    var i := Find(s.pool, u);
    if i < |s.pool| {
      RemoveAtCount(Uids(s.pool), i, uid);
      UidsRemoveAt(s.pool, i);
    }
  }

  lemma DisconnectCounts(s: Proxy, pid: Pid, uid: Uid)
    ensures Times(Disconnect(s, pid), uid) == Times(s, uid)
  {
  }

  lemma ExecuteCounts(s: Proxy, u: Uid, uid: Uid)
    ensures Times(Execute(s, u), uid) == Times(s, uid) + if u == uid then 1 else 0
  {
    if s.worker.Some? {
      PoolAppendCounts(s.pool, Sent(u, s.worker.value), uid);
    }
  }

  /** An event makes a command appear only when it issues it, and never makes one disappear. */
  lemma StepCounts(s: Proxy, e: Event, uid: Uid)
    requires Enabled(s, e)
    ensures Times(Step(s, e), uid) == Times(s, uid) + if e == Issue(uid) then 1 else 0
  {
    match e
    case Issue(u) => ExecuteCounts(s, u, uid);
    case SpawnDone(i, pid) => ConnectCounts(s, i, pid, uid);
    case SpawnFail(i) => FailCounts(s, i, uid);
    case Resume(i) => ContinueCounts(s, i, uid);
    case Exit(pid) => DisconnectCounts(s, pid, uid);
    case Response(source, u) => RespondCounts(s, source, u, uid);
  }

  lemma StepKeepsInv(s: Proxy, e: Event)
    requires ProxyInv(s) && Enabled(s, e)
    ensures ProxyInv(Step(s, e))
  {
    forall uid ensures Times(Step(s, e), uid) == if uid in Step(s, e).issued then 1 else 0 {
      StepCounts(s, e, uid);
    }
  }

  lemma {:induction false} RunKeepsInv(s: Proxy, es: seq<Event>)
    requires ProxyInv(s) && Legal(s, es)
    ensures ProxyInv(Run(s, es))
    decreases |es|
  {
    if es != [] {
      StepKeepsInv(s, es[0]);
      RunKeepsInv(Step(s, es[0]), es[1..]);
    }
  }

  /** In every run, crashes and overlapping spawns included: each issued command is in exactly one
      place, so it is settled at most once; with a worker the queue is empty, without one the pool. */
  lemma CommandsConserved(es: seq<Event>, uid: Uid)
    requires Legal(START, es)
    ensures var s := Run(START, es);
            && Times(s, uid) == (if uid in s.issued then 1 else 0)
            && multiset(s.settled)[uid] <= 1
            && (s.worker.Some? ==> s.queue == []) && (s.worker.None? ==> s.pool == [])
  {
    StartInv();
    RunKeepsInv(START, es);
    assert Conserved(Run(START, es));
  }

  /** When a worker is back, exactly the commands that were left unsettled are sent to it, in order. */
  lemma ReconnectResends(s: Proxy, i: nat, pid: Pid)
    requires ProxyInv(s) && s.worker.None? && Enabled(s, SpawnDone(i, pid))
    ensures Uids(Step(s, SpawnDone(i, pid)).pool) == s.queue
    ensures forall sent :: sent in Step(s, SpawnDone(i, pid)).pool ==> sent.to == pid
    ensures forall uid :: uid in s.issued && uid !in s.settled && uid !in s.resuming && Some(uid) !in s.spawning ==>
              uid in s.queue
  {
  }

  // ---- Crashed workers are replaced ----

  /** When there is no worker and no spawn in flight, no command waits for one. */
  predicate Revivable(s: Proxy) {
    s.worker.None? && s.spawning == [] ==> s.queue == [] && s.resuming == [] && s.pool == []
  }

  /** The only spawn in flight fails while there is no worker and commands wait. */
  predicate FailsForGood(s: Proxy, e: Event) {
    e.SpawnFail? && s.worker.None? && |s.spawning| == 1 && (s.queue != [] || s.resuming != [])
  }

  /** Waiting commands are left without a spawn only by a failure of the last one. */
  lemma StepKeepsRevivableIff(s: Proxy, e: Event)
    requires QueueOrPool(s) && Revivable(s) && Enabled(s, e)
    ensures Revivable(Step(s, e)) <==> !FailsForGood(s, e)
  {
  }

  /** The exit of a process puts every pending command back to wait, in order and behind those that
      wait already, and starts exactly one spawn, for which no command waits. */
  lemma ExitStartsSpawn(s: Proxy, pid: Pid)
    requires Enabled(s, Exit(pid))
    ensures var t := Step(s, Exit(pid));
            && |t.spawning| == |s.spawning| + 1
            && multiset(t.spawning)[None] == multiset(s.spawning)[None] + 1
            && (forall uid :: multiset(t.spawning)[Some(uid)] == multiset(s.spawning)[Some(uid)])
            && t.worker.None? && t.pool == [] && t.queue == s.queue + Uids(s.pool)
            && t.resuming == s.resuming && t.settled == s.settled
  {
  }

  predicate NoSpawnFails(es: seq<Event>) {
    forall e :: e in es ==> !e.SpawnFail?
  }

  lemma {:induction false} RunKeepsRevivable(s: Proxy, es: seq<Event>)
    requires ProxyInv(s) && Revivable(s) && Legal(s, es) && NoSpawnFails(es)
    ensures Revivable(Run(s, es))
    decreases |es|
  {
    if es != [] {
      assert es[0] in es && forall e :: e in es[1..] ==> e in es;
      StepKeepsRevivableIff(s, es[0]);
      StepKeepsInv(s, es[0]);
      RunKeepsRevivable(Step(s, es[0]), es[1..]);
    }
  }

  lemma StartInv()
    ensures ProxyInv(START) && Revivable(START)
  {
    forall u ensures Times(START, u) == 0 {
    }
  }

  /** Progress in every run without failing spawns, whatever crashes: while commands wait and there is
      no worker a spawn is in flight, and when no spawn is in flight and no promise is due every
      unsettled command has been sent to a process. */
  lemma WaitingCommandsAreSent(es: seq<Event>, uid: Uid)
    requires Legal(START, es) && NoSpawnFails(es)
    ensures var s := Run(START, es);
            && (s.worker.None? && (s.queue != [] || s.resuming != []) ==> s.spawning != [])
            && (s.spawning == [] && s.resuming == [] && uid in s.issued && uid !in s.settled ==> uid in Uids(s.pool))
  {
    StartInv();
    RunKeepsInv(START, es);
    RunKeepsRevivable(START, es);
    assert Conserved(Run(START, es));
    assert Times(Run(START, es), uid) == if uid in Run(START, es).issued then 1 else 0;
  }

  lemma RunLast(s: Proxy, e: Event)
    requires Enabled(s, e)
    ensures Legal(s, [e]) && Run(s, [e]) == Step(s, e)
  {
  }

  lemma RunNext(s: Proxy, e: Event, es: seq<Event>)
    requires Enabled(s, e) && Legal(Step(s, e), es)
    ensures Legal(s, [e] + es) && Run(s, [e] + es) == Run(Step(s, e), es)
  {
  }

  /** A run in which the spawn after a crash fails: the command waits although no spawn is in flight. */
  lemma FailedSpawnStrands()
    ensures var es := [Issue(1), SpawnDone(0, 7), Resume(0), Exit(7), SpawnFail(0)];
            && Legal(START, es) && Run(START, es).queue == [1]
            && Run(START, es).worker.None? && Run(START, es).spawning == []
  {
    var s1 := Step(START, Issue(1));
    var s2 := Step(s1, SpawnDone(0, 7));
    assert s2.resuming == [1] && s2.spawning == [];
    var s3 := Step(s2, Resume(0));
    assert s3.pool == [Sent(1, 7)];
    var s4 := Step(s3, Exit(7));
    assert s4.queue == [1] && s4.spawning == [None];
    var e0, e1, e2, e3, e4 := Issue(1), SpawnDone(0, 7), Resume(0), Exit(7), SpawnFail(0);
    RunLast(s4, e4);
    RunNext(s3, e3, [e4]);
    RunNext(s2, e2, [e3, e4]);
    RunNext(s1, e1, [e2, e3, e4]);
    RunNext(START, e0, [e1, e2, e3, e4]);
  }

  /** The process was spawned in the run, or is known already, and has not exited since. */
  predicate Alive(es: seq<Event>, pid: Pid, before: bool)
    decreases |es|
  {
    if es == [] then before
    else
      Alive(es[1..], pid, match es[0]
                          case SpawnDone(_, p) => before || p == pid
                          case Exit(p) => before && p != pid
                          case _ => before)
  }

  lemma {:induction false} ListenedIff(s: Proxy, es: seq<Event>, pid: Pid)
    requires Legal(s, es)
    ensures pid in Run(s, es).attached <==> Alive(es, pid, pid in s.attached)
    decreases |es|
  {
    if es != [] {
      ListenedIff(Step(s, es[0]), es[1..], pid);
    }
  }

  /** In every run exactly the processes that were spawned and have not exited are listened to. */
  lemma ExactlyLiveProcessesAttached(es: seq<Event>, pid: Pid)
    requires Legal(START, es)
    ensures pid in Run(START, es).attached <==> Alive(es, pid, false)
  {
    ListenedIff(START, es, pid);
  }

  /** The worker that was in use is dropped by the exit of another process, although it is alive. */
  predicate DropsLiveWorker(s: Proxy, e: Event)
    requires Enabled(s, e)
  {
    s.worker.Some? && Step(s, e).worker.None? && s.worker.value in Step(s, e).attached
  }

  /** The exit handler does not look at which process has gone: it drops a live worker exactly when a
      process exits that is not the present worker. */
  lemma DropsLiveWorkerIff(s: Proxy, e: Event)
    requires ProxyInv(s) && Enabled(s, e)
    ensures DropsLiveWorker(s, e) <==> e.Exit? && s.worker.Some? && s.worker.value != e.pid
  {
  }

  /** Two overlapping spawns, and the first process exits: the second one is dropped. */
  lemma ExitOfFirstDropsSecond()
    ensures var es := [Issue(1), Issue(2), SpawnDone(0, 7), SpawnDone(0, 8)];
            && Legal(START, es) && Enabled(Run(START, es), Exit(7)) && Run(START, es).worker == Some(8)
            && DropsLiveWorker(Run(START, es), Exit(7))
  {
    var s1 := Step(START, Issue(1));
    var s2 := Step(s1, Issue(2));
    assert s2.spawning == [Some(1), Some(2)];
    var s3 := Step(s2, SpawnDone(0, 7));
    assert s3.spawning == [Some(2)];
    var e0, e1, e2, e3 := Issue(1), Issue(2), SpawnDone(0, 7), SpawnDone(0, 8);
    RunLast(s3, e3);
    RunNext(s2, e2, [e3]);
    RunNext(s1, e1, [e2, e3]);
    RunNext(START, e0, [e1, e2, e3]);
    assert Step(s3, e3).attached == {7, 8};
  }

  // ---- Overlapping spawns ----

  /** Every command in the pool was sent to the worker there is now. */
  predicate Addressed(s: Proxy) {
    forall i :: 0 <= i < |s.pool| ==> s.worker == Some(s.pool[i].to)
  }

  /** The response to a command settles it exactly when it comes from the present worker. */
  lemma ResponseSettlesIff(s: Proxy, i: nat)
    requires ProxyInv(s) && i < |s.pool|
    ensures s.pool[i].uid in Step(s, Response(s.pool[i].to, s.pool[i].uid)).settled <==> s.worker == Some(s.pool[i].to)
    ensures s.worker != Some(s.pool[i].to) ==> Step(s, Response(s.pool[i].to, s.pool[i].uid)) == s
  {
    var uid := s.pool[i].uid;
    assert Uids(s.pool)[i] == uid;
    assert multiset(Uids(s.pool))[uid] >= 1;
    assert Times(s, uid) <= 1;
    assert uid !in s.settled;
    var k := Find(s.pool, uid);
    assert k < |s.pool|;
  }

  lemma SpawnKeepsAddressedIff(s: Proxy, i: nat, pid: Pid)
    requires ProxyInv(s) && Addressed(s) && Enabled(s, SpawnDone(i, pid))
    ensures Addressed(Step(s, SpawnDone(i, pid))) <==> s.worker.None? || s.pool == []
  {
    var t := Step(s, SpawnDone(i, pid));
    if s.worker.Some? && s.pool != [] {
      assert t.pool[0] == s.pool[0];
    }
  }

  /** An event leaves a pending command with a process that is not the worker exactly when it is a
      spawn that ends while there is a worker and something is pending. */
  lemma StepKeepsAddressedIff(s: Proxy, e: Event)
    requires ProxyInv(s) && Addressed(s) && Enabled(s, e)
    ensures !Addressed(Step(s, e)) <==> e.SpawnDone? && s.worker.Some? && s.pool != []
  {
    match e
    case SpawnDone(i, pid) => SpawnKeepsAddressedIff(s, i, pid);
    case _ =>
  }

  /** Two commands issued before the first worker is up: the response to the first one is ignored. */
  lemma OverlappingSpawnsStrand()
    ensures var es := [Issue(1), Issue(2), SpawnDone(0, 7), Resume(0), SpawnDone(0, 8), Resume(0), Response(7, 1)];
            && Legal(START, es)
            && Run(START, es).worker == Some(8) && Run(START, es).settled == []
            && Run(START, es).pool == [Sent(1, 7), Sent(2, 8)]
  {
    var s1 := Step(START, Issue(1));
    var s2 := Step(s1, Issue(2));
    assert s2.spawning == [Some(1), Some(2)];
    var s3 := Step(s2, SpawnDone(0, 7));
    assert s3.spawning == [Some(2)] && s3.resuming == [1] && s3.pool == [];
    var s4 := Step(s3, Resume(0));
    assert s4.pool == [Sent(1, 7)] && s4.resuming == [];
    var s5 := Step(s4, SpawnDone(0, 8));
    assert s5.spawning == [] && s5.resuming == [2] && s5.pool == [Sent(1, 7)];
    var s6 := Step(s5, Resume(0));
    assert s6.pool == [Sent(1, 7), Sent(2, 8)];
    var s7 := Step(s6, Response(7, 1));
    assert s7 == s6;
    var e0, e1, e2, e3, e4, e5, e6 :=
      Issue(1), Issue(2), SpawnDone(0, 7), Resume(0), SpawnDone(0, 8), Resume(0), Response(7, 1);
    RunLast(s6, e6);
    RunNext(s5, e5, [e6]);
    RunNext(s4, e4, [e5, e6]);
    RunNext(s3, e3, [e4, e5, e6]);
    RunNext(s2, e2, [e3, e4, e5, e6]);
    RunNext(s1, e1, [e2, e3, e4, e5, e6]);
    RunNext(START, e0, [e1, e2, e3, e4, e5, e6]);
  }

  /** No command is issued while a spawn is in flight. */
  predicate Careful(s: Proxy, es: seq<Event>)
    requires Legal(s, es)
    decreases |es|
  {
    es != [] ==> (es[0].Issue? ==> s.worker.Some? || s.spawning == []) && Careful(Step(s, es[0]), es[1..])
  }

  /** One process at a time, or one spawn. */
  predicate OneProcess(s: Proxy) {
    && Addressed(s) && QueueOrPool(s)
    && (s.worker.Some? ==> s.spawning == [] && s.attached == {s.worker.value})
    && (s.worker.None? ==> |s.spawning| <= 1 && s.attached == {})
  }

  lemma StepKeepsOneProcess(s: Proxy, e: Event)
    requires OneProcess(s) && Enabled(s, e)
    requires e.Issue? ==> s.worker.Some? || s.spawning == []
    ensures OneProcess(Step(s, e))
  {
  }

  lemma {:induction false} CarefulKeepsOneProcess(s: Proxy, es: seq<Event>)
    requires OneProcess(s) && Legal(s, es) && Careful(s, es)
    ensures OneProcess(Run(s, es))
    decreases |es|
  {
    if es != [] {
      StepKeepsOneProcess(s, es[0]);
      CarefulKeepsOneProcess(Step(s, es[0]), es[1..]);
    }
  }

  /** In a run that never issues a command during a spawn, whatever crashes: the response to every
      pending command, from the process it was sent to, settles it. */
  lemma CarefulRunsSettle(es: seq<Event>, i: nat)
    requires Legal(START, es) && Careful(START, es) && i < |Run(START, es).pool|
    ensures var s := Run(START, es);
            s.pool[i].uid in Step(s, Response(s.pool[i].to, s.pool[i].uid)).settled
  {
    CarefulKeepsOneProcess(START, es);
    StartInv();
    RunKeepsInv(START, es);
    ResponseSettlesIff(Run(START, es), i);
  }

  // ---- The class ----

  /** What is on its way outside the object (spawns, listeners, promises) is ghost state. */
  class BrowserProxyWorker {
    var worker: Option<Pid>
    var pendingCommandsQueue: seq<Uid>
    var pendingCommandsPool: seq<Sent>
    ghost var spawning: seq<Option<Uid>>
    ghost var resuming: seq<Uid>
    ghost var attached: set<Pid>
    ghost var settled: seq<Uid>
    ghost var issued: set<Uid>

    ghost function Abs(): Proxy
      reads this
    {
      Proxy(worker, pendingCommandsQueue, pendingCommandsPool, spawning, resuming, attached, settled, issued)
    }

    constructor ()
      ensures Abs() == START
    {
      worker, pendingCommandsQueue, pendingCommandsPool := None, [], [];
      spawning, resuming, attached, settled, issued := [], [], {}, [], {};
    }

    method Send(uid: Uid)
      requires worker.Some?
      modifies `pendingCommandsPool
      ensures pendingCommandsPool == old(pendingCommandsPool) + [Sent(uid, worker.value)]
    {
      pendingCommandsPool := pendingCommandsPool + [Sent(uid, worker.value)];
    }

    method OnProxyConnect()
      requires worker.Some?
      modifies `pendingCommandsQueue, `pendingCommandsPool
      ensures pendingCommandsQueue == []
      ensures pendingCommandsPool == old(pendingCommandsPool) + SendAll(old(pendingCommandsQueue), worker.value)
    {
      for i := 0 to |pendingCommandsQueue|
        invariant pendingCommandsQueue == old(pendingCommandsQueue)
        invariant pendingCommandsPool == old(pendingCommandsPool) + SendAll(pendingCommandsQueue[..i], worker.value)
      {
        assert SendAll(pendingCommandsQueue[..i + 1], worker.value) ==
               SendAll(pendingCommandsQueue[..i], worker.value) + [Sent(pendingCommandsQueue[i], worker.value)];
        Send(pendingCommandsQueue[i]);
      }
      assert pendingCommandsQueue[..|pendingCommandsQueue|] == pendingCommandsQueue;
      pendingCommandsQueue := [];
    }

    method OnProxyDisconnect()
      modifies `pendingCommandsQueue, `pendingCommandsPool
      ensures pendingCommandsPool == []
      ensures pendingCommandsQueue == old(pendingCommandsQueue) + Uids(old(pendingCommandsPool))
    {
      for i := 0 to |pendingCommandsPool|
        invariant pendingCommandsPool == old(pendingCommandsPool)
        invariant pendingCommandsQueue == old(pendingCommandsQueue) + Uids(pendingCommandsPool[..i])
      {
        assert Uids(pendingCommandsPool[..i + 1]) == Uids(pendingCommandsPool[..i]) + [pendingCommandsPool[i].uid];
        pendingCommandsQueue := pendingCommandsQueue + [pendingCommandsPool[i].uid];
      }
      assert pendingCommandsPool[..|pendingCommandsPool|] == pendingCommandsPool;
      pendingCommandsPool := [];
    }

    /** The part of `execute` before its first await, or all of it when there is a worker. */
    method Execute(uid: Uid)
      requires uid !in issued
      modifies this
      ensures Abs() == Step(old(Abs()), Issue(uid))
    {
      issued := issued + {uid};
      if worker.None? {
        spawning := spawning + [Some(uid)];
      } else {
        Send(uid);
      }
    }

    /** The rest of `execute` after the spawn it waited for. */
    method ResumeExecute(uid: Uid, ghost command: nat)
      requires command < |resuming| && resuming[command] == uid
      modifies this
      ensures Abs() == Step(old(Abs()), Resume(command))
    {
      resuming := RemoveAt(resuming, command);
      if worker.Some? {
        Send(uid);
      } else {
        pendingCommandsQueue := pendingCommandsQueue + [uid];
      }
    }

    /** The rest of `spawn` after the worker was created. */
    method EndSpawn(pid: Pid, ghost spawn: nat)
      requires Enabled(Abs(), SpawnDone(spawn, pid))
      modifies this
      ensures Abs() == Step(old(Abs()), SpawnDone(spawn, pid))
    {
      worker := Some(pid);
      attached := attached + {pid};
      OnProxyConnect();
      resuming := resuming + (if spawning[spawn].Some? then [spawning[spawn].value] else []);
      spawning := RemoveAt(spawning, spawn);
    }

    method OnExit(ghost pid: Pid)
      requires Enabled(Abs(), Exit(pid))
      modifies this
      ensures Abs() == Step(old(Abs()), Exit(pid))
    {
      worker := None;
      attached := attached - {pid};
      OnProxyDisconnect();
      spawning := spawning + [None];
    }

    /** `found` is false where the code throws a reference error. */
    method OnResponse(source: Pid, uid: Uid) returns (found: bool)
      modifies this
      ensures Abs() == Step(old(Abs()), Response(source, uid))
      ensures found <==> worker != Some(source) || uid in Uids(old(pendingCommandsPool))
    {
      if worker != Some(source) {
        return true;
      }
      var i := Find(pendingCommandsPool, uid);
      assert i < |pendingCommandsPool| ==> Uids(pendingCommandsPool)[i] == uid;
      if i == |pendingCommandsPool| {
        return false;
      }
      pendingCommandsPool := RemoveAt(pendingCommandsPool, i);
      settled := settled + [uid];
      found := true;
    }
  }
}
