/**
 The park protocol: producers publish work and then look at `parked`; a worker sets
 `parked` and then looks again at every source of work before it blocks. Each atomic
 access is one step. Worker 0 is the caller of suspenders_run and also waits for the
 run to complete; shutdown kicks the other workers unconditionally.
 */
module Parking {
  datatype WorkerPc =
    | Awake
    | CheckInbox | CheckInjector | CheckStop   // parked is set, re-checking
    | DoneInbox | DoneInjector | DoneActive | DoneWork   // worker 0: s_run_complete
    | Blocked                                  // in the backend wait
    | Leaving                                  // about to clear parked

  /** token: the wake fd is readable; inbox: entries on the worker's inbox. */
  datatype Worker = Worker(pc: WorkerPc, parked: bool, token: bool, inbox: nat)

  datatype Producer =
    | Quiet
    | Scan(i: nat)                    // s_spawn_impl: looking for the first parked worker
    | Signal(w: nat, spawner: bool)   // s_worker_signal: about to load parked
    | Write(w: nat, spawner: bool)    // saw parked, about to write the wake fd

  datatype Stopper = Up | Kick(i: nat) | Kicked

  /** active: unfinished non-daemon coroutines; work: queue tasks submitted and not finished. */
  datatype State = State(
    ws: seq<Worker>, ps: seq<Producer>, injector: nat, active: nat, work: nat, stop: bool, stopper: Stopper)

  function SetW(s: State, w: nat, x: Worker): State
    requires w < |s.ws|
  {
    s.(ws := s.ws[w := x])
  }

  function SetP(s: State, p: nat, x: Producer): State
    requires p < |s.ps|
  {
    s.(ps := s.ps[p := x])
  }

  // ---------------------------------------------------------------- workers

  ghost predicate DrainInbox(s: State, w: nat, s': State) {
    && w < |s.ws| && s.ws[w].pc == Awake
    && s' == SetW(s, w, s.ws[w].(inbox := 0))
  }

  ghost predicate TakeInjector(s: State, w: nat, s': State) {
    && w < |s.ws| && s.ws[w].pc == Awake && s.injector > 0
    && s' == s.(injector := s.injector - 1)
  }

  ghost predicate SetParked(s: State, w: nat, s': State) {
    && w < |s.ws| && s.ws[w].pc == Awake
    && s' == SetW(s, w, s.ws[w].(pc := CheckInbox, parked := true))
  }

  /** One load of the re-check; for worker 0 run completion is the last condition. */
  function CheckResult(s: State, w: nat, x: Worker): WorkerPc {
    match x.pc
    case CheckInbox => if x.inbox > 0 then Leaving else CheckInjector
    case CheckInjector => if s.injector > 0 then Leaving else CheckStop
    case CheckStop => if s.stop then Leaving else if w == 0 then DoneInbox else Blocked
    case DoneInbox => if x.inbox > 0 then Blocked else DoneInjector
    case DoneInjector => if s.injector > 0 then Blocked else DoneActive
    case DoneActive => if s.active > 0 then Blocked else DoneWork
    case DoneWork => if s.work > 0 then Blocked else Leaving
    case _ => x.pc
  }

  ghost predicate Check(s: State, w: nat, s': State) {
    && w < |s.ws| && !s.ws[w].pc.Awake? && !s.ws[w].pc.Blocked? && !s.ws[w].pc.Leaving?
    && s' == SetW(s, w, s.ws[w].(pc := CheckResult(s, w, s.ws[w])))
  }

  /** The backend wait ends: the wake fd was readable and is drained, or the timeout passed. */
  ghost predicate WakeUp(s: State, w: nat, s': State) {
    && w < |s.ws| && s.ws[w].pc == Blocked
    && (s' == SetW(s, w, s.ws[w].(pc := Leaving, token := false)) || s' == SetW(s, w, s.ws[w].(pc := Leaving)))
  }

  ghost predicate ClearParked(s: State, w: nat, s': State) {
    && w < |s.ws| && s.ws[w].pc == Leaving
    && s' == SetW(s, w, s.ws[w].(pc := Awake, parked := false))
  }

  // ---------------------------------------------------------------- producers

  ghost predicate Push(s: State, p: nat, w: nat, s': State) {
    && p < |s.ps| && s.ps[p] == Quiet && w < |s.ws|
    && s' == SetP(SetW(s, w, s.ws[w].(inbox := s.ws[w].inbox + 1)), p, Signal(w, false))
  }

  ghost predicate CountActive(s: State, s': State) {
    s' == s.(active := s.active + 1)
  }

  ghost predicate CountWork(s: State, s': State) {
    s' == s.(work := s.work + 1)
  }

  ghost predicate Spawn(s: State, p: nat, s': State) {
    && p < |s.ps| && s.ps[p] == Quiet
    && s' == SetP(s, p, Scan(0)).(injector := s.injector + 1)
  }

  ghost predicate ScanStep(s: State, p: nat, s': State) {
    && p < |s.ps| && s.ps[p].Scan?
    && var i := s.ps[p].i;
    && s' == SetP(s, p, if i >= |s.ws| then Quiet else if s.ws[i].parked then Signal(i, true) else Scan(i + 1))
  }

  ghost predicate SignalStep(s: State, p: nat, s': State) {
    && p < |s.ps| && s.ps[p].Signal? && s.ps[p].w < |s.ws|
    && s' == SetP(s, p, if s.ws[s.ps[p].w].parked then Write(s.ps[p].w, s.ps[p].spawner) else Quiet)
  }

  ghost predicate WriteStep(s: State, p: nat, s': State) {
    && p < |s.ps| && s.ps[p].Write? && s.ps[p].w < |s.ws|
    && var w := s.ps[p].w;
    && s' == SetP(SetW(s, w, s.ws[w].(token := true)), p, Quiet)
  }

  /** A coroutine or a task finishes on another worker: the last one signals worker 0. */
  ghost predicate Finish(s: State, p: nat, task: bool, s': State) {
    && p < |s.ps| && s.ps[p] == Quiet
    && var n := if task then s.work else s.active;
    && n > 0
    && var s1 := SetP(s, p, if n == 1 then Signal(0, false) else Quiet);
    && s' == if task then s1.(work := n - 1) else s1.(active := n - 1)
  }

  /** A coroutine or a task finishes on worker 0 itself. */
  ghost predicate FinishHere(s: State, task: bool, s': State) {
    && |s.ws| > 0 && s.ws[0].pc == Awake
    && if task then s.work > 0 && s' == s.(work := s.work - 1) else s.active > 0 && s' == s.(active := s.active - 1)
  }

  // ---------------------------------------------------------------- shutdown

  ghost predicate Stop(s: State, s': State) {
    && s.stopper == Up && s' == s.(stop := true, stopper := Kick(1))
  }

  ghost predicate KickStep(s: State, s': State) {
    && s.stopper.Kick?
    && var i := s.stopper.i;
    && s' == if i >= |s.ws| then s.(stopper := Kicked)
             else SetW(s, i, s.ws[i].(token := true)).(stopper := Kick(i + 1))
  }

  // ---------------------------------------------------------------- the machine

  ghost predicate WorkerNext(s: State, w: nat, s': State) {
    || DrainInbox(s, w, s') || TakeInjector(s, w, s') || SetParked(s, w, s') || Check(s, w, s') || WakeUp(s, w, s')
    || ClearParked(s, w, s')
  }

  ghost predicate ProducerNext(s: State, p: nat, w: nat, task: bool, s': State) {
    || Push(s, p, w, s') || CountActive(s, s') || CountWork(s, s') || Spawn(s, p, s') || ScanStep(s, p, s')
    || SignalStep(s, p, s') || WriteStep(s, p, s') || Finish(s, p, task, s') || FinishHere(s, task, s')
    || Stop(s, s') || KickStep(s, s')
  }

  ghost predicate Next(s: State, s': State) {
    || (exists w: nat :: WorkerNext(s, w, s'))
    || (exists p: nat, w: nat, task: bool :: ProducerNext(s, p, w, task, s'))
  }

  ghost predicate Initial(s: State) {
    && |s.ws| > 0 && s.injector == 0 && !s.stop && s.stopper == Up
    && (forall w :: 0 <= w < |s.ws| ==> s.ws[w] == Worker(Awake, false, false, 0))
    && (forall p :: 0 <= p < |s.ps| ==> s.ps[p] == Quiet)
  }

  ghost predicate Run(t: seq<State>) {
    && |t| > 0 && Initial(t[0])
    && forall i :: 0 <= i < |t| - 1 ==> Next(t[i], t[i + 1])
  }

  // ---------------------------------------------------------------- invariant

  predicate PastInbox(pc: WorkerPc) {
    !pc.Awake? && !pc.CheckInbox? && !pc.Leaving?
  }

  predicate PastInjector(pc: WorkerPc) {
    PastInbox(pc) && !pc.CheckInjector?
  }

  predicate PastStop(pc: WorkerPc) {
    PastInjector(pc) && !pc.CheckStop?
  }

  predicate Aims(x: Producer, w: nat) {
    (x.Signal? || x.Write?) && x.w == w
  }

  /** A producer will still look at, or write to, worker w. */
  ghost predicate Signalled(s: State, w: nat) {
    exists p :: 0 <= p < |s.ps| && Aims(s.ps[p], w)
  }

  ghost predicate InboxOk(s: State) {
    forall w :: 0 <= w < |s.ws| && PastInbox(s.ws[w].pc) && s.ws[w].inbox > 0 && !s.ws[w].token ==> Signalled(s, w)
  }

  ghost predicate ParkedOk(s: State) {
    && |s.ws| > 0
    && (forall w :: 0 <= w < |s.ws| ==> s.ws[w].parked == !s.ws[w].pc.Awake?)
    && (forall w :: 0 < w < |s.ws| ==>
          !s.ws[w].pc.DoneInbox? && !s.ws[w].pc.DoneInjector? && !s.ws[w].pc.DoneActive? && !s.ws[w].pc.DoneWork?)
    && (forall p :: 0 <= p < |s.ps| ==>
          (s.ps[p].Signal? ==> s.ps[p].w < |s.ws|) && (s.ps[p].Write? ==> s.ps[p].w < |s.ws|))
  }

  /** A worker that will still look at the injector. */
  predicate Looking(x: Worker) {
    !PastInjector(x.pc)
  }

  ghost predicate SomeoneLooks(s: State) {
    exists w :: 0 <= w < |s.ws| && Looking(s.ws[w])
  }

  ghost predicate SomeToken(s: State) {
    exists w :: 0 <= w < |s.ws| && s.ws[w].token
  }

  /** A spawner that still looks for a worker, or is about to wake the one it found. */
  predicate Searching(x: Producer, n: nat) {
    (x.Scan? && x.i < n) || ((x.Signal? || x.Write?) && x.spawner)
  }

  ghost predicate SomeoneSearches(s: State) {
    exists p :: 0 <= p < |s.ps| && Searching(s.ps[p], |s.ws|)
  }

  ghost predicate InjectorOk(s: State) {
    s.injector > 0 ==> SomeoneLooks(s) || SomeToken(s) || SomeoneSearches(s)
  }

  /** Worker 0 is first in every scan. */
  ghost predicate Headed(s: State) {
    exists p :: 0 <= p < |s.ps| && (s.ps[p] == Scan(0) || Aims(s.ps[p], 0))
  }

  ghost predicate RunOk(s: State)
    requires |s.ws| > 0
  {
    && (PastInjector(s.ws[0].pc) && s.injector > 0 ==> s.ws[0].token || Headed(s))
    && (s.ws[0].pc == Blocked ==> s.ws[0].token || Headed(s) || s.active > 0 || s.work > 0)
  }

  ghost predicate StopOk(s: State) {
    && (s.stop == !s.stopper.Up?)
    && (s.stopper.Kick? ==> 1 <= s.stopper.i)
    && (forall w :: 0 < w < |s.ws| && s.stop && PastStop(s.ws[w].pc) && !s.ws[w].token ==>
          s.stopper.Kick? && s.stopper.i <= w)
  }

  ghost predicate Inv(s: State) {
    ParkedOk(s) && InboxOk(s) && InjectorOk(s) && RunOk(s) && StopOk(s)
  }

  // ---------------------------------------------------------------- preservation

  /** Only producer p and worker w changed. */
  ghost predicate SameBut(s: State, s': State, p: nat, w: nat) {
    && |s'.ps| == |s.ps| && |s'.ws| == |s.ws|
    && (forall q {:trigger s.ps[q]} :: 0 <= q < |s.ps| && q != p ==> s'.ps[q] == s.ps[q])
    && (forall v {:trigger s.ws[v]} :: 0 <= v < |s.ws| && v != w ==> s'.ws[v] == s.ws[v])
  }

  lemma {:induction false} TakeOk(s: State, w: nat, s': State)
    requires Inv(s) && (DrainInbox(s, w, s') || TakeInjector(s, w, s'))
    ensures Inv(s')
  {
    assert SameBut(s, s', |s.ps|, w);
    assert Looking(s'.ws[w]);
  }

  lemma {:induction false} FlagOk(s: State, w: nat, s': State)
    requires Inv(s) && (SetParked(s, w, s') || ClearParked(s, w, s'))
    ensures Inv(s')
  {
    assert SameBut(s, s', |s.ps|, w);
    assert Looking(s'.ws[w]);
  }

  lemma {:induction false} WakeUpOk(s: State, w: nat, s': State)
    requires Inv(s) && WakeUp(s, w, s')
    ensures Inv(s')
  {
    assert SameBut(s, s', |s.ps|, w);
    assert Looking(s'.ws[w]);
  }

  lemma {:induction false} CheckOk(s: State, w: nat, s': State)
    requires Inv(s) && Check(s, w, s')
    ensures Inv(s')
  {
    assert SameBut(s, s', |s.ps|, w);
    assert s.injector > 0 && Looking(s.ws[w]) ==> Looking(s'.ws[w]);
    assert s'.ws[w].token == s.ws[w].token;
  }

  lemma {:induction false} PushOk(s: State, p: nat, w: nat, s': State)
    requires Inv(s) && Push(s, p, w, s')
    ensures Inv(s')
  {
    assert SameBut(s, s', p, w);
    assert s'.ps[p] == Signal(w, false);
    assert s'.ws[w].token == s.ws[w].token && Looking(s'.ws[w]) == Looking(s.ws[w]);
  }

  lemma {:induction false} SpawnOk(s: State, p: nat, s': State)
    requires Inv(s) && Spawn(s, p, s')
    ensures Inv(s')
  {
    assert SameBut(s, s', p, |s.ws|);
    assert s'.ps[p] == Scan(0);
  }

  /** A producer that finds nobody parked has seen a worker that will look for itself. */
  lemma {:induction false} ScanOk(s: State, p: nat, s': State)
    requires Inv(s) && ScanStep(s, p, s')
    ensures Inv(s')
  {
    assert SameBut(s, s', p, |s.ws|);
    var i := s.ps[p].i;
    assert s'.ps[p] == if i >= |s.ws| then Quiet else if s.ws[i].parked then Signal(i, true) else Scan(i + 1);
    assert i < |s.ws| && !s.ws[i].parked ==> Looking(s.ws[i]);
  }

  lemma {:induction false} SignalOk(s: State, p: nat, s': State)
    requires Inv(s) && SignalStep(s, p, s')
    ensures Inv(s')
  {
    assert SameBut(s, s', p, |s.ws|);
    var w := s.ps[p].w;
    assert s'.ps[p] == if s.ws[w].parked then Write(w, s.ps[p].spawner) else Quiet;
    assert !s.ws[w].parked ==> Looking(s.ws[w]);
  }

  lemma {:induction false} WriteOk(s: State, p: nat, s': State)
    requires Inv(s) && WriteStep(s, p, s')
    ensures Inv(s')
  {
    var w := s.ps[p].w;
    assert SameBut(s, s', p, w);
    assert s'.ws[w].token;
  }

  lemma {:induction false} FinishOk(s: State, p: nat, task: bool, s': State)
    requires Inv(s) && Finish(s, p, task, s')
    ensures Inv(s')
  {
    assert SameBut(s, s', p, |s.ws|);
    assert s'.ps[p] == Signal(0, false) || s'.ps[p] == Quiet;
  }

  lemma {:induction false} CountOk(s: State, task: bool, s': State)
    requires Inv(s) && (CountActive(s, s') || CountWork(s, s') || FinishHere(s, task, s') || Stop(s, s'))
    ensures Inv(s')
  {
    assert SameBut(s, s', |s.ps|, |s.ws|);
  }

  lemma {:induction false} KickOk(s: State, s': State)
    requires Inv(s) && KickStep(s, s')
    ensures Inv(s')
  {
    assert SameBut(s, s', |s.ps|, s.stopper.i);
    assert s.stopper.i < |s.ws| ==> s'.ws[s.stopper.i].token;
  }

  lemma {:induction false} NextInv(s: State, s': State)
    requires Inv(s) && Next(s, s')
    ensures Inv(s')
  {
    if w: nat :| WorkerNext(s, w, s') {
      if Check(s, w, s') {
        CheckOk(s, w, s');
      } else if WakeUp(s, w, s') {
        WakeUpOk(s, w, s');
      } else if SetParked(s, w, s') || ClearParked(s, w, s') {
        FlagOk(s, w, s');
      } else {
        TakeOk(s, w, s');
      }
    } else {
      var p: nat, w: nat, task: bool :| ProducerNext(s, p, w, task, s');
      ProducerNextInv(s, p, w, task, s');
    }
  }

  lemma {:induction false} ProducerNextInv(s: State, p: nat, w: nat, task: bool, s': State)
    requires Inv(s) && ProducerNext(s, p, w, task, s')
    ensures Inv(s')
  {
    if Push(s, p, w, s') {
      PushOk(s, p, w, s');
    } else if Spawn(s, p, s') {
      SpawnOk(s, p, s');
    } else if ScanStep(s, p, s') {
      ScanOk(s, p, s');
    } else if SignalStep(s, p, s') {
      SignalOk(s, p, s');
    } else if WriteStep(s, p, s') {
      WriteOk(s, p, s');
    } else if Finish(s, p, task, s') {
      FinishOk(s, p, task, s');
    } else if KickStep(s, s') {
      KickOk(s, s');
    } else {
      CountOk(s, task, s');
    }
  }

  lemma {:induction false} RunInv(t: seq<State>, i: nat)
    requires Run(t) && i < |t|
    ensures Inv(t[i])
  {
    if i > 0 {
      RunInv(t, i - 1);
      assert Next(t[i - 1], t[i - 1 + 1]);
      NextInv(t[i - 1], t[i]);
    }
  }

  // ---------------------------------------------------------------- theorems

  /** A worker blocked without a wake token has an empty inbox, or a producer is still about to signal it. */
  lemma {:induction false} BlockedInboxEmpty(t: seq<State>, i: nat, w: nat)
    requires Run(t) && i < |t| && w < |t[i].ws| && t[i].ws[w].pc == Blocked && !t[i].ws[w].token
    ensures t[i].ws[w].inbox == 0 || Signalled(t[i], w)
  {
    RunInv(t, i);
  }

  /** A nonempty injector has a worker that will look at it, a pending token, or a spawner still searching. */
  lemma {:induction false} InjectorAttended(t: seq<State>, i: nat)
    requires Run(t) && i < |t| && t[i].injector > 0
    ensures SomeoneLooks(t[i]) || SomeToken(t[i]) || SomeoneSearches(t[i])
  {
    RunInv(t, i);
  }

  /** suspenders_run does not sleep through the end of the run. */
  lemma {:induction false} RunCompletionSeen(t: seq<State>, i: nat)
    requires Run(t) && i < |t| && |t[i].ws| > 0 && t[i].ws[0].pc == Blocked && !t[i].ws[0].token
    requires t[i].active == 0 && t[i].work == 0
    ensures Headed(t[i])
  {
    RunInv(t, i);
  }

  /** After the kicks of shutdown no helper stays blocked. */
  lemma {:induction false} ShutdownReachesAll(t: seq<State>, i: nat, w: nat)
    requires Run(t) && i < |t| && 0 < w < |t[i].ws| && t[i].stopper == Kicked && t[i].ws[w].pc == Blocked
    ensures t[i].ws[w].token
  {
    RunInv(t, i);
  }
}
