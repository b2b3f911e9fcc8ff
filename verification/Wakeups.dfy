/**
 How a worker's coroutines are woken, run, finished and reclaimed.

 One worker is modelled with all coroutines that pin to it, any one of several: what the
 others pin, spawn and destroy is `away`, and every other thread (other workers, foreign
 threads) is an agent whose atomic accesses interleave freely with the worker's loop.
 Cross-worker wakes go through the MPSC inbox, deduplicated by `wake_inflight`; a wake that
 finds its target not suspended leaves `pending_wake`.

 The four QoS lists are one list from which any element may be picked, so nothing is
 claimed about priorities. A caller of resume or cancel keeps the coroutine alive for
 the duration of the call.
 */
module Wakeups {
  import opened Lists

  /** `Elsewhere`: pinned to another worker, which alone knows more. */
  datatype CrState = Ready | Running | Suspended | Done | Elsewhere

  datatype Busy = No | By(g: nat)

  /** `wake_inflight`, with the place of the entry that holds it. */
  datatype Flight = Clear | Pushing(g: nat) | Queued | Draining

  datatype Cr = Cr(
    st: CrState,
    inWait: bool,       // inside s_wait_block
    decided: bool,      // wq_node.status is final
    busy: Busy,         // wq_node.waker_busy, raised by a foreign decider
    flight: Flight,
    pending: bool,
    destroyed: nat)     // how often the arena has been destroyed

  datatype Pc =
    | Top
    | Drain
    | Deliver(c: nat, run: bool)   // about to run s_inbox_deliver; run: called after c switched out
    | Pick
    | In(c: nat)                   // c runs
    | Sleepy(c: nat)               // c has read status == WAITING and is about to suspend
    | Out(c: nat)                  // c has switched out
    | Reap
    | Fire                         // back from the backend wait, timers fire
    | Stopping                     // shutdown: reclaim what is left
    | Stopped

  datatype Head = Nil | Head(c: nat)

  datatype Agent =
    | Away
    | Granted(c: nat)                            // decided c's wait, has not woken it yet
    | Stray(c: nat)                              // a resume or cancel from another thread
    | Push(c: nat, decider: bool)                // won the exchange on wake_inflight
    | Cas(c: nat, decider: bool, h: Head)        // has read the inbox head
    | Ending(c: nat)                             // about to clear waker_busy

  datatype State = State(
    cr: seq<Cr>, injector: seq<nat>, live: set<nat>, ready: seq<nat>,
    inbox: seq<nat>, drain: seq<nat>, zombies: seq<nat>, away: set<nat>, pc: Pc, ag: seq<Agent>)

  function Top1(l: seq<nat>): Head {
    if l == [] then Nil else Head(l[0])
  }

  function Reversed(l: seq<nat>): seq<nat> {
    if l == [] then [] else Reversed(l[1..]) + [l[0]]
  }

  function SetCr(s: State, c: nat, x: Cr): State
    requires c < |s.cr|
  {
    s.(cr := s.cr[c := x])
  }

  function SetAg(s: State, g: nat, x: Agent): State
    requires g < |s.ag|
  {
    s.(ag := s.ag[g := x])
  }

  /** suspenders_ready_enqueue. */
  function Enqueue(s: State, c: nat): State
    requires c < |s.cr|
  {
    SetCr(s, c, s.cr[c].(st := Ready)).(ready := s.ready + [c])
  }

  predicate Up(s: State) {
    !s.pc.Stopping? && !s.pc.Stopped?
  }

  // ---------------------------------------------------------------- agents

  /** Another thread decides the wait of c: busy, then the final status. */
  ghost predicate Grant(s: State, g: nat, c: nat, s': State) {
    && Up(s) && g < |s.ag| && s.ag[g] == Away
    && c < |s.cr| && c in s.live && s.cr[c].inWait && !s.cr[c].decided
    && s' == SetAg(SetCr(s, c, s.cr[c].(decided := true, busy := By(g))), g, Granted(c))
  }

  ghost predicate CallResume(s: State, g: nat, c: nat, s': State) {
    && Up(s) && g < |s.ag| && s.ag[g] == Away && c < |s.cr| && c in s.live && s.cr[c].st != Done
    && s' == SetAg(s, g, Stray(c))
  }

  function AfterWake(c: nat, decider: bool): Agent {
    if decider then Ending(c) else Away
  }

  /** The exchange on wake_inflight: a pending entry makes the push unnecessary. */
  ghost predicate Exchange(s: State, g: nat, s': State) {
    && Up(s) && g < |s.ag| && (s.ag[g].Granted? || s.ag[g].Stray?)
    && var c := s.ag[g].c;
    && var decider := s.ag[g].Granted?;
    && c < |s.cr|
    && s' == if s.cr[c].flight != Clear then SetAg(s, g, AfterWake(c, decider))
             else SetAg(SetCr(s, c, s.cr[c].(flight := Pushing(g))), g, Push(c, decider))
  }

  ghost predicate ReadHead(s: State, g: nat, s': State) {
    && Up(s) && g < |s.ag| && s.ag[g].Push?
    && s' == SetAg(s, g, Cas(s.ag[g].c, s.ag[g].decider, Top1(s.inbox)))
  }

  /** The compare-and-swap: c's link already points at h, so it succeeds exactly when h is still the head. */
  ghost predicate CasHead(s: State, g: nat, s': State) {
    && Up(s) && g < |s.ag| && s.ag[g].Cas?
    && var c := s.ag[g].c;
    && c < |s.cr|
    && s' == if s.ag[g].h != Top1(s.inbox) then SetAg(s, g, Push(c, s.ag[g].decider))
             else SetAg(SetCr(s, c, s.cr[c].(flight := Queued)), g, AfterWake(c, s.ag[g].decider)).(inbox := [c] + s.inbox)
  }

  ghost predicate DecideEnd(s: State, g: nat, s': State) {
    && Up(s) && g < |s.ag| && s.ag[g].Ending? && s.ag[g].c < |s.cr|
    && s' == SetAg(SetCr(s, s.ag[g].c, s.cr[s.ag[g].c].(busy := No)), g, Away)
  }

  /** A spawn from another thread, or with several workers: the coroutine waits in the injector. */
  ghost predicate SpawnInjector(s: State, s': State) {
    && Up(s)
    && s' == s.(cr := s.cr + [Cr(Ready, false, true, No, Clear, false, 0)], injector := s.injector + [|s.cr|])
  }

  // ---------------------------------------------------------------- what other workers do to coroutines that are not ours

  ghost predicate TakenElsewhere(s: State, c: nat, s': State) {
    && c in s.injector && c < |s.cr|
    && s' == SetCr(s, c, s.cr[c].(st := Elsewhere)).(injector := Remove(s.injector, c), away := s.away + {c})
  }

  ghost predicate SpawnElsewhere(s: State, s': State) {
    s' == s.(cr := s.cr + [Cr(Elsewhere, false, true, No, Clear, false, 0)], away := s.away + {|s.cr|})
  }

  ghost predicate GoneElsewhere(s: State, c: nat, s': State) {
    && c in s.away && c < |s.cr|
    && s' == SetCr(s, c, s.cr[c].(destroyed := s.cr[c].destroyed + 1)).(away := s.away - {c})
  }

  ghost predicate OthersNext(s: State, c: nat, s': State) {
    TakenElsewhere(s, c, s') || SpawnElsewhere(s, s') || GoneElsewhere(s, c, s')
  }

  // ---------------------------------------------------------------- the worker's loop

  ghost predicate TopStep(s: State, s': State) {
    && s.pc == Top
    && s' == if s.inbox == [] then s.(pc := Pick)
             else s.(pc := Drain, inbox := [], drain := Reversed(s.inbox),
                     cr := seq(|s.cr|, i requires 0 <= i < |s.cr| =>
                       if s.cr[i].flight == Queued then s.cr[i].(flight := Draining) else s.cr[i]))
  }

  ghost predicate DrainStep(s: State, s': State) {
    && s.pc == Drain
    && if s.drain == [] then s' == s.(pc := Pick)
       else s.drain[0] < |s.cr| &&
            s' == SetCr(s, s.drain[0], s.cr[s.drain[0]].(flight := Clear)).(pc := Deliver(s.drain[0], false), drain := s.drain[1..])
  }

  /** s_inbox_deliver; canceled: the cancel flag is set, so an undecided wait is decided here. */
  ghost predicate DeliverStep(s: State, canceled: bool, s': State) {
    && s.pc.Deliver? && s.pc.c < |s.cr|
    && var c := s.pc.c;
    && var x := s.cr[c];
    && var pc' := if s.pc.run then Top else Drain;
    && s' == (if canceled && x.inWait && !x.decided then
                var s1 := SetCr(s, c, x.(decided := true));
                if x.st == Suspended then Enqueue(s1, c) else s1
              else if x.st == Suspended then Enqueue(s, c)
              else if x.st != Done then SetCr(s, c, x.(pending := true))
              else s).(pc := pc')
  }

  ghost predicate PickReady(s: State, c: nat, s': State) {
    && s.pc == Pick && c in s.ready && c < |s.cr|
    && s' == SetCr(s, c, s.cr[c].(st := Running)).(pc := In(c), ready := Remove(s.ready, c))
  }

  /** s_injector_take: pin, link as live, carry over an early cancel. */
  ghost predicate PickInjector(s: State, c: nat, canceled: bool, s': State) {
    && s.pc == Pick && s.ready == [] && c in s.injector && c < |s.cr|
    && s' == SetCr(s, c, s.cr[c].(st := Running, pending := s.cr[c].pending || canceled)).(
               pc := In(c), injector := Remove(s.injector, c), live := s.live + {c})
  }

  ghost predicate PickNone(s: State, s': State) {
    && s.pc == Pick && s.ready == []
    && s' == s.(pc := Reap)
  }

  ghost predicate ReapStep(s: State, s': State) {
    && s.pc == Reap
    && if s.zombies == [] then s' == s.(pc := Fire)
       else s.zombies[0] < |s.cr| &&
            var c := s.zombies[0];
            s' == SetCr(s, c, s.cr[c].(destroyed := s.cr[c].destroyed + 1)).(zombies := s.zombies[1..])
  }

  ghost predicate FireDone(s: State, s': State) {
    && s.pc == Fire && s' == s.(pc := Top)
  }

  /** A decision taken on this worker: by the running coroutine, or by a timer or cancel. */
  ghost predicate LocalDecide(s: State, c: nat, s': State) {
    && (s.pc.In? || s.pc == Fire) && c < |s.cr| && c in s.live && s.cr[c].inWait && !s.cr[c].decided
    && s.cr[c].st != Running
    && var s1 := SetCr(s, c, s.cr[c].(decided := true));
    && s' == if s.cr[c].st == Suspended then Enqueue(s1, c) else s1
  }

  ghost predicate LocalResume(s: State, c: nat, s': State) {
    && (s.pc.In? || s.pc == Fire) && c < |s.cr| && c in s.live && s.cr[c].st == Suspended
    && s' == Enqueue(s, c)
  }

  /** With one worker a spawn goes straight to the ready list. */
  ghost predicate SpawnLocal(s: State, s': State) {
    && s.pc.In?
    && var c := |s.cr|;
    && s' == s.(cr := s.cr + [Cr(Ready, false, true, No, Clear, false, 0)], live := s.live + {c}, ready := s.ready + [c])
  }

  // ---------------------------------------------------------------- the running coroutine

  ghost predicate BeginWait(s: State, s': State) {
    && s.pc.In? && s.pc.c < |s.cr| && !s.cr[s.pc.c].inWait
    && s' == SetCr(s, s.pc.c, s.cr[s.pc.c].(inWait := true, decided := false))
  }

  ghost predicate SeeWaiting(s: State, s': State) {
    && s.pc.In? && s.pc.c < |s.cr| && s.cr[s.pc.c].inWait && !s.cr[s.pc.c].decided
    && s' == s.(pc := Sleepy(s.pc.c))
  }

  ghost predicate Suspend(s: State, s': State) {
    && (s.pc.Sleepy? || s.pc.In?) && s.pc.c < |s.cr| && (s.pc.In? ==> !s.cr[s.pc.c].inWait)
    && s' == SetCr(s, s.pc.c, s.cr[s.pc.c].(st := Suspended)).(pc := Out(s.pc.c))
  }

  ghost predicate EndWait(s: State, s': State) {
    && s.pc.In? && s.pc.c < |s.cr| && s.cr[s.pc.c].inWait && s.cr[s.pc.c].decided && s.cr[s.pc.c].busy == No
    && s' == SetCr(s, s.pc.c, s.cr[s.pc.c].(inWait := false))
  }

  /** suspenders_yield, a QoS preemption, or a turn of s_wait_decider_sync. */
  ghost predicate Yield(s: State, s': State) {
    && s.pc.In? && s.pc.c < |s.cr|
    && s' == Enqueue(s, s.pc.c).(pc := Out(s.pc.c))
  }

  ghost predicate CallsInto(x: Agent, c: nat) {
    x == Stray(c) || x == Push(c, false) || (x.Cas? && x.c == c && !x.decider)
  }

  /** suspenders_cr_exit; nobody is in the middle of a resume or cancel of this coroutine. */
  ghost predicate Exit(s: State, s': State) {
    && s.pc.In? && s.pc.c < |s.cr| && !s.cr[s.pc.c].inWait
    && (forall g :: 0 <= g < |s.ag| ==> !CallsInto(s.ag[g], s.pc.c))
    && s' == SetCr(s, s.pc.c, s.cr[s.pc.c].(st := Done)).(
               pc := Out(s.pc.c), live := s.live - {s.pc.c}, zombies := [s.pc.c] + s.zombies)
  }

  ghost predicate OutStep(s: State, s': State) {
    && s.pc.Out? && s.pc.c < |s.cr|
    && var c := s.pc.c;
    && s' == if s.cr[c].pending && s.cr[c].st != Done
             then SetCr(s, c, s.cr[c].(pending := false)).(pc := Deliver(c, true))
             else s.(pc := Top)
  }

  // ---------------------------------------------------------------- shutdown

  ghost predicate Stop(s: State, s': State) {
    && s.pc == Top && s' == s.(pc := Stopping)
  }

  /** What is left in the injector is destroyed, here or by the thread that shuts down. */
  ghost predicate DropInjector(s: State, c: nat, s': State) {
    && s.pc == Stopping && c in s.injector && c < |s.cr|
    && s' == SetCr(s, c, s.cr[c].(destroyed := s.cr[c].destroyed + 1)).(injector := Remove(s.injector, c))
  }

  /** The zombies and then the live list are reclaimed. */
  ghost predicate StopStep(s: State, c: nat, s': State) {
    && s.pc == Stopping
    && if s.zombies != [] then
         c == s.zombies[0] && c < |s.cr| &&
         s' == SetCr(s, c, s.cr[c].(destroyed := s.cr[c].destroyed + 1)).(zombies := s.zombies[1..])
       else if s.live != {} then
         c in s.live && c < |s.cr| &&
         s' == SetCr(s, c, s.cr[c].(destroyed := s.cr[c].destroyed + 1)).(live := s.live - {c})
       else s.injector == [] && s' == s.(pc := Stopped)
  }

  // ---------------------------------------------------------------- the machine

  ghost predicate AgentNext(s: State, g: nat, c: nat, s': State) {
    || Grant(s, g, c, s') || CallResume(s, g, c, s') || Exchange(s, g, s') || ReadHead(s, g, s') || CasHead(s, g, s')
    || DecideEnd(s, g, s') || SpawnInjector(s, s')
  }

  ghost predicate WorkerNext(s: State, i: nat, canceled: bool, s': State) {
    || TopStep(s, s') || DrainStep(s, s') || DeliverStep(s, canceled, s') || PickReady(s, i, s') || PickInjector(s, i, canceled, s')
    || PickNone(s, s') || ReapStep(s, s') || FireDone(s, s') || Stop(s, s') || StopStep(s, i, s') || DropInjector(s, i, s')
  }

  ghost predicate RunningNext(s: State, c: nat, s': State) {
    || LocalDecide(s, c, s') || LocalResume(s, c, s') || SpawnLocal(s, s') || BeginWait(s, s') || SeeWaiting(s, s')
    || Suspend(s, s') || EndWait(s, s') || Yield(s, s') || Exit(s, s') || OutStep(s, s')
  }

  ghost predicate Next(s: State, s': State) {
    || (exists g: nat, c: nat :: AgentNext(s, g, c, s'))
    || (exists i: nat, canceled: bool :: WorkerNext(s, i, canceled, s'))
    || (exists c: nat :: RunningNext(s, c, s'))
    || (exists c: nat :: OthersNext(s, c, s'))
  }

  ghost predicate Initial(s: State) {
    && s.cr == [] && s.injector == [] && s.live == {} && s.ready == [] && s.inbox == [] && s.drain == [] && s.zombies == [] && s.away == {}
    && s.pc == Top && (forall g :: 0 <= g < |s.ag| ==> s.ag[g] == Away)
  }

  ghost predicate Run(t: seq<State>) {
    && |t| > 0 && Initial(t[0])
    && forall i :: 0 <= i < |t| - 1 ==> Next(t[i], t[i + 1])
  }

  // ---------------------------------------------------------------- invariant

  predicate Current(pc: Pc, c: nat) {
    (pc.In? || pc.Sleepy?) && pc.c == c
  }

  predicate Decides(x: Agent, c: nat) {
    x == Granted(c) || x == Push(c, true) || x == Ending(c) || (x.Cas? && x.c == c && x.decider)
  }

  predicate Pushes(x: Agent, c: nat) {
    (x.Push? || x.Cas?) && x.c == c
  }

  /** A wake for c is on its way. */
  predicate WakeComing(s: State, c: nat, x: Cr) {
    || x.flight != Clear
    || (s.pc.Deliver? && s.pc.c == c)
    || (x.busy.By? && x.busy.g < |s.ag| && s.ag[x.busy.g] == Granted(c))
    || (x.pending && (s.pc == Out(c) || s.pc == Sleepy(c)))
  }

  /** No wake lost: a decided wait whose coroutine sleeps, or is about to, has a wake coming. */
  predicate WakeOk(s: State, c: nat, x: Cr) {
    x.inWait && x.decided && (x.st == Suspended || s.pc == Sleepy(c)) ==> WakeComing(s, c, x)
  }

  predicate FlightOk(s: State, c: nat, x: Cr) {
    && (x.flight == Queued <==> c in s.inbox)
    && (x.flight == Draining <==> c in s.drain)
    && (x.flight.Pushing? ==> x.flight.g < |s.ag| && Pushes(s.ag[x.flight.g], c))
  }

  predicate BusyOk(s: State, c: nat, x: Cr) {
    x.busy.By? ==> x.busy.g < |s.ag| && Decides(s.ag[x.busy.g], c) && x.inWait && x.decided && x.st != Done
  }

  /** READY means linked once in the ready list, or still in the injector. */
  predicate StateOk(s: State, c: nat, x: Cr) {
    && (c in s.ready <==> x.st == Ready && c in s.live)
    && (c in s.injector ==> x.st == Ready && x.flight == Clear && !x.inWait)
    && (c in s.live ==> x.st != Done) && (x.st == Suspended ==> c in s.live)
    && (x.st == Running <==> Current(s.pc, c))
    && (Current(s.pc, c) ==> c in s.live)
    && (x.st == Done ==> !x.inWait)
    && (s.pc == Sleepy(c) ==> x.inWait)
    && ReadyPlaced(s, c, x)
    && (x.st == Elsewhere ==> c !in s.live && x.flight == Clear && !x.inWait)
    && ((s.pc.Deliver? || s.pc.Out?) && s.pc.c == c ==> x.st != Elsewhere && c !in s.injector)
  }

  predicate ReadyPlaced(s: State, c: nat, x: Cr) {
    x.st == Ready ==> c in s.live || c in s.injector
  }

  /** Each coroutine is in exactly one of injector, live list and zombie list, with another worker, or its arena is gone. */
  predicate PlaceOk(s: State, c: nat, x: Cr) {
    && !(c in s.injector && c in s.live) && !(c in s.injector && c in s.zombies) && !(c in s.live && c in s.zombies)
    && (c in s.away ==> c !in s.injector && c !in s.live && c !in s.zombies && x.st == Elsewhere)
    && x.destroyed == (if c in s.injector || c in s.live || c in s.zombies || c in s.away then 0 else 1)
    && (c in s.zombies ==> x.st == Done)
  }

  /** A finished coroutine leaves the inbox before it can be reaped. */
  predicate GoneOk(s: State, c: nat, x: Cr) {
    x.st == Done ==>
      && !x.flight.Pushing?
      && (c !in s.zombies || s.pc.Pick? || s.pc.In? || s.pc.Sleepy? || s.pc.Reap? || s.pc.Fire? ==> x.flight == Clear)
      && (s.pc.Drain? || (s.pc.Deliver? && !s.pc.run) ==> x.flight != Queued)
      && (s.pc.Deliver? && s.pc.c == c ==> c in s.zombies)
  }

  ghost predicate PlacesOk(s: State) {
    forall c :: 0 <= c < |s.cr| ==> PlaceOk(s, c, s.cr[c])
  }

  ghost predicate StatesOk(s: State) {
    Up(s) ==> forall c :: 0 <= c < |s.cr| ==> StateOk(s, c, s.cr[c])
  }

  ghost predicate FlightsOk(s: State) {
    Up(s) ==> forall c :: 0 <= c < |s.cr| ==> FlightOk(s, c, s.cr[c]) && BusyOk(s, c, s.cr[c])
  }

  ghost predicate WakesOk(s: State) {
    Up(s) ==> forall c :: 0 <= c < |s.cr| ==> WakeOk(s, c, s.cr[c])
  }

  ghost predicate GoneAll(s: State) {
    Up(s) ==> forall c :: 0 <= c < |s.cr| ==> GoneOk(s, c, s.cr[c])
  }

  predicate AgentOk(s: State, g: nat, x: Agent) {
    match x
    case Away => true
    case Granted(c) => c < |s.cr| && c in s.live && s.cr[c].busy == By(g)
    case Stray(c) => c < |s.cr| && c in s.live
    case Push(c, decider) => c < |s.cr| && c in s.live && s.cr[c].flight == Pushing(g) && (decider ==> s.cr[c].busy == By(g))
    case Cas(c, decider, h) => c < |s.cr| && c in s.live && s.cr[c].flight == Pushing(g) && (decider ==> s.cr[c].busy == By(g))
    case Ending(c) => c < |s.cr| && c in s.live && s.cr[c].busy == By(g)
  }

  ghost predicate AgentsOk(s: State) {
    Up(s) ==> forall g :: 0 <= g < |s.ag| ==> AgentOk(s, g, s.ag[g])
  }

  ghost predicate ListsOk(s: State) {
    && NoDup(s.ready) && NoDup(s.inbox) && NoDup(s.drain) && NoDup(s.zombies) && NoDup(s.injector)
    && (forall c: nat :: c in s.ready || c in s.inbox || c in s.drain || c in s.zombies || c in s.injector || c in s.live || c in s.away ==> c < |s.cr|)
    && (s.drain != [] ==> s.pc.Drain? || (s.pc.Deliver? && !s.pc.run))
    && (s.pc.In? || s.pc.Sleepy? || s.pc.Out? || s.pc.Deliver? ==> s.pc.c < |s.cr|)
    && (s.pc == Stopped ==> s.injector == [] && s.zombies == [] && s.live == {})
  }

  ghost predicate Inv(s: State) {
    ListsOk(s) && PlacesOk(s) && StatesOk(s) && FlightsOk(s) && WakesOk(s) && GoneAll(s) && AgentsOk(s)
  }

  // ---------------------------------------------------------------- list facts

  lemma {:induction false} ReversedFacts(l: seq<nat>)
    requires NoDup(l)
    ensures forall c: nat :: c in Reversed(l) <==> c in l
    ensures NoDup(Reversed(l))
  {
    if l != [] {
      var t := l[1..];
      assert l == [l[0]] + t;
      assert l[0] !in t;
      ReversedFacts(t);
    }
  }

  // ---------------------------------------------------------------- preservation

  lemma {:induction false} TopOk(s: State, s': State)
    requires Inv(s) && TopStep(s, s')
    ensures Inv(s')
  {
    ReversedFacts(s.inbox);
    TopFlights(s, s');
  }

  lemma {:induction false} TopFlights(s: State, s': State)
    requires ListsOk(s) && FlightsOk(s) && TopStep(s, s')
    ensures ListsOk(s') && FlightsOk(s')
  {
    ReversedFacts(s.inbox);
  }

  lemma {:induction false} DrainPart(s: State, s': State)
    requires Inv(s) && DrainStep(s, s')
    ensures ListsOk(s') && PlacesOk(s') && StatesOk(s') && GoneAll(s') && AgentsOk(s')
  {
  }

  lemma {:induction false} DrainOk(s: State, s': State)
    requires Inv(s) && DrainStep(s, s')
    ensures Inv(s')
  {
    DrainPart(s, s');
    DrainWakes(s, s');
  }

  lemma {:induction false} DrainWakes(s: State, s': State)
    requires ListsOk(s) && FlightsOk(s) && WakesOk(s) && DrainStep(s, s')
    ensures FlightsOk(s') && WakesOk(s')
  {
    if s.drain != [] {
      assert s.drain == [s.drain[0]] + s.drain[1..];
      assert s.drain[0] !in s.drain[1..];
    }
  }

  lemma {:induction false} DeliverStates(s: State, canceled: bool, s': State)
    requires Inv(s) && DeliverStep(s, canceled, s')
    ensures StatesOk(s')
  {
    assert StateOk(s, s.pc.c, s.cr[s.pc.c]);
  }

  lemma {:induction false} DeliverPart(s: State, canceled: bool, s': State)
    requires Inv(s) && DeliverStep(s, canceled, s')
    ensures ListsOk(s') && PlacesOk(s') && StatesOk(s')
  {
    assert StateOk(s, s.pc.c, s.cr[s.pc.c]);
    DeliverStates(s, canceled, s');
  }

  lemma {:induction false} DeliverWakes(s: State, canceled: bool, s': State)
    requires Inv(s) && DeliverStep(s, canceled, s')
    ensures FlightsOk(s') && AgentsOk(s')
  {
    assert FlightOk(s, s.pc.c, s.cr[s.pc.c]) && BusyOk(s, s.pc.c, s.cr[s.pc.c]);
  }

  lemma {:induction false} DeliverGone(s: State, canceled: bool, s': State)
    requires Inv(s) && DeliverStep(s, canceled, s')
    ensures WakesOk(s') && GoneAll(s')
  {
  }

  lemma {:induction false} SpawnInjectorPlaces(s: State, s': State)
    requires Inv(s) && SpawnInjector(s, s')
    ensures ListsOk(s') && PlacesOk(s') && StatesOk(s')
  {
    assert |s.cr| !in s.injector;
  }

  lemma {:induction false} SpawnInjectorWakes(s: State, s': State)
    requires Inv(s) && SpawnInjector(s, s')
    ensures FlightsOk(s') && WakesOk(s') && GoneAll(s') && AgentsOk(s')
  {
    assert |s.cr| !in s.injector;
  }

  lemma {:induction false} SpawnInjectorOk(s: State, s': State)
    requires Inv(s) && SpawnInjector(s, s')
    ensures Inv(s')
  {
    SpawnInjectorPlaces(s, s');
    SpawnInjectorWakes(s, s');
  }

  lemma {:induction false} SpawnLocalOk(s: State, s': State)
    requires Inv(s) && SpawnLocal(s, s')
    ensures Inv(s')
  {
    assert |s.cr| !in s.ready;
  }

  lemma {:induction false} GrantOk(s: State, g: nat, c: nat, s': State)
    requires Inv(s) && Grant(s, g, c, s')
    ensures Inv(s')
  {
  }

  lemma {:induction false} CallResumeOk(s: State, g: nat, c: nat, s': State)
    requires Inv(s) && CallResume(s, g, c, s')
    ensures Inv(s')
  {
  }

  lemma {:induction false} ExchangePlaces(s: State, g: nat, s': State)
    requires Inv(s) && Exchange(s, g, s')
    ensures ListsOk(s') && PlacesOk(s') && StatesOk(s')
  {
  }

  lemma {:induction false} ExchangeWakes(s: State, g: nat, s': State)
    requires Inv(s) && Exchange(s, g, s')
    ensures FlightsOk(s') && WakesOk(s') && GoneAll(s') && AgentsOk(s')
  {
  }

  lemma {:induction false} ExchangeOk(s: State, g: nat, s': State)
    requires Inv(s) && Exchange(s, g, s')
    ensures Inv(s')
  {
    ExchangePlaces(s, g, s');
    ExchangeWakes(s, g, s');
  }

  lemma {:induction false} CasPart(s: State, g: nat, s': State)
    requires Inv(s) && CasHead(s, g, s')
    ensures ListsOk(s') && PlacesOk(s') && StatesOk(s') && AgentsOk(s')
  {
    assert AgentOk(s, g, s.ag[g]);
  }

  lemma {:induction false} CasOk(s: State, g: nat, s': State)
    requires Inv(s) && CasHead(s, g, s')
    ensures Inv(s')
  {
    CasPart(s, g, s');
    CasWakes(s, g, s');
  }

  lemma {:induction false} CasWakes(s: State, g: nat, s': State)
    requires Inv(s) && CasHead(s, g, s')
    ensures FlightsOk(s') && WakesOk(s') && GoneAll(s')
  {
    assert AgentOk(s, g, s.ag[g]);
  }

  lemma {:induction false} ReadHeadOk(s: State, g: nat, s': State)
    requires Inv(s) && ReadHead(s, g, s')
    ensures Inv(s')
  {
  }

  lemma {:induction false} DecideEndPlaces(s: State, g: nat, s': State)
    requires Inv(s) && DecideEnd(s, g, s')
    ensures ListsOk(s') && PlacesOk(s') && StatesOk(s')
  {
  }

  lemma {:induction false} DecideEndWakes(s: State, g: nat, s': State)
    requires Inv(s) && DecideEnd(s, g, s')
    ensures FlightsOk(s') && WakesOk(s') && GoneAll(s') && AgentsOk(s')
  {
  }

  lemma {:induction false} DecideEndOk(s: State, g: nat, s': State)
    requires Inv(s) && DecideEnd(s, g, s')
    ensures Inv(s')
  {
    DecideEndPlaces(s, g, s');
    DecideEndWakes(s, g, s');
  }

  lemma {:induction false} AgentEndOk(s: State, g: nat, s': State)
    requires Inv(s) && (ReadHead(s, g, s') || DecideEnd(s, g, s'))
    ensures Inv(s')
  {
    if ReadHead(s, g, s') {
      ReadHeadOk(s, g, s');
    } else {
      DecideEndOk(s, g, s');
    }
  }

  lemma {:induction false} PickReadyPlaces(s: State, c: nat, s': State)
    requires Inv(s) && PickReady(s, c, s')
    ensures ListsOk(s') && PlacesOk(s') && StatesOk(s')
  {
    RemoveFacts(s.ready, c);
  }

  lemma {:induction false} PickReadyWakes(s: State, c: nat, s': State)
    requires Inv(s) && PickReady(s, c, s')
    ensures FlightsOk(s') && WakesOk(s') && GoneAll(s') && AgentsOk(s')
  {
    RemoveFacts(s.ready, c);
  }

  lemma {:induction false} PickReadyOk(s: State, c: nat, s': State)
    requires Inv(s) && PickReady(s, c, s')
    ensures Inv(s')
  {
    PickReadyPlaces(s, c, s');
    PickReadyWakes(s, c, s');
  }

  lemma {:induction false} PickInjectorOk(s: State, c: nat, canceled: bool, s': State)
    requires Inv(s) && PickInjector(s, c, canceled, s')
    ensures Inv(s')
  {
    RemoveFacts(s.injector, c);
  }

  lemma {:induction false} ReapPlaces(s: State, s': State)
    requires Inv(s) && ReapStep(s, s')
    ensures ListsOk(s') && PlacesOk(s') && StatesOk(s')
  {
  }

  lemma {:induction false} ReapWakes(s: State, s': State)
    requires Inv(s) && ReapStep(s, s')
    ensures FlightsOk(s') && WakesOk(s') && GoneAll(s') && AgentsOk(s')
  {
  }

  lemma {:induction false} ReapOk(s: State, s': State)
    requires Inv(s) && ReapStep(s, s')
    ensures Inv(s')
  {
    ReapPlaces(s, s');
    ReapWakes(s, s');
  }

  lemma {:induction false} MoveOk(s: State, s': State)
    requires Inv(s) && (Stop(s, s') || FireDone(s, s') || PickNone(s, s'))
    ensures Inv(s')
  {
  }

  lemma {:induction false} DropInjectorOk(s: State, c: nat, s': State)
    requires Inv(s) && DropInjector(s, c, s')
    ensures Inv(s')
  {
    RemoveFacts(s.injector, c);
  }

  lemma {:induction false} TakenElsewhereOk(s: State, c: nat, s': State)
    requires Inv(s) && TakenElsewhere(s, c, s')
    ensures Inv(s')
  {
    RemoveFacts(s.injector, c);
  }

  lemma {:induction false} SpawnElsewhereOk(s: State, s': State)
    requires Inv(s) && SpawnElsewhere(s, s')
    ensures Inv(s')
  {
  }

  lemma {:induction false} GoneElsewhereOk(s: State, c: nat, s': State)
    requires Inv(s) && GoneElsewhere(s, c, s')
    ensures Inv(s')
  {
  }

  lemma {:induction false} OthersNextInv(s: State, c: nat, s': State)
    requires Inv(s) && OthersNext(s, c, s')
    ensures Inv(s')
  {
    if TakenElsewhere(s, c, s') {
      TakenElsewhereOk(s, c, s');
    } else if GoneElsewhere(s, c, s') {
      GoneElsewhereOk(s, c, s');
    } else {
      SpawnElsewhereOk(s, s');
    }
  }

  lemma {:induction false} StopStepOk(s: State, c: nat, s': State)
    requires Inv(s) && StopStep(s, c, s')
    ensures Inv(s')
  {
  }

  lemma {:induction false} LocalDecidePlaces(s: State, c: nat, s': State)
    requires Inv(s) && LocalDecide(s, c, s')
    ensures ListsOk(s') && PlacesOk(s') && StatesOk(s')
  {
  }

  lemma {:induction false} LocalDecideWakes(s: State, c: nat, s': State)
    requires Inv(s) && LocalDecide(s, c, s')
    ensures FlightsOk(s') && WakesOk(s') && GoneAll(s') && AgentsOk(s')
  {
  }

  lemma {:induction false} LocalDecideOk(s: State, c: nat, s': State)
    requires Inv(s) && LocalDecide(s, c, s')
    ensures Inv(s')
  {
    LocalDecidePlaces(s, c, s');
    LocalDecideWakes(s, c, s');
  }

  lemma {:induction false} LocalResumePlaces(s: State, c: nat, s': State)
    requires Inv(s) && LocalResume(s, c, s')
    ensures ListsOk(s') && PlacesOk(s') && StatesOk(s')
  {
  }

  lemma {:induction false} LocalResumeWakes(s: State, c: nat, s': State)
    requires Inv(s) && LocalResume(s, c, s')
    ensures FlightsOk(s') && WakesOk(s') && GoneAll(s') && AgentsOk(s')
  {
  }

  lemma {:induction false} LocalResumeOk(s: State, c: nat, s': State)
    requires Inv(s) && LocalResume(s, c, s')
    ensures Inv(s')
  {
    LocalResumePlaces(s, c, s');
    LocalResumeWakes(s, c, s');
  }

  lemma {:induction false} BeginWaitOk(s: State, s': State)
    requires Inv(s) && (BeginWait(s, s') || SeeWaiting(s, s'))
    ensures Inv(s')
  {
  }

  lemma {:induction false} SuspendOk(s: State, s': State)
    requires Inv(s) && Suspend(s, s')
    ensures Inv(s')
  {
  }

  lemma {:induction false} YieldOk(s: State, s': State)
    requires Inv(s) && Yield(s, s')
    ensures Inv(s')
  {
  }

  lemma {:induction false} EndWaitOk(s: State, s': State)
    requires Inv(s) && EndWait(s, s')
    ensures Inv(s')
  {
  }

  lemma {:induction false} ExitOk(s: State, s': State)
    requires Inv(s) && Exit(s, s')
    ensures Inv(s')
  {
  }

  lemma {:induction false} OutPlaces(s: State, s': State)
    requires Inv(s) && OutStep(s, s')
    ensures ListsOk(s') && PlacesOk(s') && StatesOk(s')
  {
  }

  lemma {:induction false} OutWakes(s: State, s': State)
    requires Inv(s) && OutStep(s, s')
    ensures FlightsOk(s') && WakesOk(s') && GoneAll(s') && AgentsOk(s')
  {
  }

  lemma {:induction false} OutOk(s: State, s': State)
    requires Inv(s) && OutStep(s, s')
    ensures Inv(s')
  {
    OutPlaces(s, s');
    OutWakes(s, s');
  }

  lemma {:induction false} NextInv(s: State, s': State)
    requires Inv(s) && Next(s, s')
    ensures Inv(s')
  {
    if g: nat, c: nat :| AgentNext(s, g, c, s') {
      AgentNextInv(s, g, c, s');
    } else if i: nat, canceled: bool :| WorkerNext(s, i, canceled, s') {
      WorkerNextInv(s, i, canceled, s');
    } else if c: nat :| RunningNext(s, c, s') {
      RunningNextInv(s, c, s');
    } else {
      var c: nat :| OthersNext(s, c, s');
      OthersNextInv(s, c, s');
    }
  }

  lemma {:induction false} AgentNextInv(s: State, g: nat, c: nat, s': State)
    requires Inv(s) && AgentNext(s, g, c, s')
    ensures Inv(s')
  {
    if SpawnInjector(s, s') {
      SpawnInjectorOk(s, s');
    } else if Exchange(s, g, s') {
      ExchangeOk(s, g, s');
    } else if CasHead(s, g, s') {
      CasOk(s, g, s');
    } else if Grant(s, g, c, s') {
      GrantOk(s, g, c, s');
    } else if CallResume(s, g, c, s') {
      CallResumeOk(s, g, c, s');
    } else {
      AgentEndOk(s, g, s');
    }
  }

  lemma {:induction false} WorkerNextInv(s: State, i: nat, canceled: bool, s': State)
    requires Inv(s) && WorkerNext(s, i, canceled, s')
    ensures Inv(s')
  {
    if TopStep(s, s') {
      TopOk(s, s');
    } else if DrainStep(s, s') {
      DrainOk(s, s');
    } else if DeliverStep(s, canceled, s') {
      DeliverPart(s, canceled, s');
      DeliverWakes(s, canceled, s');
      DeliverGone(s, canceled, s');
    } else if ReapStep(s, s') {
      ReapOk(s, s');
    } else if PickReady(s, i, s') {
      PickReadyOk(s, i, s');
    } else if PickInjector(s, i, canceled, s') {
      PickInjectorOk(s, i, canceled, s');
    } else if DropInjector(s, i, s') {
      DropInjectorOk(s, i, s');
    } else if StopStep(s, i, s') {
      StopStepOk(s, i, s');
    } else {
      MoveOk(s, s');
    }
  }

  lemma {:induction false} RunningNextInv(s: State, c: nat, s': State)
    requires Inv(s) && RunningNext(s, c, s')
    ensures Inv(s')
  {
    if LocalDecide(s, c, s') {
      LocalDecideOk(s, c, s');
    } else if SpawnLocal(s, s') {
      SpawnLocalOk(s, s');
    } else if Exit(s, s') {
      ExitOk(s, s');
    } else if OutStep(s, s') {
      OutOk(s, s');
    } else if Suspend(s, s') {
      SuspendOk(s, s');
    } else if Yield(s, s') {
      YieldOk(s, s');
    } else if EndWait(s, s') {
      EndWaitOk(s, s');
    } else if LocalResume(s, c, s') {
      LocalResumeOk(s, c, s');
    } else {
      BeginWaitOk(s, s');
    }
  }

  lemma {:induction false} InitInv(s: State)
    requires Initial(s)
    ensures Inv(s)
  {
  }

  lemma {:induction false} RunInv(t: seq<State>, i: nat)
    requires Run(t) && i < |t|
    ensures Inv(t[i])
  {
    if i == 0 {
      InitInv(t[0]);
    } else {
      RunInv(t, i - 1);
      assert Next(t[i - 1], t[i - 1 + 1]);
      NextInv(t[i - 1], t[i]);
    }
  }

  // ---------------------------------------------------------------- theorems

  /**
   No wake is lost. A coroutine whose wait is decided, whose decider has finished, and that is
   nevertheless suspended is in the inbox, in the list being drained, being delivered, in the hands
   of a thread about to push it, or carries a pending wake that is redelivered now.
   */
  lemma {:induction false} NoLostWake(t: seq<State>, i: nat, c: nat)
    requires Run(t) && i < |t| && Slept(t[i], c)
    ensures OnItsWay(t[i], c)
  {
    RunInv(t, i);
    WakeComes(t[i], c);
  }

  /** The wait of c is decided, its decider is done, and c is suspended. */
  ghost predicate Slept(s: State, c: nat) {
    c < |s.cr| && Up(s) && s.cr[c].inWait && s.cr[c].decided && s.cr[c].busy == No && s.cr[c].st == Suspended
  }

  ghost predicate OnItsWay(s: State, c: nat) {
    c < |s.cr| &&
    (|| c in s.inbox || c in s.drain || (s.pc.Deliver? && s.pc.c == c)
     || (exists g :: 0 <= g < |s.ag| && Pushes(s.ag[g], c))
     || (s.cr[c].pending && s.pc == Out(c)))
  }

  lemma {:induction false} WakeComes(s: State, c: nat)
    requires Inv(s) && Slept(s, c)
    ensures OnItsWay(s, c)
  {
    assert WakeOk(s, c, s.cr[c]) && FlightOk(s, c, s.cr[c]);
  }

  /** An arena is destroyed only when neither the inbox, the drained list, the ready list nor any thread refers to it. */
  lemma {:induction false} ReapedUnreferenced(t: seq<State>, i: nat, c: nat)
    requires Run(t) && i < |t| && c < |t[i].cr| && Up(t[i])
    requires t[i].cr[c].destroyed > 0 || (t[i].pc == Reap && c in t[i].zombies)
    ensures c !in t[i].inbox && c !in t[i].drain && c !in t[i].ready
    ensures forall g :: 0 <= g < |t[i].ag| ==> !Decides(t[i].ag[g], c) && !CallsInto(t[i].ag[g], c)
    ensures !Current(t[i].pc, c) && !(t[i].pc.Deliver? && t[i].pc.c == c)
  {
    RunInv(t, i);
    var s := t[i];
    assert PlaceOk(s, c, s.cr[c]) && StateOk(s, c, s.cr[c]) && FlightOk(s, c, s.cr[c]) && GoneOk(s, c, s.cr[c]);
    assert c !in s.live;
    forall g | 0 <= g < |s.ag|
      ensures !Decides(s.ag[g], c) && !CallsInto(s.ag[g], c)
    {
      assert AgentOk(s, g, s.ag[g]);
    }
  }

  /** READY means linked, once, in the ready list or in the injector and not in both; the running coroutine is in neither. */
  lemma {:induction false} ReadyLinkedOnce(t: seq<State>, i: nat, c: nat)
    requires Run(t) && i < |t| && c < |t[i].cr| && Up(t[i])
    ensures NoDup(t[i].ready) && NoDup(t[i].injector) && !(c in t[i].ready && c in t[i].injector)
    ensures t[i].cr[c].st == Ready <==> c in t[i].ready || c in t[i].injector
    ensures t[i].cr[c].st == Running <==> Current(t[i].pc, c)
  {
    RunInv(t, i);
    var s := t[i];
    assert PlaceOk(s, c, s.cr[c]) && StateOk(s, c, s.cr[c]);
    assert ReadyPlaced(s, c, s.cr[c]);
  }

  /** Every arena is destroyed at most once, and shutdown leaves none behind but those of other workers. */
  lemma {:induction false} DestroyedOnce(t: seq<State>, i: nat, c: nat)
    requires Run(t) && i < |t| && c < |t[i].cr|
    ensures t[i].cr[c].destroyed <= 1
    ensures t[i].pc == Stopped ==> t[i].cr[c].destroyed == 1 || c in t[i].away
    ensures t[i].cr[c].destroyed == 0 <==> c in t[i].injector || c in t[i].live || c in t[i].zombies || c in t[i].away
  {
    RunInv(t, i);
    assert PlaceOk(t[i], c, t[i].cr[c]);
  }
}
