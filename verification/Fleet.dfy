/**
 All workers at once. Each worker's part of the state is a `Wakeups` machine; the workers share
 the injector, and what one does to a coroutine that it pins, spawns or destroys the others see
 as done elsewhere. Everything else a worker, or any thread, does to coroutines of another goes
 through that other's inbox, as an agent of its machine. `owner` and `destroyed` are history.
 */
module Fleet {
  import W = Wakeups
  import opened Lists

  /** owner[c]: the worker that pinned c, -1 while nobody has. */
  datatype State = State(vs: seq<W.State>, injector: seq<nat>, owner: seq<int>, destroyed: seq<nat>)

  // ---------------------------------------------------------------- steps

  /** A step of one worker's machine that neither pins, spawns nor destroys. */
  ghost predicate Private(v: W.State, v': W.State) {
    && W.Next(v, v') && v'.injector == v.injector && v'.away == v.away && |v'.cr| == |v.cr|
    && forall c: nat :: c < |v.cr| ==> v'.cr[c].destroyed == v.cr[c].destroyed
  }

  ghost predicate Alone(s: State, w: nat, s': State) {
    && w < |s.vs| == |s'.vs| && s' == s.(vs := s.vs[w := s'.vs[w]])
    && Private(s.vs[w], s'.vs[w])
  }

  /** A spawn into the injector, while every worker is up. */
  ghost predicate SpawnShared(s: State, s': State) {
    && |s'.vs| == |s.vs|
    && s' == State(s'.vs, s.injector + [|s.owner|], s.owner + [-1], s.destroyed + [0])
    && forall v: nat :: v < |s.vs| ==> W.SpawnInjector(s.vs[v], s'.vs[v])
  }

  ghost predicate SpawnHere(s: State, w: nat, s': State) {
    && w < |s.vs| == |s'.vs|
    && s' == State(s'.vs, s.injector, s.owner + [w], s.destroyed + [0])
    && W.SpawnLocal(s.vs[w], s'.vs[w])
    && forall v: nat :: v < |s.vs| && v != w ==> W.SpawnElsewhere(s.vs[v], s'.vs[v])
  }

  ghost predicate TakeBy(s: State, w: nat, c: nat, canceled: bool, s': State) {
    && w < |s.vs| == |s'.vs| && c < |s.owner|
    && s' == State(s'.vs, Remove(s.injector, c), s.owner[c := w], s.destroyed)
    && W.PickInjector(s.vs[w], c, canceled, s'.vs[w])
    && forall v: nat :: v < |s.vs| && v != w ==> W.TakenElsewhere(s.vs[v], c, s'.vs[v])
  }

  /** Worker w destroys c, in its loop or when it stops. */
  ghost predicate Destroys(v: W.State, c: nat, v': W.State) {
    && (W.ReapStep(v, v') || W.StopStep(v, c, v')) && c < |v.cr| == |v'.cr|
    && v'.cr[c].destroyed == v.cr[c].destroyed + 1
  }

  ghost predicate DestroyBy(s: State, w: nat, c: nat, s': State) {
    && w < |s.vs| == |s'.vs| && c < |s.destroyed|
    && s' == State(s'.vs, s.injector, s.owner, s.destroyed[c := s.destroyed[c] + 1])
    && Destroys(s.vs[w], c, s'.vs[w])
    && forall v: nat :: v < |s.vs| && v != w ==> W.GoneElsewhere(s.vs[v], c, s'.vs[v])
  }

  /** suspenders_shutdown destroys what never left the injector, once every worker has stopped its loop. */
  ghost predicate DropShared(s: State, c: nat, s': State) {
    && |s'.vs| == |s.vs| && c < |s.destroyed|
    && s' == State(s'.vs, Remove(s.injector, c), s.owner, s.destroyed[c := s.destroyed[c] + 1])
    && forall v: nat :: v < |s.vs| ==> W.DropInjector(s.vs[v], c, s'.vs[v])
  }

  datatype Step =
    | DoAlone(w: nat) | DoSpawnShared | DoSpawnHere(w: nat) | DoTake(w: nat, c: nat, canceled: bool)
    | DoDestroy(w: nat, c: nat) | DoDrop(c: nat)

  ghost predicate Next(s: State, a: Step, s': State) {
    match a
    case DoAlone(w) => Alone(s, w, s')
    case DoSpawnShared => SpawnShared(s, s')
    case DoSpawnHere(w) => SpawnHere(s, w, s')
    case DoTake(w, c, canceled) => TakeBy(s, w, c, canceled, s')
    case DoDestroy(w, c) => DestroyBy(s, w, c, s')
    case DoDrop(c) => DropShared(s, c, s')
  }

  ghost predicate Run(t: seq<State>, a: seq<Step>) {
    && |t| == |a| + 1 && |t[0].vs| > 0 && t[0] == State(t[0].vs, [], [], [])
    && (forall w: nat :: w < |t[0].vs| ==> W.Initial(t[0].vs[w]))
    && forall i: nat :: i < |a| ==> Next(t[i], a[i], t[i + 1])
  }

  // ---------------------------------------------------------------- the invariant

  ghost predicate Ours(v: W.State, c: nat) {
    c in v.live || c in v.zombies
  }

  /** What worker w knows of c agrees with the owner and the fate of c. */
  ghost predicate KnowsOk(w: nat, v: W.State, c: nat, owner: int, destroyed: nat)
    requires c < |v.cr|
  {
    && v.cr[c].destroyed == destroyed
    && (Ours(v, c) <==> owner == w && destroyed == 0)
    && (c in v.away <==> owner != -1 && owner != w && destroyed == 0)
  }

  ghost predicate ViewOk(s: State, w: nat, v: W.State) {
    && W.Inv(v) && v.injector == s.injector && |v.cr| == |s.owner| == |s.destroyed|
    && forall c: nat :: c < |v.cr| ==> KnowsOk(w, v, c, s.owner[c], s.destroyed[c])
  }

  ghost predicate Inv(s: State) {
    && |s.vs| > 0 && |s.owner| == |s.destroyed|
    && (forall c: nat :: c < |s.owner| ==> -1 <= s.owner[c] < |s.vs| && s.destroyed[c] <= 1)
    && forall w: nat :: w < |s.vs| ==> ViewOk(s, w, s.vs[w])
  }

  // ---------------------------------------------------------------- every step keeps it

  /** Where a coroutine is, as one worker sees it. */
  lemma {:induction false} SeenOnce(v: W.State, c: nat)
    requires W.Inv(v) && c < |v.cr|
    ensures v.cr[c].destroyed == (if c in v.injector || Ours(v, c) || c in v.away then 0 else 1)
    ensures !(c in v.injector && Ours(v, c)) && !(c in v.injector && c in v.away) && !(Ours(v, c) && c in v.away)
  {
    assert W.PlaceOk(v, c, v.cr[c]);
  }

  lemma {:induction false} PrivateView(s: State, w: nat, v: W.State, v': W.State)
    requires ViewOk(s, w, v) && Private(v, v')
    ensures ViewOk(s, w, v')
  {
    W.NextInv(v, v');
    forall c: nat | c < |v'.cr|
      ensures KnowsOk(w, v', c, s.owner[c], s.destroyed[c])
    {
      assert KnowsOk(w, v, c, s.owner[c], s.destroyed[c]);
      SeenOnce(v, c);
      SeenOnce(v', c);
    }
  }

  lemma {:induction false} AloneOk(s: State, w: nat, s': State)
    requires Inv(s) && Alone(s, w, s')
    ensures Inv(s')
  {
    PrivateView(s, w, s.vs[w], s'.vs[w]);
    forall v: nat | v < |s'.vs|
      ensures ViewOk(s', v, s'.vs[v])
    {
      assert ViewOk(s, v, s.vs[v]);
    }
  }

  /** A view of w after a step in which the shared record of c, or of one more coroutine, changed. */
  lemma {:induction false} ViewBy(s: State, s': State, w: nat, v: W.State, v': W.State, c: nat)
    requires ViewOk(s, w, v) && W.Next(v, v') && v'.injector == s'.injector && |v'.cr| == |s'.owner| == |s'.destroyed| >= |v.cr|
    requires forall d: nat :: d < |v.cr| && d != c ==>
      && s'.owner[d] == s.owner[d] && s'.destroyed[d] == s.destroyed[d] && v'.cr[d].destroyed == v.cr[d].destroyed
      && (Ours(v', d) <==> Ours(v, d)) && (d in v'.away <==> d in v.away)
    requires |v'.cr| > |v.cr| ==> c == |v.cr| && |v'.cr| == c + 1
    requires c < |v'.cr| && KnowsOk(w, v', c, s'.owner[c], s'.destroyed[c])
    ensures ViewOk(s', w, v')
  {
    W.NextInv(v, v');
    forall d: nat | d < |v'.cr|
      ensures KnowsOk(w, v', d, s'.owner[d], s'.destroyed[d])
    {
      if d != c {
        assert KnowsOk(w, v, d, s.owner[d], s.destroyed[d]);
      }
    }
  }

  lemma {:induction false} SpawnView(s: State, s': State, w: nat, v: W.State, v': W.State)
    requires ViewOk(s, w, v) && (W.SpawnInjector(v, v') || W.SpawnElsewhere(v, v') || W.SpawnLocal(v, v'))
    requires |s'.owner| == |s.owner| + 1 == |s'.destroyed| && s'.owner[..|s.owner|] == s.owner && s'.destroyed == s.destroyed + [0]
    requires s'.owner[|s.owner|] == if W.SpawnInjector(v, v') then -1 else if W.SpawnLocal(v, v') then w else s'.owner[|s.owner|]
    requires W.SpawnElsewhere(v, v') ==> s'.owner[|s.owner|] != -1 && s'.owner[|s.owner|] != w
    requires s'.injector == v'.injector
    ensures ViewOk(s', w, v')
  {
    var c := |v.cr|;
    assert c !in v.live && c !in v.zombies && c !in v.away;
    SpawnIsNext(v, v');
    ViewBy(s, s', w, v, v', c);
  }

  lemma {:induction false} SpawnIsNext(v: W.State, v': W.State)
    requires W.SpawnInjector(v, v') || W.SpawnElsewhere(v, v') || W.SpawnLocal(v, v')
    ensures W.Next(v, v')
  {
    var z: nat := 0;
    assert W.SpawnInjector(v, v') ==> W.AgentNext(v, z, z, v');
    assert W.SpawnElsewhere(v, v') ==> W.OthersNext(v, z, v');
    assert W.SpawnLocal(v, v') ==> W.RunningNext(v, z, v');
  }

  lemma {:induction false} SpawnSharedOk(s: State, s': State)
    requires Inv(s) && SpawnShared(s, s')
    ensures Inv(s')
  {
    forall v: nat | v < |s'.vs|
      ensures ViewOk(s', v, s'.vs[v])
    {
      assert ViewOk(s, v, s.vs[v]) && W.SpawnInjector(s.vs[v], s'.vs[v]);
      SpawnView(s, s', v, s.vs[v], s'.vs[v]);
    }
  }

  lemma {:induction false} SpawnHereOk(s: State, w: nat, s': State)
    requires Inv(s) && SpawnHere(s, w, s')
    ensures Inv(s')
  {
    forall v: nat | v < |s'.vs|
      ensures ViewOk(s', v, s'.vs[v])
    {
      assert ViewOk(s, v, s.vs[v]);
      assert v != w ==> W.SpawnElsewhere(s.vs[v], s'.vs[v]);
      SpawnView(s, s', v, s.vs[v], s'.vs[v]);
    }
  }

  lemma {:induction false} TakeView(s: State, s': State, w: nat, v: W.State, v': W.State, c: nat, canceled: bool)
    requires ViewOk(s, w, v) && c < |s.owner| && s'.destroyed == s.destroyed && |s'.owner| == |s.owner| && s'.owner == s.owner[c := s'.owner[c]] && s'.injector == Remove(s.injector, c)
    requires if s'.owner[c] == w then W.PickInjector(v, c, canceled, v') else s'.owner[c] != -1 && W.TakenElsewhere(v, c, v')
    ensures ViewOk(s', w, v')
  {
    SeenOnce(v, c);
    assert s'.owner[c] == w ==> W.WorkerNext(v, c, canceled, v');
    assert s'.owner[c] != w ==> W.OthersNext(v, c, v');
    ViewBy(s, s', w, v, v', c);
  }

  lemma {:induction false} TakeOk(s: State, w: nat, c: nat, canceled: bool, s': State)
    requires Inv(s) && TakeBy(s, w, c, canceled, s')
    ensures Inv(s')
  {
    forall v: nat | v < |s'.vs|
      ensures ViewOk(s', v, s'.vs[v])
    {
      assert ViewOk(s, v, s.vs[v]);
      assert v != w ==> W.TakenElsewhere(s.vs[v], c, s'.vs[v]);
      TakeView(s, s', v, s.vs[v], s'.vs[v], c, canceled);
    }
  }

  /** The destroyed coroutine leaves the list of the worker that destroys it, and no other coroutine moves. */
  lemma {:induction false} DestroyedBy(v: W.State, c: nat, v': W.State)
    requires W.Inv(v) && Destroys(v, c, v')
    ensures W.Next(v, v') && v'.injector == v.injector && v'.away == v.away
    ensures Ours(v, c) && !Ours(v', c)
    ensures forall d: nat :: d < |v.cr| && d != c ==> (Ours(v', d) <==> Ours(v, d)) && v'.cr[d].destroyed == v.cr[d].destroyed
  {
    assert W.WorkerNext(v, c, false, v');
    assert W.PlaceOk(v, c, v.cr[c]);
    if v.zombies != [] {
      assert v.zombies == [v.zombies[0]] + v.zombies[1..];
    }
  }

  lemma {:induction false} DestroyView(s: State, s': State, w: nat, v: W.State, v': W.State, c: nat)
    requires ViewOk(s, w, v) && c < |s.owner| && s'.owner == s.owner && s'.injector == s.injector && s'.destroyed == s.destroyed[c := s.destroyed[c] + 1]
    requires Destroys(v, c, v') || W.GoneElsewhere(v, c, v')
    ensures ViewOk(s', w, v')
  {
    SeenOnce(v, c);
    if Destroys(v, c, v') {
      DestroyedBy(v, c, v');
    } else {
      assert W.OthersNext(v, c, v');
    }
    ViewBy(s, s', w, v, v', c);
  }

  lemma {:induction false} DestroyOk(s: State, w: nat, c: nat, s': State)
    requires Inv(s) && DestroyBy(s, w, c, s')
    ensures Inv(s')
  {
    assert ViewOk(s, w, s.vs[w]);
    DestroyedBy(s.vs[w], c, s'.vs[w]);
    assert KnowsOk(w, s.vs[w], c, s.owner[c], s.destroyed[c]);
    forall v: nat | v < |s'.vs|
      ensures ViewOk(s', v, s'.vs[v])
    {
      assert ViewOk(s, v, s.vs[v]);
      assert v != w ==> W.GoneElsewhere(s.vs[v], c, s'.vs[v]);
      DestroyView(s, s', v, s.vs[v], s'.vs[v], c);
    }
  }

  lemma {:induction false} DropView(s: State, s': State, w: nat, v: W.State, v': W.State, c: nat)
    requires ViewOk(s, w, v) && W.DropInjector(v, c, v')
    requires s'.owner == s.owner && s'.injector == Remove(s.injector, c) && s'.destroyed == s.destroyed[c := s.destroyed[c] + 1]
    ensures ViewOk(s', w, v') && s.destroyed[c] == 0
  {
    SeenOnce(v, c);
    assert W.WorkerNext(v, c, false, v');
    ViewBy(s, s', w, v, v', c);
  }

  lemma {:induction false} DropOk(s: State, c: nat, s': State)
    requires Inv(s) && DropShared(s, c, s')
    ensures Inv(s')
  {
    forall v: nat | v < |s'.vs|
      ensures ViewOk(s', v, s'.vs[v]) && s.destroyed[c] == 0
    {
      assert ViewOk(s, v, s.vs[v]) && W.DropInjector(s.vs[v], c, s'.vs[v]);
      DropView(s, s', v, s.vs[v], s'.vs[v], c);
    }
    assert ViewOk(s', 0, s'.vs[0]) && s.destroyed[c] == 0;
  }

  lemma {:induction false} NextInv(s: State, a: Step, s': State)
    requires Inv(s) && Next(s, a, s')
    ensures Inv(s')
  {
    match a
    case DoAlone(w) => AloneOk(s, w, s');
    case DoSpawnShared => SpawnSharedOk(s, s');
    case DoSpawnHere(w) => SpawnHereOk(s, w, s');
    case DoTake(w, c, canceled) => TakeOk(s, w, c, canceled, s');
    case DoDestroy(w, c) => DestroyOk(s, w, c, s');
    case DoDrop(c) => DropOk(s, c, s');
  }

  lemma {:induction false} InitInv(s: State)
    requires |s.vs| > 0 && s == State(s.vs, [], [], []) && forall w: nat :: w < |s.vs| ==> W.Initial(s.vs[w])
    ensures Inv(s)
  {
    forall w: nat | w < |s.vs|
      ensures ViewOk(s, w, s.vs[w])
    {
      assert W.Initial(s.vs[w]);
      W.InitInv(s.vs[w]);
    }
  }

  lemma {:induction false} StepAt(t: seq<State>, a: seq<Step>, i: nat)
    requires Run(t, a) && i < |a|
    ensures Next(t[i], a[i], t[i + 1])
  {
  }

  lemma {:induction false} RunInv(t: seq<State>, a: seq<Step>, i: nat)
    requires Run(t, a) && i < |t|
    ensures Inv(t[i])
  {
    if i == 0 {
      InitInv(t[0]);
    } else {
      RunInv(t, a, i - 1);
      StepAt(t, a, i - 1);
      NextInv(t[i - 1], a[i - 1], t[i]);
    }
  }

  // ---------------------------------------------------------------- theorems

  datatype Place = InInjector | Live(w: nat) | Zombie(w: nat) | Destroyed

  ghost predicate Found(s: State, c: nat, p: Place) {
    match p
    case InInjector => c in s.injector
    case Live(w) => w < |s.vs| && c in s.vs[w].live
    case Zombie(w) => w < |s.vs| && c in s.vs[w].zombies
    case Destroyed => c < |s.destroyed| && s.destroyed[c] == 1
  }

  lemma {:induction false} WhereFound(s: State, c: nat, w: nat)
    requires Inv(s) && c < |s.owner| && w < |s.vs|
    ensures s.destroyed[c] == 0 ==> (c in s.injector <==> s.owner[c] == -1)
    ensures s.destroyed[c] != 0 ==> c !in s.injector
    ensures (Ours(s.vs[w], c) <==> s.owner[c] == w && s.destroyed[c] == 0) && !(c in s.vs[w].live && c in s.vs[w].zombies)
  {
    assert ViewOk(s, w, s.vs[w]);
    assert KnowsOk(w, s.vs[w], c, s.owner[c], s.destroyed[c]);
    SeenOnce(s.vs[w], c);
    assert W.PlaceOk(s.vs[w], c, s.vs[w].cr[c]);
  }

  /** Across all workers a coroutine is in exactly one of injector, live lists, zombie lists and destroyed, and no list holds it twice. */
  lemma {:induction false} ExactlyOnePlace(t: seq<State>, a: seq<Step>, i: nat, c: nat)
    requires Run(t, a) && i < |t| && c < |t[i].owner|
    ensures exists p :: Found(t[i], c, p)
    ensures forall p, q :: Found(t[i], c, p) && Found(t[i], c, q) ==> p == q
    ensures c < |t[i].destroyed| && t[i].destroyed[c] <= 1
    ensures forall w: nat :: w < |t[i].vs| ==> NoDup(t[i].injector) && NoDup(t[i].vs[w].zombies)
  {
    RunInv(t, a, i);
    var s := t[i];
    forall w: nat | w < |s.vs|
      ensures Ours(s.vs[w], c) <==> s.owner[c] == w && s.destroyed[c] == 0
      ensures !(c in s.vs[w].live && c in s.vs[w].zombies) && NoDup(s.injector) && NoDup(s.vs[w].zombies)
    {
      WhereFound(s, c, w);
      assert ViewOk(s, w, s.vs[w]);
    }
    WhereFound(s, c, 0);
    var w := s.owner[c];
    var p := if s.destroyed[c] == 1 then Destroyed else if w == -1 then InInjector
             else if c in s.vs[w].live then Live(w) else Zombie(w);
    assert Found(s, c, p);
  }

  /** While the workers run, a coroutine is linked in one ready list of one worker at most, and never there and in the injector. */
  lemma {:induction false} ReadyInOneList(t: seq<State>, a: seq<Step>, i: nat, c: nat, v: nat, w: nat)
    requires Run(t, a) && i < |t| && c < |t[i].owner| && v < |t[i].vs| && w < |t[i].vs| && W.Up(t[i].vs[v]) && W.Up(t[i].vs[w])
    requires c in t[i].vs[v].ready
    ensures c !in t[i].injector && (c in t[i].vs[w].ready ==> v == w) && NoDup(t[i].vs[v].ready)
    ensures c in t[i].vs[v].live && c < |t[i].vs[v].cr| && t[i].vs[v].cr[c].st == W.Ready
  {
    RunInv(t, a, i);
    var s := t[i];
    assert ViewOk(s, v, s.vs[v]) && ViewOk(s, w, s.vs[w]);
    assert W.StateOk(s.vs[v], c, s.vs[v].cr[c]) && W.StateOk(s.vs[w], c, s.vs[w].cr[c]);
    WhereFound(s, c, v);
    WhereFound(s, c, w);
  }

  /** What the owner of c, or while there is none any worker, knows of its state. */
  ghost function StateOf(s: State, c: nat): W.CrState
    requires Inv(s) && c < |s.owner|
  {
    var w := if s.owner[c] == -1 then 0 else s.owner[c];
    assert ViewOk(s, w, s.vs[w]);
    s.vs[w].cr[c].st
  }

  /** While the workers run, READY means linked in the injector or in the ready list of a worker. */
  lemma {:induction false} ReadyExactlyLinked(t: seq<State>, a: seq<Step>, i: nat, c: nat)
    requires Run(t, a) && i < |t| && c < |t[i].owner| == |t[i].destroyed| && t[i].destroyed[c] == 0
    requires forall w: nat :: w < |t[i].vs| ==> W.Up(t[i].vs[w])
    ensures Inv(t[i])
    ensures StateOf(t[i], c) == W.Ready <==> c in t[i].injector || exists w: nat :: w < |t[i].vs| && c in t[i].vs[w].ready
  {
    RunInv(t, a, i);
    var s := t[i];
    forall w: nat | w < |s.vs|
      ensures c in s.vs[w].ready <==> s.owner[c] == w && StateOf(s, c) == W.Ready
      ensures c in s.injector ==> s.owner[c] == -1 && s.vs[w].cr[c].st == W.Ready
      ensures c !in s.injector ==> s.owner[c] != -1
    {
      assert ViewOk(s, w, s.vs[w]) && W.Up(s.vs[w]);
      assert W.StateOk(s.vs[w], c, s.vs[w].cr[c]) && W.PlaceOk(s.vs[w], c, s.vs[w].cr[c]);
      WhereFound(s, c, w);
    }
    assert W.Up(s.vs[0]) && ViewOk(s, 0, s.vs[0]);
    WhereFound(s, c, 0);
    if s.owner[c] != -1 {
      var w: nat := s.owner[c];
      assert c in s.vs[w].ready <==> StateOf(s, c) == W.Ready;
    }
  }

  /** On any worker and for any coroutine: a decided wait whose decider is done is never left asleep without a wake on its way. */
  lemma {:induction false} NoLostWake(t: seq<State>, a: seq<Step>, i: nat, w: nat, c: nat)
    requires Run(t, a) && i < |t| && w < |t[i].vs| && W.Slept(t[i].vs[w], c)
    ensures W.OnItsWay(t[i].vs[w], c)
    ensures c < |t[i].owner| && t[i].owner[c] == w && c in t[i].vs[w].live
  {
    RunInv(t, a, i);
    var s := t[i];
    assert ViewOk(s, w, s.vs[w]);
    W.WakeComes(s.vs[w], c);
    assert W.StateOk(s.vs[w], c, s.vs[w].cr[c]);
    WhereFound(s, c, w);
  }

  /** When every worker has stopped, every coroutine that was ever spawned has been destroyed exactly once. */
  lemma {:induction false} AllDestroyedOnce(t: seq<State>, a: seq<Step>, i: nat, c: nat)
    requires Run(t, a) && i < |t| && c < |t[i].owner| && forall w: nat :: w < |t[i].vs| ==> t[i].vs[w].pc == W.Stopped
    ensures c < |t[i].destroyed| && t[i].destroyed[c] == 1
  {
    RunInv(t, a, i);
    var s := t[i];
    forall w: nat | w < |s.vs|
      ensures s.injector == [] && !Ours(s.vs[w], c)
    {
      assert ViewOk(s, w, s.vs[w]) && s.vs[w].pc == W.Stopped;
    }
    ExactlyOnePlace(t, a, i, c);
    assert s.vs[0].pc == W.Stopped;
    var p :| Found(s, c, p);
  }
}
