/** The handlers of a socket (`uml_documents/consumers.py`) as runs: left alone, the steps of one
    message have the effect and the broadcasts of its handler. */
module HandlerRuns {
  import opened Text
  import opened Uml
  import opened Documents
  import opened DocumentRows
  import opened Locks
  import opened LockRuns

  /** What a step broadcasts. */
  function Sent(s: State, action: Action): seq<Broadcast> {
    if action.Tick? || action.Connect? || action.token !in s.sockets then []
    else
      var me := s.sockets[action.token];
      match (action, me.phase)
      case (FinishClaim(t), Claimed(c)) => [NodeLocked(c, me.userLabel, t)]
      case (SendMove(t), Moving(c, position)) => [NodeMoved(c, position, t)]
      case (SendUnlock(_), Unlocking(c)) => [NodeUnlocked(c)]
      case (LeaveSend(_), LeavingUnlock(_, c)) => [NodeUnlocked(c)]
      case _ => []
  }

  datatype Trace = Trace(state: State, sent: seq<Broadcast>)

  function Next(r: Trace, action: Action): Trace {
    Trace(Apply(r.state, action), r.sent + Sent(r.state, action))
  }

  /** The state after the steps, and what they broadcast. */
  function Run(s: State, actions: seq<Action>): Trace {
    if actions == [] then Trace(s, [])
    else Next(Run(s, actions[..|actions| - 1]), actions[|actions| - 1])
  }

  lemma RunOfTwo(s: State, a: Action, b: Action)
    ensures Run(s, [a, b]) == Next(Next(Trace(s, []), a), b)
  {
    hide Next;
    assert [a, b][..1] == [a] && [a][..0] == [];
    assert Run(s, [a]) == Next(Run(s, []), a);
  }

  lemma RunOfThree(s: State, a: Action, b: Action, c: Action)
    ensures Run(s, [a, b, c]) == Next(Next(Next(Trace(s, []), a), b), c)
  {
    RunOfTwo(s, a, b);
    hide Next;
    assert [a, b, c][..2] == [a, b];
  }

  lemma RunOfFour(s: State, a: Action, b: Action, c: Action, d: Action)
    ensures Run(s, [a, b, c, d]) == Next(Next(Next(Next(Trace(s, []), a), b), c), d)
  {
    RunOfThree(s, a, b, c);
    hide Next;
    assert [a, b, c, d][..3] == [a, b, c];
  }

  // All steps a message may need. Those its handler skips are not enabled and change nothing.

  function ClaimSteps(t: Token, c: ElementId): seq<Action> {
    [Claim(t, c), ReadOwner(t), FinishClaim(t)]
  }

  function MoveSteps(t: Token, c: ElementId, position: Position): seq<Action> {
    [Move(t, c, position), SendMove(t)]
  }

  function ReleaseSteps(t: Token, c: ElementId, target: Option<Position>): seq<Action> {
    [Release(t, c, target), Discard(t), Save(t), SendUnlock(t)]
  }

  /** The loop of `disconnect` over `held` in some order. */
  function ReleaseAll(t: Token, order: seq<ElementId>): seq<Action> {
    if order == [] then [Leave(t)]
    else ReleaseAll(t, order[..|order| - 1]) + [LeaveRelease(t, order[|order| - 1]), LeaveSend(t)]
  }

  function LeaveSteps(t: Token, order: seq<ElementId>): seq<Action> {
    ReleaseAll(t, order) + [LeaveEnd(t)]
  }

  function With(s: State, store: Store, t: Token, socket: Socket): State {
    State(store, s.now, s.sockets[t := socket])
  }

  lemma WithTwice(s: State, first: Store, store: Store, t: Token, before: Socket, socket: Socket)
    ensures With(With(s, first, t, before), store, t, socket) == With(s, store, t, socket)
    ensures t in s.sockets ==> With(s, s.store, t, s.sockets[t]) == s
  {
    assert s.sockets[t := before][t := socket] == s.sockets[t := socket];
    if t in s.sockets {
      assert s.sockets[t := s.sockets[t]] == s.sockets;
    }
  }

  predicate IsOwn(s: State, t: Token, x: ElementId) {
    Holder(s.store, s.now, x) == Some(t)
  }

  /** A claim won, or the label of the owner read. */
  lemma ClaimRun(s: State, t: Token, c: ElementId)
    requires InPhase(s, t, Idle)
    ensures var me := s.sockets[t];
            var won := !IsLive(s.store, s.now, c);
      Run(s, ClaimSteps(t, c)) ==
        Trace(
          With(s, SetIfAbsent(s.store, s.now, c, t, me.userLabel), t,
               me.(held := if won then me.held + {c} else me.held)),
          if won then [NodeLocked(c, me.userLabel, t)] else [])
  {
    var me := s.sockets[t];
    var store := SetIfAbsent(s.store, s.now, c, t, me.userLabel);
    var during := me.(phase := if IsLive(s.store, s.now, c) then Refused(c) else Claimed(c));
    RunOfThree(s, Claim(t, c), ReadOwner(t), FinishClaim(t));
    hide Run;
    assert Next(Trace(s, []), Claim(t, c)) == Trace(With(s, store, t, during), []);
    WithTwice(s, store, store, t, during, me);
    WithTwice(s, store, store, t, during, me.(held := me.held + {c}));
  }

  lemma MoveRun(s: State, t: Token, c: ElementId, position: Position)
    requires InPhase(s, t, Idle)
    ensures Run(s, MoveSteps(t, c, position)) ==
      Trace(
        s.(store := RefreshScript(s.store, s.now, c, t)),
        if Holder(s.store, s.now, c) == Some(t) then [NodeMoved(c, position, t)] else [])
  {
    var me := s.sockets[t];
    var store := RefreshScript(s.store, s.now, c, t);
    RunOfTwo(s, Move(t, c, position), SendMove(t));
    hide Run;
    if Holder(s.store, s.now, c) == Some(t) {
      var during := me.(phase := Moving(c, position));
      assert Next(Trace(s, []), Move(t, c, position)) == Trace(With(s, store, t, during), []);
      WithTwice(s, store, store, t, during, me);
    }
    WithTwice(s, s.store, store, t, me, me);
  }

  lemma DiscardNext(s: State, store: Store, t: Token, me: Socket, c: ElementId, target: Option<Position>)
    requires me.phase == Released(c, target)
    ensures Next(Trace(With(s, store, t, me), []), Discard(t)) ==
      Trace(With(s, store, t, me.(held := me.held - {c}, phase := if target.Some? then Saving(c, target.value) else Unlocking(c))), [])
  {
    WithTwice(s, store, store, t, me,
      me.(held := me.held - {c}, phase := if target.Some? then Saving(c, target.value) else Unlocking(c)));
  }

  lemma SaveNext(s: State, store: Store, t: Token, me: Socket, c: ElementId)
    requires (me.phase.Saving? && me.phase.classId == c) || me.phase == Unlocking(c)
    ensures Next(Trace(With(s, store, t, me), []), Save(t)) == Trace(With(s, store, t, me.(phase := Unlocking(c))), [])
  {
    WithTwice(s, store, store, t, me, me.(phase := Unlocking(c)));
  }

  lemma UnlockNext(s: State, store: Store, t: Token, me: Socket, c: ElementId)
    requires me.phase == Unlocking(c)
    ensures Next(Trace(With(s, store, t, me), []), SendUnlock(t)) ==
      Trace(With(s, store, t, me.(phase := Idle)), [NodeUnlocked(c)])
  {
    WithTwice(s, store, store, t, me, me.(phase := Idle));
  }

  lemma IdleNext(s: State, t: Token, action: Action)
    requires InPhase(s, t, Idle)
    requires action in [Discard(t), Save(t), SendUnlock(t)]
    ensures Next(Trace(s, []), action) == Trace(s, [])
  {
  }

  lemma ReleaseNext(s: State, t: Token, c: ElementId, target: Option<Position>)
    requires InPhase(s, t, Idle)
    ensures Next(Trace(s, []), Release(t, c, target)) ==
      if IsOwn(s, t, c)
      then Trace(With(s, ReleaseScript(s.store, s.now, c, t), t, s.sockets[t].(phase := Released(c, target))), [])
      else Trace(s, [])
  {
  }

  /** A release by the holder; its position, if there is one, is saved on the way. */
  lemma ReleaseRun(s: State, t: Token, c: ElementId, target: Option<Position>)
    requires InPhase(s, t, Idle)
    ensures var me := s.sockets[t];
      Run(s, ReleaseSteps(t, c, target)) ==
        Trace(
          With(s, ReleaseScript(s.store, s.now, c, t), t,
               me.(held := if IsOwn(s, t, c) then me.held - {c} else me.held)),
          if IsOwn(s, t, c) then [NodeUnlocked(c)] else [])
  {
    var me := s.sockets[t];
    var store := ReleaseScript(s.store, s.now, c, t);
    RunOfFour(s, Release(t, c, target), Discard(t), Save(t), SendUnlock(t));
    ReleaseNext(s, t, c, target);
    if IsOwn(s, t, c) {
      var done := me.(held := me.held - {c});
      var discarded := done.(phase := if target.Some? then Saving(c, target.value) else Unlocking(c));
      DiscardNext(s, store, t, me.(phase := Released(c, target)), c, target);
      SaveNext(s, store, t, discarded, c);
      UnlockNext(s, store, t, done.(phase := Unlocking(c)), c);
      hide Run, Next, With, ReleaseScript, IsOwn;
      assert done.(phase := Unlocking(c)).(phase := Idle) == done;
    } else {
      IdleNext(s, t, Discard(t));
      IdleNext(s, t, Save(t));
      IdleNext(s, t, SendUnlock(t));
      WithTwice(s, s.store, store, t, me, me);
      hide Run, Next;
    }
  }

  /** The step at which the position is saved. */
  ghost predicate SavesOnRelease(s: State, t: Token, c: ElementId, target: Option<Position>) {
    LockRuns.Saves(Run(s, [Release(t, c, target), Discard(t)]).state, Save(t), c)
  }

  lemma ReleaseSaves(s: State, t: Token, c: ElementId, target: Option<Position>)
    requires InPhase(s, t, Idle)
    ensures SavesOnRelease(s, t, c, target) <==> IsOwn(s, t, c) && target.Some?
  {
    RunOfTwo(s, Release(t, c, target), Discard(t));
    ReleaseNext(s, t, c, target);
    if IsOwn(s, t, c) {
      DiscardNext(s, ReleaseScript(s.store, s.now, c, t), t, s.sockets[t].(phase := Released(c, target)), c, target);
    } else {
      IdleNext(s, t, Discard(t));
    }
    hide Run, Next, ReleaseScript, IsOwn;
  }

  // ---- the loop of a disconnect ----------------------------------------

  /** After some of the nodes: the own locks among them are gone, and exactly these were announced. */
  ghost predicate ReleasedOwn(s: State, t: Token, done: set<ElementId>, r: Trace) {
    && (forall x :: x in r.state.store <==> x in s.store && !(x in done && IsOwn(s, t, x)))
    && (forall x :: x in r.state.store ==> r.state.store[x] == s.store[x])
    && (forall b :: b in r.sent <==> b.NodeUnlocked? && b.classId in done && IsOwn(s, t, b.classId))
    && r.state.now == s.now
  }

  ghost predicate OnlySocket(s: State, t: Token, socket: Socket, after: State) {
    t in s.sockets && after.sockets == s.sockets[t := socket]
  }

  /** The loop after the nodes `done`: the rest remains. */
  ghost predicate LoopAfter(s: State, t: Token, done: set<ElementId>, r: Trace)
    requires t in s.sockets
  {
    && ReleasedOwn(s, t, done, r)
    && OnlySocket(s, t, s.sockets[t].(phase := Leaving(s.sockets[t].held - done)), r.state)
  }

  function Elements(order: seq<ElementId>): set<ElementId> {
    set x | x in order
  }

  lemma LoopStarts(s: State, t: Token)
    requires InPhase(s, t, Idle)
    ensures LoopAfter(s, t, {}, Run(s, [Leave(t)]))
  {
    assert Run(s, [Leave(t)]) == Next(Trace(s, []), Leave(t));
    assert s.sockets[t].held - {} == s.sockets[t].held;
  }

  lemma OneMoreElement(order: seq<ElementId>)
    requires order != [] && Distinct(order)
    ensures var n := |order| - 1;
      order[n] !in Elements(order[..n]) && Elements(order[..n]) + {order[n]} == Elements(order) && Distinct(order[..n])
  {
    var n := |order| - 1;
    forall x | x in Elements(order) ensures x in Elements(order[..n]) + {order[n]} {
    }
  }

  lemma {:induction false} ReleaseAllRun(s: State, t: Token, order: seq<ElementId>)
    requires InPhase(s, t, Idle) && Distinct(order) && Elements(order) <= s.sockets[t].held
    ensures LoopAfter(s, t, Elements(order), Run(s, ReleaseAll(t, order)))
  {
    if order == [] {
      LoopStarts(s, t);
      assert Elements(order) == {};
    } else {
      var n := |order| - 1;
      OneMoreElement(order);
      assert order[n] in Elements(order);
      ReleaseAllRun(s, t, order[..n]);
      RunOfTwoMore(s, ReleaseAll(t, order[..n]), LeaveRelease(t, order[n]), LeaveSend(t));
      hide Run, Next, LoopAfter, Elements, Distinct;
      ReleaseOneMore(s, t, Elements(order[..n]), order[n], Run(s, ReleaseAll(t, order[..n])));
    }
  }

  lemma RunOfTwoMore(s: State, actions: seq<Action>, a: Action, b: Action)
    ensures Run(s, actions + [a, b]) == Next(Next(Run(s, actions), a), b)
  {
    hide Next;
    assert (actions + [a, b])[..|actions| + 1] == actions + [a];
    assert (actions + [a])[..|actions|] == actions;
  }

  lemma LeaveNext(r: Trace, t: Token, c: ElementId, remaining: set<ElementId>)
    requires InPhase(r.state, t, Leaving(remaining)) && c in remaining
    ensures Next(Next(r, LeaveRelease(t, c)), LeaveSend(t)) ==
      Trace(
        With(r.state, ReleaseScript(r.state.store, r.state.now, c, t), t,
             r.state.sockets[t].(phase := Leaving(remaining - {c}))),
        r.sent + if IsOwn(r.state, t, c) then [NodeUnlocked(c)] else [])
  {
    var me := r.state.sockets[t];
    var store := ReleaseScript(r.state.store, r.state.now, c, t);
    var after := me.(phase := Leaving(remaining - {c}));
    if IsOwn(r.state, t, c) {
      var during := me.(phase := LeavingUnlock(remaining - {c}, c));
      assert Next(r, LeaveRelease(t, c)) == Trace(With(r.state, store, t, during), r.sent + []);
      WithTwice(r.state, store, store, t, during, after);
    } else {
      assert Next(r, LeaveRelease(t, c)) == Trace(With(r.state, store, t, after), r.sent + []);
    }
  }

  lemma ReleaseOneMore(s: State, t: Token, done: set<ElementId>, c: ElementId, before: Trace)
    requires t in s.sockets && c in s.sockets[t].held && c !in done
    requires LoopAfter(s, t, done, before)
    ensures LoopAfter(s, t, done + {c}, Next(Next(before, LeaveRelease(t, c)), LeaveSend(t)))
  {
    var remaining := s.sockets[t].held - done;
    LeaveNext(before, t, c, remaining);
    hide Next;
    assert remaining - {c} == s.sockets[t].held - (done + {c});
    assert IsOwn(before.state, t, c) <==> IsOwn(s, t, c);
    hide OwnerIn;
  }

  lemma LastLeaves(s: State, t: Token, before: Trace)
    requires t in s.sockets && LoopAfter(s, t, s.sockets[t].held, before)
    ensures var r := Next(before, LeaveEnd(t));
      ReleasedOwn(s, t, s.sockets[t].held, r) && OnlySocket(s, t, s.sockets[t].(phase := Gone), r.state)
  {
    assert s.sockets[t].held - s.sockets[t].held == {};
    assert Next(before, LeaveEnd(t)).sent == before.sent;
    hide IsOwn;
  }

  /** Whatever the order of the loop, a disconnect deletes and announces exactly the own locks in `held`. */
  lemma LeaveRun(s: State, t: Token, order: seq<ElementId>)
    requires InPhase(s, t, Idle) && Distinct(order) && Elements(order) == s.sockets[t].held
    ensures var r := Run(s, LeaveSteps(t, order));
      && ReleasedOwn(s, t, s.sockets[t].held, r)
      && OnlySocket(s, t, s.sockets[t].(phase := Gone), r.state)
  {
    hide Next, LoopAfter, ReleasedOwn, OnlySocket, Elements, ReleaseAll, Distinct;
    ReleaseAllRun(s, t, order);
    var all := ReleaseAll(t, order);
    assert (all + [LeaveEnd(t)])[..|all|] == all;
    LastLeaves(s, t, Run(s, all));
  }

  // ---- the handlers ----------------------------------------------------

  /** The socket and the store are those of the state, between two messages. */
  ghost predicate Mirrors(s: State, consumer: Consumer, locks: LockStore)
    reads consumer, locks
  {
    && locks.store == s.store && locks.now == s.now && consumer.token in s.sockets
    && s.sockets[consumer.token] == Socket(consumer.userLabel, consumer.held, Idle)
  }

  /** Each handler ends where the run of its steps ends, and sends what the run sends. */
  method ClaimAsRun(consumer: Consumer, locks: LockStore, c: ElementId, ghost s: State)
    returns (sent: seq<Broadcast>, reply: Reply, ghost after: Trace)
    requires Mirrors(s, consumer, locks)
    modifies consumer`held, locks`store
    ensures after == Run(s, ClaimSteps(consumer.token, c))
    ensures Mirrors(after.state, consumer, locks) && sent == after.sent
  {
    sent, reply := consumer.HandleClaim(locks, c);
    after := Run(s, ClaimSteps(consumer.token, c));
    ClaimRun(s, consumer.token, c);
  }

  method MoveAsRun(consumer: Consumer, locks: LockStore, c: ElementId, position: Position, ghost s: State)
    returns (sent: seq<Broadcast>, ghost after: Trace)
    requires Mirrors(s, consumer, locks)
    modifies locks`store
    ensures after == Run(s, MoveSteps(consumer.token, c, position))
    ensures Mirrors(after.state, consumer, locks) && sent == after.sent
  {
    sent := consumer.HandlePosition(locks, c, Some(position));
    after := Run(s, MoveSteps(consumer.token, c, position));
    MoveRun(s, consumer.token, c, position);
  }

  /** The row is written exactly when the run saves. */
  method ReleaseAsRun(
      consumer: Consumer, locks: LockStore, c: ElementId, target: Option<Position>, row: DocumentRow, ghost s: State)
    returns (sent: seq<Broadcast>, ghost after: Trace)
    requires Mirrors(s, consumer, locks)
    modifies consumer`held, locks`store, row
    ensures after == Run(s, ReleaseSteps(consumer.token, c, target))
    ensures Mirrors(after.state, consumer, locks) && sent == after.sent
    ensures row.content ==
      if SavesOnRelease(s, consumer.token, c, target) && target.Some? then SavePosition(old(row.content), c, target.value)
      else old(row.content)
  {
    ReleaseRun(s, consumer.token, c, target);
    ReleaseSaves(s, consumer.token, c, target);
    sent := consumer.HandleRelease(locks, c, target, Some(row));
    after := Run(s, ReleaseSteps(consumer.token, c, target));
  }

  method DisconnectAsRun(consumer: Consumer, locks: LockStore, ghost order: seq<ElementId>, ghost s: State)
    returns (sent: seq<Broadcast>, ghost after: Trace)
    requires Mirrors(s, consumer, locks) && Distinct(order) && Elements(order) == consumer.held
    modifies locks`store
    ensures after == Run(s, LeaveSteps(consumer.token, order))
    ensures locks.store == after.state.store && forall b :: b in sent <==> b in after.sent
    ensures InPhase(after.state, consumer.token, Gone)
  {
    sent := consumer.Disconnect(locks);
    after := Run(s, LeaveSteps(consumer.token, order));
    LeaveRun(s, consumer.token, order);
  }
}
