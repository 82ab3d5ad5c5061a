/** Every interleaving of any number of sockets, message by message and Redis call by Redis
    call, with time passing in between. */
module LockRuns {
  import opened Text
  import opened Seqs
  import opened Uml
  import opened Documents
  import opened Locks

  /** Where a socket is inside a handler; a socket handles one message at a time. */
  datatype Phase =
    | Idle
    | Claimed(classId: ElementId)
    | Refused(classId: ElementId)
    | Moving(classId: ElementId, position: Position)
    | Released(classId: ElementId, target: Option<Position>)
    | Saving(classId: ElementId, position: Position)
    | Unlocking(classId: ElementId)
    | Leaving(remaining: set<ElementId>)
    | LeavingUnlock(remaining: set<ElementId>, classId: ElementId)
    | Gone

  datatype Socket = Socket(userLabel: string, held: set<ElementId>, phase: Phase)

  datatype State = State(store: Store, now: nat, sockets: map<Token, Socket>)

  const INITIAL := State(map[], 0, map[])

  /** One atomic step: time passing, or one socket's next Redis call, write or broadcast. */
  datatype Action =
    | Tick(ms: nat)
    | Connect(token: Token, userLabel: string)
    | Claim(token: Token, classId: ElementId)
    | ReadOwner(token: Token)
    | FinishClaim(token: Token)
    | Move(token: Token, classId: ElementId, position: Position)
    | SendMove(token: Token)
    | Release(token: Token, classId: ElementId, target: Option<Position>)
    | Discard(token: Token)
    | Save(token: Token)
    | SendUnlock(token: Token)
    | Leave(token: Token)
    | LeaveRelease(token: Token, classId: ElementId)
    | LeaveSend(token: Token)
    | LeaveEnd(token: Token)

  predicate InPhase(s: State, token: Token, phase: Phase) {
    token in s.sockets && s.sockets[token].phase == phase
  }

  function At(s: State, token: Token, phase: Phase): State
    requires token in s.sockets
  {
    s.(sockets := s.sockets[token := s.sockets[token].(phase := phase)])
  }

  function Held(s: State, token: Token, held: set<ElementId>, phase: Phase): State
    requires token in s.sockets
  {
    s.(sockets := s.sockets[token := s.sockets[token].(held := held, phase := phase)])
  }

  /** A message to an idle socket, or the next step of its handler. */
  function SocketStep(s: State, action: Action): State
    requires !action.Tick? && !action.Connect? && action.token in s.sockets
  {
    var me := s.sockets[action.token];
    match (action, me.phase)
    case (Claim(t, c), Idle) =>
      if IsLive(s.store, s.now, c) then At(s, t, Refused(c))
      else At(s, t, Claimed(c)).(store := SetIfAbsent(s.store, s.now, c, t, me.userLabel))
    case (ReadOwner(t), Refused(_)) => At(s, t, Idle)
    case (FinishClaim(t), Claimed(c)) => Held(s, t, me.held + {c}, Idle)
    case (Move(t, c, position), Idle) =>
      if Holder(s.store, s.now, c) != Some(t) then s
      else At(s, t, Moving(c, position)).(store := RefreshScript(s.store, s.now, c, t))
    case (SendMove(t), Moving(_, _)) => At(s, t, Idle)
    case (Release(t, c, target), Idle) =>
      if Holder(s.store, s.now, c) != Some(t) then s
      else At(s, t, Released(c, target)).(store := ReleaseScript(s.store, s.now, c, t))
    case (Discard(t), Released(c, target)) =>
      Held(s, t, me.held - {c}, if target.Some? then Saving(c, target.value) else Unlocking(c))
    case (Save(t), Saving(c, _)) => At(s, t, Unlocking(c))
    case (SendUnlock(t), Unlocking(_)) => At(s, t, Idle)
    case (Leave(t), Idle) => At(s, t, Leaving(me.held))
    case (LeaveRelease(t, c), Leaving(remaining)) =>
      if c !in remaining then s
      else if Holder(s.store, s.now, c) != Some(t) then At(s, t, Leaving(remaining - {c}))
      else At(s, t, LeavingUnlock(remaining - {c}, c)).(store := ReleaseScript(s.store, s.now, c, t))
    case (LeaveSend(t), LeavingUnlock(remaining, _)) => At(s, t, Leaving(remaining))
    case (LeaveEnd(t), Leaving(remaining)) => if remaining == {} then At(s, t, Gone) else s
    case _ => s
  }

  /** A step that is not enabled changes nothing. Tokens are random hexadecimal text, so new and without `|`. */
  function Apply(s: State, action: Action): State {
    match action
    case Tick(ms) => s.(now := s.now + ms)
    case Connect(token, userLabel) =>
      if token in s.sockets || '|' in token then s
      else s.(sockets := s.sockets[token := Socket(userLabel, {}, Idle)])
    case _ => if action.token in s.sockets then SocketStep(s, action) else s
  }

  /** The state after a run. */
  function After(actions: seq<Action>): State {
    if actions == [] then INITIAL
    else Apply(After(actions[..|actions| - 1]), actions[|actions| - 1])
  }

  // ---- no socket touches another's lock --------------------------------

  /** Whatever a socket does, a node that another token holds keeps its value and its
      deadline, also when that token claimed it after this socket's lock expired. */
  lemma OthersAreSpared(s: State, action: Action, x: ElementId)
    requires Holder(s.store, s.now, x).Some?
    requires action.Tick? || Holder(s.store, s.now, x) != Some(action.token)
    ensures x in Apply(s, action).store && Apply(s, action).store[x] == s.store[x]
  {
  }

  // ---- live locks are held ---------------------------------------------

  /** The socket still has to release the node, or has only just won it. */
  predicate HasStake(socket: Socket, x: ElementId) {
    match socket.phase
    case Gone => false
    case Leaving(remaining) => x in remaining
    case LeavingUnlock(remaining, _) => x in remaining
    case Claimed(c) => x == c || x in socket.held
    case Released(c, _) => x in socket.held && x != c
    case _ => x in socket.held
  }

  ghost predicate LockIsHeld(s: State, x: ElementId) {
    IsLive(s.store, s.now, x) ==>
      && Holder(s.store, s.now, x).Some?
      && Holder(s.store, s.now, x).value in s.sockets
      && HasStake(s.sockets[Holder(s.store, s.now, x).value], x)
  }

  ghost predicate Inv(s: State) {
    && (forall t :: t in s.sockets ==> '|' !in t)
    && forall x :: LockIsHeld(s, x)
  }

  lemma StepKeepsInv(s: State, action: Action)
    requires Inv(s)
    ensures Inv(Apply(s, action))
  {
    var after := Apply(s, action);
    if action.Claim? && action.token in s.sockets {
      ValueReadsBack(action.token, s.sockets[action.token].userLabel);
    }
    hide OwnerIn;
    forall x ensures LockIsHeld(after, x) {
      assert LockIsHeld(s, x);
    }
  }

  lemma {:induction false} RunKeepsInv(actions: seq<Action>)
    ensures Inv(After(actions))
  {
    hide Apply, Inv;
    if actions == [] {
      InitialInv();
    } else {
      RunKeepsInv(actions[..|actions| - 1]);
      StepKeepsInv(After(actions[..|actions| - 1]), actions[|actions| - 1]);
    }
  }

  lemma InitialInv()
    ensures Inv(INITIAL)
  {
  }

  /** In every reachable state a live lock belongs to one connected socket, which has a stake in
      the node: between messages it is in `held`, a socket about to go still has to release it,
      and a socket that is gone has no stake. */
  lemma LiveLocksAreHeld(actions: seq<Action>, x: ElementId)
    requires IsLive(After(actions).store, After(actions).now, x)
    ensures var s := After(actions);
      && Holder(s.store, s.now, x).Some?
      && var t := Holder(s.store, s.now, x).value;
         && t in s.sockets && HasStake(s.sockets[t], x)
         && s.sockets[t].phase != Gone
         && (s.sockets[t].phase == Idle ==> x in s.sockets[t].held)
         && (s.sockets[t].phase.Leaving? ==> x in s.sockets[t].phase.remaining)
  {
    RunKeepsInv(actions);
    assert LockIsHeld(After(actions), x);
    hide After;
  }

  lemma NothingSurvivesDisconnect(actions: seq<Action>, t: Token, x: ElementId)
    requires InPhase(After(actions), t, Gone)
    ensures Holder(After(actions).store, After(actions).now, x) != Some(t)
  {
    RunKeepsInv(actions);
    assert LockIsHeld(After(actions), x);
    hide After;
  }

  // ---- every broadcast position passed a refresh -----------------------

  /** At step `j` the socket refreshed the node as its holder, and has waited to send that frame since. */
  ghost predicate RefreshedAt(actions: seq<Action>, j: nat, t: Token, c: ElementId, position: Position) {
    && j < |actions| && actions[j] == Move(t, c, position)
    && InPhase(After(actions[..j]), t, Idle)
    && Holder(After(actions[..j]).store, After(actions[..j]).now, c) == Some(t)
    && forall k :: j < k <= |actions| ==> InPhase(After(actions[..k]), t, Moving(c, position))
  }

  /** A frame about to be sent was authorised by its own refresh, made while the sender held the node. */
  lemma {:induction false} MoveWasRefreshed(actions: seq<Action>, t: Token, c: ElementId, position: Position)
    requires InPhase(After(actions), t, Moving(c, position))
    ensures exists j: nat :: RefreshedAt(actions, j, t, c, position)
  {
    if actions != [] {
      var n := |actions| - 1;
      var before := After(actions[..n]);
      FullPrefix(actions);
      if InPhase(before, t, Moving(c, position)) {
        MoveWasRefreshed(actions[..n], t, c, position);
        var j: nat :| RefreshedAt(actions[..n], j, t, c, position);
        hide After;
        assert forall k :: 0 <= k <= n ==> actions[..n][..k] == actions[..k];
        assert RefreshedAt(actions, j, t, c, position);
      } else {
        EntersMoving(before, actions[n], t, c, position);
        assert actions[..n + 1] == actions;
        assert RefreshedAt(actions, n, t, c, position);
      }
    }
  }

  lemma EntersMoving(s: State, action: Action, t: Token, c: ElementId, position: Position)
    requires InPhase(Apply(s, action), t, Moving(c, position)) && !InPhase(s, t, Moving(c, position))
    ensures action == Move(t, c, position) && InPhase(s, t, Idle) && Holder(s.store, s.now, c) == Some(t)
  {
  }

  // ---- saves never exceed claims ---------------------------------------

  predicate WinsClaim(s: State, action: Action, c: ElementId) {
    action.Claim? && action.classId == c && InPhase(s, action.token, Idle) && !IsLive(s.store, s.now, c)
  }

  predicate Saves(s: State, action: Action, c: ElementId) {
    action.Save? && action.token in s.sockets
    && s.sockets[action.token].phase.Saving? && s.sockets[action.token].phase.classId == c
  }

  /** Successful claims of the node in a run. */
  function Claims(actions: seq<Action>, c: ElementId): nat {
    if actions == [] then 0
    else
      var n := |actions| - 1;
      Claims(actions[..n], c) + if WinsClaim(After(actions[..n]), actions[n], c) then 1 else 0
  }

  /** Layout saves for the node in a run. */
  function SavesOf(actions: seq<Action>, c: ElementId): nat {
    if actions == [] then 0
    else
      var n := |actions| - 1;
      SavesOf(actions[..n], c) + if Saves(After(actions[..n]), actions[n], c) then 1 else 0
  }

  /** Sockets that have released the node with a position and not saved it yet. */
  function PendingSaves(sockets: map<Token, Socket>, c: ElementId): set<Token> {
    set t | t in sockets && OwesSave(sockets[t], c)
  }

  predicate OwesSave(socket: Socket, c: ElementId) {
    || (socket.phase.Released? && socket.phase.classId == c && socket.phase.target.Some?)
    || (socket.phase.Saving? && socket.phase.classId == c)
  }

  /** Every claim is still in the store, has been released for a save to come, or is spent. */
  function Spent(s: State, c: ElementId): nat {
    |PendingSaves(s.sockets, c)| + Stored(s, c)
  }

  predicate TokenOwes(sockets: map<Token, Socket>, t: Token, c: ElementId) {
    t in sockets && OwesSave(sockets[t], c)
  }

  lemma PendingAfterUpdate(sockets: map<Token, Socket>, t: Token, socket: Socket, c: ElementId)
    ensures |PendingSaves(sockets[t := socket], c)| + (if TokenOwes(sockets, t, c) then 1 else 0)
      == |PendingSaves(sockets, c)| + (if OwesSave(socket, c) then 1 else 0)
  {
    hide OwesSave;
    var others := PendingSaves(sockets, c) - {t};
    CountAfter(PendingSaves(sockets, c), others, t, TokenOwes(sockets, t, c));
    CountAfter(PendingSaves(sockets[t := socket], c), others, t, OwesSave(socket, c));
  }

  /** Counting one element more or less. */
  lemma CountAfter(whole: set<Token>, others: set<Token>, t: Token, isIn: bool)
    requires t !in others && (isIn <==> t in whole) && forall x :: x != t ==> (x in whole <==> x in others)
    ensures |whole| == |others| + if isIn then 1 else 0
  {
    assert whole == if isIn then others + {t} else others;
  }

  /** At most the acting socket changes. */
  lemma OneSocketChanges(s: State, action: Action)
    ensures action.Tick? ==> Apply(s, action).sockets == s.sockets
    ensures !action.Tick? && Apply(s, action).sockets != s.sockets ==>
      && action.token in Apply(s, action).sockets
      && Apply(s, action).sockets == s.sockets[action.token := Apply(s, action).sockets[action.token]]
  {
  }

  function Stored(s: State, c: ElementId): nat {
    if c in s.store then 1 else 0
  }

  /** What the acting socket pays: one more save or one more owed needs a claim or a stored lock. */
  lemma SocketPays(s: State, action: Action, c: ElementId)
    requires !action.Tick?
    ensures var after := Apply(s, action);
      (if TokenOwes(after.sockets, action.token, c) then 1 else 0) + Stored(after, c) + (if Saves(s, action, c) then 1 else 0)
      <= (if TokenOwes(s.sockets, action.token, c) then 1 else 0) + Stored(s, c) + (if WinsClaim(s, action, c) then 1 else 0)
  {
    hide OwnerIn;
  }

  lemma StepPays(s: State, action: Action, c: ElementId)
    ensures Spent(Apply(s, action), c) + (if Saves(s, action, c) then 1 else 0)
      <= Spent(s, c) + (if WinsClaim(s, action, c) then 1 else 0)
  {
    OneSocketChanges(s, action);
    var after := Apply(s, action);
    if action.Tick? {
      assert !Saves(s, action, c);
      return;
    }
    SocketPays(s, action, c);
    hide Apply, Saves, WinsClaim, OwesSave;
    if after.sockets != s.sockets {
      PendingAfterUpdate(s.sockets, action.token, after.sockets[action.token], c);
    }
    hide PendingSaves;
  }

  lemma {:induction false} SavesArePaid(actions: seq<Action>, c: ElementId)
    ensures SavesOf(actions, c) + Spent(After(actions), c) <= Claims(actions, c)
  {
    if actions == [] {
      assert PendingSaves(INITIAL.sockets, c) == {};
    } else {
      var n := |actions| - 1;
      SavesArePaid(actions[..n], c);
      StepPays(After(actions[..n]), actions[n], c);
    }
    hide Apply, Spent, Saves, WinsClaim;
  }

  /** In every run the layout saves for a node never exceed its successful claims. */
  lemma SavesNeverExceedClaims(actions: seq<Action>, c: ElementId)
    ensures SavesOf(actions, c) <= Claims(actions, c)
  {
    SavesArePaid(actions, c);
  }
}
