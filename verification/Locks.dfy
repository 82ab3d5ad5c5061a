/** Node locks of one document (`uml_documents/locks.py`) and the socket that uses them
    (`uml_documents/consumers.py`). */
module Locks {
  import opened Text
  import opened Uml
  import opened Documents
  import opened DocumentRows

  type Token = string

  const LOCK_TTL_MS := 10_000

  /** A key's value and the moment it expires. */
  datatype Lock = Lock(value: string, deadline: nat)

  /** Expired keys may still be in the map; they are invisible. */
  type Store = map<ElementId, Lock>

  // ---- values ----------------------------------------------------------

  function ValueOf(token: Token, userLabel: string): string {
    token + "|" + userLabel
  }

  /** The text before the first `|`; the scripts match nothing when there is none. */
  function OwnerIn(value: string): Option<Token> {
    if value == [] then None
    else if value[0] == '|' then Some([])
    else
      match OwnerIn(value[1..])
      case None => None
      case Some(rest) => Some([value[0]] + rest)
  }

  /** `partition("|")`: the text after the first `|`, empty when there is none. */
  function LabelIn(value: string): string {
    if value == [] then []
    else if value[0] == '|' then value[1..]
    else LabelIn(value[1..])
  }

  /** Owner and label are read back from the value, whatever the label contains. */
  lemma {:induction false} ValueReadsBack(token: Token, userLabel: string)
    requires '|' !in token
    ensures OwnerIn(ValueOf(token, userLabel)) == Some(token)
    ensures LabelIn(ValueOf(token, userLabel)) == userLabel
  {
    if token == [] {
      assert ValueOf(token, userLabel)[1..] == userLabel;
    } else {
      ValueReadsBack(token[1..], userLabel);
      assert ValueOf(token, userLabel)[1..] == ValueOf(token[1..], userLabel);
      assert token == [token[0]] + token[1..];
    }
  }

  // ---- the atomic commands ---------------------------------------------

  predicate IsLive(store: Store, now: nat, classId: ElementId) {
    classId in store && now < store[classId].deadline
  }

  /** The token that holds the node now. */
  function Holder(store: Store, now: nat, classId: ElementId): Option<Token> {
    if IsLive(store, now, classId) then OwnerIn(store[classId].value) else None
  }

  /** `SET key value NX PX ttl`. */
  function SetIfAbsent(store: Store, now: nat, classId: ElementId, token: Token, userLabel: string): Store {
    if IsLive(store, now, classId) then store
    else store[classId := Lock(ValueOf(token, userLabel), now + LOCK_TTL_MS)]
  }

  /** The refresh script: compare and expire. */
  function RefreshScript(store: Store, now: nat, classId: ElementId, token: Token): Store {
    if Holder(store, now, classId) == Some(token)
    then store[classId := Lock(store[classId].value, now + LOCK_TTL_MS)]
    else store
  }

  /** The release script: compare and delete. */
  function ReleaseScript(store: Store, now: nat, classId: ElementId, token: Token): Store {
    if Holder(store, now, classId) == Some(token) then store - {classId} else store
  }

  /** No script run by one token touches a node another token holds. */
  lemma ScriptsSpareOthers(store: Store, now: nat, x: ElementId, classId: ElementId, token: Token, userLabel: string)
    requires Holder(store, now, x).Some? && Holder(store, now, x) != Some(token)
    ensures x in SetIfAbsent(store, now, classId, token, userLabel)
      && SetIfAbsent(store, now, classId, token, userLabel)[x] == store[x]
    ensures x in RefreshScript(store, now, classId, token) && RefreshScript(store, now, classId, token)[x] == store[x]
    ensures x in ReleaseScript(store, now, classId, token) && ReleaseScript(store, now, classId, token)[x] == store[x]
  {
  }

  class LockStore {
    var store: Store
    var now: nat

    constructor ()
      ensures store == map[] && now == 0
    {
      store, now := map[], 0;
    }

    /** Without interference between the `SET` and the `GET`. */
    method Claim(classId: ElementId, token: Token, userLabel: string) returns (ok: bool, owner: Option<string>)
      modifies this`store
      ensures ok == !IsLive(old(store), now, classId)
      ensures store == SetIfAbsent(old(store), now, classId, token, userLabel)
      ensures owner == if ok then None else Some(LabelIn(old(store)[classId].value))
    {
      ok := !IsLive(store, now, classId);
      if ok {
        store := store[classId := Lock(ValueOf(token, userLabel), now + LOCK_TTL_MS)];
        return ok, None;
      }
      return ok, Some(LabelIn(store[classId].value));
    }

    method Refresh(classId: ElementId, token: Token) returns (ok: bool)
      modifies this`store
      ensures ok == (Holder(old(store), now, classId) == Some(token))
      ensures store == RefreshScript(old(store), now, classId, token)
    {
      ok := false;
      if IsLive(store, now, classId) && OwnerIn(store[classId].value) == Some(token) {
        store := store[classId := Lock(store[classId].value, now + LOCK_TTL_MS)];
        ok := true;
      }
    }

    method Release(classId: ElementId, token: Token) returns (ok: bool)
      modifies this`store
      ensures ok == (Holder(old(store), now, classId) == Some(token))
      ensures store == ReleaseScript(old(store), now, classId, token)
    {
      ok := false;
      if IsLive(store, now, classId) && OwnerIn(store[classId].value) == Some(token) {
        store := store - {classId};
        ok := true;
      }
    }
  }

  // ---- the socket ------------------------------------------------------

  /** What goes to every socket of the document. */
  datatype Broadcast =
    | NodeLocked(classId: ElementId, userLabel: string, owner: Token)
    | NodeMoved(classId: ElementId, position: Position, owner: Token)
    | NodeUnlocked(classId: ElementId)

  /** The answer to the client itself, if any. */
  datatype Reply = Silent | ClaimRejected(classId: ElementId, owner: Option<string>)

  class Consumer {
    const token: Token
    const userLabel: string
    var held: set<ElementId>

    constructor (token: Token, userLabel: string)
      ensures this.token == token && this.userLabel == userLabel && held == {}
    {
      this.token, this.userLabel, held := token, userLabel, {};
    }

    method HandleClaim(locks: LockStore, classId: ElementId) returns (sent: seq<Broadcast>, reply: Reply)
      modifies this`held, locks`store
      ensures locks.store == SetIfAbsent(old(locks.store), locks.now, classId, token, userLabel)
      ensures IsLive(old(locks.store), locks.now, classId) ==>
        && held == old(held) && sent == []
        && reply == ClaimRejected(classId, Some(LabelIn(old(locks.store)[classId].value)))
      ensures !IsLive(old(locks.store), locks.now, classId) ==>
        held == old(held) + {classId} && sent == [NodeLocked(classId, userLabel, token)] && reply == Silent
    {
      var ok, owner := locks.Claim(classId, token, userLabel);
      if ok {
        held := held + {classId};
        return [NodeLocked(classId, userLabel, token)], Silent;
      }
      return [], ClaimRejected(classId, owner);
    }

    /** A frame without numeric coordinates is dropped. */
    method HandlePosition(locks: LockStore, classId: ElementId, position: Option<Position>) returns (sent: seq<Broadcast>)
      modifies locks`store
      ensures position.None? ==> locks.store == old(locks.store) && sent == []
      ensures position.Some? ==>
        && locks.store == RefreshScript(old(locks.store), locks.now, classId, token)
        && sent ==
             if Holder(old(locks.store), locks.now, classId) == Some(token)
             then [NodeMoved(classId, position.value, token)] else []
    {
      if position.None? {
        return [];
      }
      var ok := locks.Refresh(classId, token);
      return if ok then [NodeMoved(classId, position.value, token)] else [];
    }

    /** Only the holder unlocks; the position, if given, is saved once. `row` is `None` when the document is gone. */
    method HandleRelease(locks: LockStore, classId: ElementId, position: Option<Position>, row: Option<DocumentRow>)
        returns (sent: seq<Broadcast>)
      modifies this`held, locks`store, if row.Some? then {row.value} else {}
      ensures locks.store == ReleaseScript(old(locks.store), locks.now, classId, token)
      ensures Holder(old(locks.store), locks.now, classId) != Some(token) ==>
        held == old(held) && sent == [] && (row.Some? ==> row.value.content == old(row.value.content))
      ensures Holder(old(locks.store), locks.now, classId) == Some(token) ==>
        && held == old(held) - {classId} && sent == [NodeUnlocked(classId)]
        && (row.Some? ==>
              row.value.content ==
                if position.Some? then SavePosition(old(row.value.content), classId, position.value)
                else old(row.value.content))
    {
      var released := locks.Release(classId, token);
      if !released {
        return [];
      }
      held := held - {classId};
      if position.Some? && row.Some? {
        row.value.SaveLayoutPosition(classId, position.value);
      }
      return [NodeUnlocked(classId)];
    }

    /** Releases whatever is still held; afterwards no node is held by this token that was in `held`. */
    method Disconnect(locks: LockStore) returns (sent: seq<Broadcast>)
      modifies locks`store
      ensures forall x :: x in locks.store <==>
        x in old(locks.store) && !(x in held && Holder(old(locks.store), locks.now, x) == Some(token))
      ensures forall x :: x in locks.store ==> locks.store[x] == old(locks.store)[x]
      ensures forall b :: b in sent <==>
        b.NodeUnlocked? && b.classId in held && Holder(old(locks.store), locks.now, b.classId) == Some(token)
      ensures Distinct(sent)
    {
      sent := [];
      var pending := held;
      while pending != {}
        invariant pending <= held
        invariant forall x :: x in locks.store <==>
          x in old(locks.store) && !(x in held - pending && Holder(old(locks.store), locks.now, x) == Some(token))
        invariant forall x :: x in locks.store ==> locks.store[x] == old(locks.store)[x]
        invariant forall b :: b in sent <==>
          b.NodeUnlocked? && b.classId in held - pending && Holder(old(locks.store), locks.now, b.classId) == Some(token)
        invariant Distinct(sent)
      {
        var classId :| classId in pending;
        pending := pending - {classId};
        var released := locks.Release(classId, token);
        if released {
          sent := sent + [NodeUnlocked(classId)];
        }
      }
    }
  }
}
