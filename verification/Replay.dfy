/**
 * The signer's durable one-time authorization fence (src/signer/replay.ts): a table moved by
 * compare-and-set, as a value with its statements and as the object that updates it in place.
 */
module Replay {
  import opened Options

  datatype State =
    | Claimed | Signed | Reconciliation | Broadcast | Confirmed | Reverted | Expired | Dropped | Failed

  /** The JSON payloads the signer stores; a field a payload lacks is None. */
  datatype Payload = Payload(
    requestHash: Option<string>,
    transaction: Option<string>,
    signature: Option<string>,
    expected: Option<string>,
    lastValidBlockHeight: Option<int>)

  /** A row; `data` is None for SQL NULL. */
  datatype Row = Row(expiresAt: int, state: State, version: nat, data: Option<Payload>, recovered: bool)

  type Table = map<string, Row>

  /** INSERT OR IGNORE: false for an empty id, an unsafe expiry (None) or an id already there. */
  predicate MayConsume(t: Table, id: string, expiresAt: Option<int>) {
    id != "" && expiresAt.Some? && id !in t
  }

  function Consume(t: Table, id: string, expiresAt: Option<int>): Table {
    if MayConsume(t, id, expiresAt) then t[id := Row(expiresAt.value, Claimed, 1, None, false)] else t
  }

  predicate MayTransition(t: Table, id: string, from: State) {
    id in t && t[id].state == from
  }

  /** Compare-and-set on the current state. */
  function Transition(t: Table, id: string, from: State, to: State, data: Option<Payload>): Table {
    if MayTransition(t, id, from)
    then t[id := t[id].(state := to, data := data, version := t[id].version + 1)]
    else t
  }

  predicate MayRecover(t: Table, id: string) {
    id in t && t[id].state == Signed && !t[id].recovered
  }

  function RecoverSigned(t: Table, id: string): Table {
    if MayRecover(t, id) then t[id := t[id].(recovered := true, version := t[id].version + 1)] else t
  }

  class SqliteReplayStore {
    var rows: Table

    constructor ()
      ensures rows == map[]
    {
      rows := map[];
    }

    method ConsumeId(id: string, expiresAt: Option<int>) returns (consumed: bool)
      modifies this
      ensures consumed == MayConsume(old(rows), id, expiresAt)
      ensures rows == Consume(old(rows), id, expiresAt)
    {
      if id == "" || expiresAt.None? {
        return false;
      }
      consumed := id !in rows;
      if consumed {
        rows := rows[id := Row(expiresAt.value, Claimed, 1, None, false)];
      }
    }

    method CompareAndSet(id: string, from: State, to: State, data: Option<Payload>) returns (moved: bool)
      modifies this
      ensures moved == MayTransition(old(rows), id, from)
      ensures rows == Transition(old(rows), id, from, to, data)
    {
      moved := id in rows && rows[id].state == from;
      if moved {
        rows := rows[id := rows[id].(state := to, data := data, version := rows[id].version + 1)];
      }
    }

    /** Releases the payload of a signed row to one caller only. */
    method TakeSigned(id: string) returns (data: Option<Payload>)
      modifies this
      ensures rows == RecoverSigned(old(rows), id)
      ensures data == if MayRecover(old(rows), id) then old(rows)[id].data else None
    {
      data := None;
      if id in rows && rows[id].state == Signed && !rows[id].recovered {
        data := rows[id].data;
        rows := rows[id := rows[id].(recovered := true, version := rows[id].version + 1)];
      }
    }
  }
}
