/**
 * The durable `websocket_clients` table and `WebsocketClientService.endSession`
 * (src/services/websocket_clients.service.ts). A row's `deleted` flag is the
 * soft-delete column; a row's id is its position in the table.
 */
module Sessions {
  import opened Wrappers
  import opened Models
  import opened Exceptions

  datatype SessionRow = SessionRow(
    id: nat, userId: nat, deviceId: nat, uuid: string,
    startedAt: nat, endedAt: Option<nat>, deleted: bool)

  /** A non-deleted row of this (user, device). */
  predicate LiveFor(row: SessionRow, userId: nat, deviceId: nat) {
    !row.deleted && row.userId == userId && row.deviceId == deviceId
  }

  /** A non-deleted row of this (user, device, session uuid). */
  predicate LiveSession(row: SessionRow, userId: nat, deviceId: nat, uuid: string) {
    LiveFor(row, userId, deviceId) && row.uuid == uuid
  }

  /** `findOne` among the non-deleted rows: the first row of that session. */
  function FindSession(rows: seq<SessionRow>, userId: nat, deviceId: nat, uuid: string): (r: Option<nat>)
    ensures r.Some? ==> r.value < |rows| && LiveSession(rows[r.value], userId, deviceId, uuid)
    ensures r.Some? ==> forall j :: 0 <= j < r.value ==> !LiveSession(rows[j], userId, deviceId, uuid)
    ensures r.None? <==> forall j :: 0 <= j < |rows| ==> !LiveSession(rows[j], userId, deviceId, uuid)
  {
    if |rows| == 0 then None
    else if LiveSession(rows[0], userId, deviceId, uuid) then Some(0)
    else match FindSession(rows[1..], userId, deviceId, uuid)
      case None => None
      case Some(j) => Some(j + 1)
  }

  /**
   * The crash-recovery reconciliation of `login`: every non-deleted row of
   * (user, device) is stamped with `endedAt` and then soft-deleted.
   */
  function CloseOrphans(rows: seq<SessionRow>, userId: nat, deviceId: nat, now: nat): (r: seq<SessionRow>)
    ensures |r| == |rows|
    ensures forall i :: 0 <= i < |rows| && LiveFor(rows[i], userId, deviceId) ==>
              r[i] == rows[i].(endedAt := Some(now), deleted := true)
    ensures forall i :: 0 <= i < |rows| && !LiveFor(rows[i], userId, deviceId) ==> r[i] == rows[i]
    ensures forall i :: 0 <= i < |r| ==> !LiveFor(r[i], userId, deviceId)
  {
    seq(|rows|, i requires 0 <= i < |rows| =>
      if LiveFor(rows[i], userId, deviceId) then rows[i].(endedAt := Some(now), deleted := true) else rows[i])
  }

  class SessionTable {
    var rows: seq<SessionRow>

    ghost predicate Valid()
      reads this
    {
      forall i :: 0 <= i < |rows| ==> rows[i].id == i
    }

    constructor ()
      ensures Valid() && rows == []
    {
      rows := [];
    }

    /** `insert`: a new open row with the next id. */
    method Insert(userId: nat, deviceId: nat, uuid: string, now: nat)
      requires Valid()
      modifies this
      ensures Valid()
      ensures rows == old(rows) + [SessionRow(|old(rows)|, userId, deviceId, uuid, now, None, false)]
    {
      rows := rows + [SessionRow(|rows|, userId, deviceId, uuid, now, None, false)];
    }

    /** The two bulk queries of `login`'s crash recovery: update `endedAt`, then delete. */
    method CloseOrphanSessions(userId: nat, deviceId: nat, now: nat)
      requires Valid()
      modifies this
      ensures Valid()
      ensures rows == CloseOrphans(old(rows), userId, deviceId, now)
    {
      var before := rows;
      var stamped := seq(|before|, i requires 0 <= i < |before| =>
        if LiveFor(before[i], userId, deviceId) then before[i].(endedAt := Some(now)) else before[i]);
      rows := seq(|stamped|, i requires 0 <= i < |stamped| =>
        if LiveFor(stamped[i], userId, deviceId) then stamped[i].(deleted := true) else stamped[i]);
    }

    /**
     * `endSession`: 404 when no non-deleted row matches the three of user,
     * device and session uuid; otherwise that row, addressed by its id, is
     * stamped with `endedAt` and then soft-deleted, and nothing else changes.
     */
    method EndSession(user: User, device: Device, sessionId: string, now: nat) returns (r: Outcome)
      requires Valid()
      modifies this
      ensures Valid()
      ensures FindSession(old(rows), user.id, device.id, sessionId).None? ==>
                r == Fail(HttpException(404, "Session not found")) && rows == old(rows)
      ensures FindSession(old(rows), user.id, device.id, sessionId).Some? ==>
                var i := FindSession(old(rows), user.id, device.id, sessionId).value;
                r == Pass && rows == old(rows)[i := old(rows)[i].(endedAt := Some(now), deleted := true)]
    {
      var findSession := FindSession(rows, user.id, device.id, sessionId);
      if findSession.None? {
        return Fail(HttpException(404, "Session not found"));
      }
      var id := rows[findSession.value].id;
      rows := rows[id := rows[id].(endedAt := Some(now))];
      rows := rows[id := rows[id].(deleted := true)];
      r := Pass;
    }
  }

}
