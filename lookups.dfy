/**
 * The thin finders and the notification sink the controllers call:
 * `UserService.findUserById`, `SnapShapeService.findShapShapeById`,
 * `SnapShapePositionService.findSnapShapePositionById`,
 * `SnapInstanceUserService.findSnapsInstancesUsersBySnapInstanceId` as
 * lookups in a read-only store, and the push notifications as recorded events.
 */
module Lookups {
  import opened Wrappers
  import opened Models
  import opened Exceptions

  datatype ShapeInfo = ShapeInfo(id: nat, name: string)

  /** A row of `snaps_instances_users` as the controllers read it. */
  datatype Participant = Participant(id: nat, snapInstanceId: nat, userId: nat, positionId: nat, isJoined: bool, deleted: bool)

  /** The tables behind the thin finders; the three maps hold the non-deleted rows. */
  datatype Store = Store(
    users: map<nat, User>,
    shapes: map<nat, ShapeInfo>,
    positions: map<nat, string>,
    participants: seq<Participant>)

  /** A push notification the controllers hand to the notification service. */
  datatype Notification =
    | SnapSyncNotification(key: string, invitedIds: seq<int>, from: User)
    | SnapSyncAccepted(key: string, ownerIds: seq<nat>, joinedUsername: string)

  /** `findUserById`. */
  function FindUserById(store: Store, id: nat): (r: Result<User>)
    ensures r.Ok? <==> id in store.users
    ensures r.Ok? ==> r.value == store.users[id]
    ensures r.Err? ==> r.error == HttpException(404, "User not found")
  {
    if id in store.users then Ok(store.users[id]) else Err(HttpException(404, "User not found"))
  }

  /** `findShapShapeById`. */
  function FindShapeById(store: Store, id: nat): (r: Result<ShapeInfo>)
    ensures r.Ok? <==> id in store.shapes
    ensures r.Ok? ==> r.value == store.shapes[id]
    ensures r.Err? ==> r.error == HttpException(404, "Shape not found.")
  {
    if id in store.shapes then Ok(store.shapes[id]) else Err(HttpException(404, "Shape not found."))
  }

  /** `findSnapShapePositionById`: the position's name. */
  function FindPositionById(store: Store, id: nat): (r: Result<string>)
    ensures r.Ok? <==> id in store.positions
    ensures r.Ok? ==> r.value == store.positions[id]
    ensures r.Err? ==> r.error == HttpException(404, "Shape position not found.")
  {
    if id in store.positions then Ok(store.positions[id]) else Err(HttpException(404, "Shape position not found."))
  }

  /** `findSnapsInstancesUsersBySnapInstanceId`: the instance's non-deleted rows, in table order. */
  function ParticipantsOf(rows: seq<Participant>, instanceId: nat): (r: seq<Participant>)
    ensures forall p :: p in r <==> p in rows && !p.deleted && p.snapInstanceId == instanceId
    ensures |r| <= |rows|
  {
    if |rows| == 0 then []
    else if !rows[0].deleted && rows[0].snapInstanceId == instanceId then [rows[0]] + ParticipantsOf(rows[1..], instanceId)
    else ParticipantsOf(rows[1..], instanceId)
  }
}
