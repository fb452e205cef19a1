/**
 * `SnapsInstancesController` of src/controllers/snaps_instaces.controller.ts,
 * the controller src/server.ts imports. Service calls whose definitions are
 * not shown (`generateKey`, `findSnapInstanceByKey`) and the service calls
 * whose DTO fields do not line up with the service's are parameters: their
 * results are given, the controller's own logic is modelled.
 */
module LiveController {
  import opened Wrappers
  import opened Text
  import opened Models
  import opened Wss
  import opened Exceptions
  import opened Lookups
  import opened Registry

  /** The yup schema of `CreateSnapInstance`, run with `abortEarly: false`: one message per missing required field. */
  function CreateValidationErrors(data: RequestData): (errors: seq<string>)
    ensures errors == [] <==>
              && data.snapShapeId.Some? && data.users.Some?
              && forall i :: 0 <= i < |data.users.value| ==>
                   data.users.value[i].id.Some? && Truthy(data.users.value[i].position)
    ensures data.snapShapeId.None? ==> "snapShapeId is a required field" in errors
    ensures data.users.None? ==> "users is a required field" in errors
  {
    (if data.snapShapeId.None? then ["snapShapeId is a required field"] else [])
    + (match data.users
       case None => ["users is a required field"]
       case Some(users) => InviteErrors(users, 0))
  }

  function InviteErrors(users: seq<InviteRequest>, from: nat): (errors: seq<string>)
    ensures errors == [] <==> forall i :: from <= i < |users| ==> users[i].id.Some? && Truthy(users[i].position)
    decreases |users| - from
  {
    if from >= |users| then []
    else
      var path := "users[" + NatToString(from) + "]";
      (if users[from].id.None? then [path + ".id is a required field"] else [])
      + (if !Truthy(users[from].position) then [path + ".position is a required field"] else [])
      + InviteErrors(users, from + 1)
  }

  /** `typedData.users.map(item => item.id)` on validated data. */
  function InvitedIds(users: seq<InviteRequest>): (ids: seq<int>)
    requires forall i :: 0 <= i < |users| ==> users[i].id.Some?
    ensures |ids| == |users| && forall i :: 0 <= i < |users| ==> ids[i] == users[i].id.value
  {
    seq(|users|, i requires 0 <= i < |users| => users[i].id.value)
  }

  /** The title of `GetSnapInstance`, from the timer flag and the number of participant rows. */
  function LiveTitle(start: bool, participantCount: nat): string {
    if start then "You and " + SyncedWith(participantCount) else "Wait your friends..."
  }

  /** What follows "You and " once the timer runs: the username placeholder for a pair, else a count of friends. */
  function SyncedWith(participantCount: nat): string {
    if participantCount - 1 == 1 then "{{username}} sync in {{timer}}"
    else IntToString(participantCount - 1) + " friends sync in {{timer}}"
  }

  /**
   * The three titles: before the timer starts, the waiting text; after, the
   * placeholder for the one friend of a pair, or else a count that reads
   * back as the number of participants other than the creator.
   */
  lemma LiveTitleCases(start: bool, participantCount: nat)
    ensures !start ==> LiveTitle(start, participantCount) == "Wait your friends..."
    ensures start ==> LiveTitle(start, participantCount)[..8] == "You and "
    ensures start && participantCount == 2 ==>
              LiveTitle(start, participantCount)[8..] == "{{username}} sync in {{timer}}"
    ensures start && participantCount != 2 && participantCount >= 1 ==>
              ParseInt(LiveTitle(start, participantCount)[8..]) == Some(participantCount - 1)
  {
    if start {
      var tail := SyncedWith(participantCount);
      assert LiveTitle(start, participantCount)[..8] == "You and ";
      assert LiveTitle(start, participantCount)[8..] == tail;
      if participantCount != 2 && participantCount >= 1 {
        ParseIntOfRendered(participantCount - 1, " friends sync in {{timer}}");
      }
    }
  }

  class SnapsInstancesController {
    const snapsInstances: ClassSnapsInstances
    var notifications: seq<Notification>

    ghost predicate Valid()
      reads this, snapsInstances
    {
      snapsInstances.Valid()
    }

    constructor ()
      ensures Valid() && fresh(snapsInstances)
      ensures snapsInstances.instances == map[] && notifications == []
    {
      snapsInstances := new ClassSnapsInstances();
      notifications := [];
    }

    /** Neither the registry nor the notifications changed. */
    twostate predicate Untouched()
      reads this, snapsInstances, snapsInstances.instances.Values
    {
      && snapsInstances.instances == old(snapsInstances.instances)
      && snapsInstances.Clients() == old(snapsInstances.Clients())
      && notifications == old(notifications)
    }

    /**
     * `CreateSnapInstance`: 400 without data, 401 without user or device,
     * 409 when the client is already in an instance, the validation errors,
     * the service's error, the registry's error on a taken key; otherwise
     * the instance is registered under `key` with the creator as its only
     * client, the invitees are notified, and `key` is returned.
     * `key` is what `generateKey` gives, `created` what `createSnapInstance` gives.
     */
    method CreateSnapInstance(data: Option<RequestData>, client: Connection, key: string, created: Result<SnapInstance>)
      returns (r: Result<string>)
      requires Valid()
      modifies this, snapsInstances, snapsInstances.instances.Values
      ensures Valid()
      ensures r.Err? ==> Untouched()
      ensures data.None? ==> r == Err(HttpException(400, "Data is missing."))
      ensures data.Some? && (client.user.None? || client.device.None?) ==> r == Err(HttpException(401, "Unauthorized"))
      ensures data.Some? && client.user.Some? && client.device.Some? && Truthy(client.snapsInstanceKey) ==>
                r == Err(HttpException(409, "You are already in a snap instance."))
      ensures data.Some? && client.user.Some? && client.device.Some? && !Truthy(client.snapsInstanceKey) ==>
                var errors := CreateValidationErrors(data.value);
                && (errors != [] ==> r == Err(ValidationError(errors)))
                && (errors == [] && created.Err? ==> r == Err(created.error))
                && (errors == [] && created.Ok? && key in old(snapsInstances.instances) ==>
                      r == Err(PlainError("Snap instance already exists.")))
                && (errors == [] && created.Ok? && key !in old(snapsInstances.instances) ==>
                      && r == Ok(key)
                      && key in snapsInstances.instances && snapsInstances.instances[key].model == created.value
                      && (var only: map<nat, Connection> := map[client.user.value.id := client];
                          snapsInstances.Clients() == old(snapsInstances.Clients())[key := only])
                      && notifications == old(notifications)
                         + [SnapSyncNotification(key, InvitedIds(data.value.users.value), client.user.value)])
    {
      if data.None? {
        return Err(HttpException(400, "Data is missing."));
      }
      if client.user.None? || client.device.None? {
        return Err(HttpException(401, "Unauthorized"));
      }
      if Truthy(client.snapsInstanceKey) {
        return Err(HttpException(409, "You are already in a snap instance."));
      }
      var errors := CreateValidationErrors(data.value);
      if errors != [] {
        return Err(ValidationError(errors));
      }
      if created.Err? {
        return Err(created.error);
      }
      r := Register(key, created.value, client.user.value, client, InvitedIds(data.value.users.value));
    }

    /** The success path of `CreateSnapInstance`: register the instance with its creator, then notify the invitees. */
    method Register(key: string, model: SnapInstance, user: User, client: Connection, invitedIds: seq<int>)
      returns (r: Result<string>)
      requires Valid()
      modifies this, snapsInstances, snapsInstances.instances.Values
      ensures Valid()
      ensures key in old(snapsInstances.instances) ==> r == Err(PlainError("Snap instance already exists.")) && Untouched()
      ensures key !in old(snapsInstances.instances) ==>
                && r == Ok(key)
                && key in snapsInstances.instances && snapsInstances.instances[key].model == model
                && (var only: map<nat, Connection> := map[user.id := client];
                    snapsInstances.Clients() == old(snapsInstances.Clients())[key := only])
                && notifications == old(notifications) + [SnapSyncNotification(key, invitedIds, user)]
    {
      var made := snapsInstances.CreateInstance(key, model);
      if made.Err? {
        return Err(made.error);
      }
      ghost var registered := snapsInstances.Clients();
      var added, detached := snapsInstances.AddClientToInstance(key, user.id, client);
      ghost var only: map<nat, Connection> := map[user.id := client];
      assert registered == old(snapsInstances.Clients())[key := map[]];
      assert snapsInstances.Clients() == registered[key := only];
      assert registered[key := only] == old(snapsInstances.Clients())[key := only];
      notifications := notifications + [SnapSyncNotification(key, invitedIds, user)];
      r := Ok(key);
    }

    /**
     * `JoinSnapInstance`: 400 without data, 401 without user or device, 400
     * when the client is already in an instance or sends no key, 404 for an
     * unknown key, 409 when the user is already a client; otherwise, after
     * the service join (`joined`), the client is added to the instance.
     */
    method JoinSnapInstance(data: Option<RequestData>, client: Connection, joined: Result<bool>) returns (r: Outcome)
      requires Valid()
      modifies this, snapsInstances, snapsInstances.instances.Values
      ensures Valid()
      ensures r.Fail? ==> Untouched()
      ensures notifications == old(notifications) && snapsInstances.instances == old(snapsInstances.instances)
      ensures data.None? ==> r == Fail(HttpException(400, "Data is missing."))
      ensures data.Some? && (client.user.None? || client.device.None?) ==> r == Fail(HttpException(401, "Unauthorized"))
      ensures data.Some? && client.user.Some? && client.device.Some? ==>
                && (Truthy(client.snapsInstanceKey) || !Truthy(data.value.key) ==> r == Fail(HttpException(400, "Bad request")))
                && (!Truthy(client.snapsInstanceKey) && Truthy(data.value.key) ==>
                      var key, userId := data.value.key.value, client.user.value.id;
                      && (key !in old(snapsInstances.instances) ==> r == Fail(HttpException(404, "Snap instance not found.")))
                      && (key in old(snapsInstances.instances) && userId in old(snapsInstances.Clients())[key] ==>
                            r == Fail(HttpException(409, "You are already in this snap instance.")))
                      && (key in old(snapsInstances.instances) && userId !in old(snapsInstances.Clients())[key] ==>
                            && (joined.Err? ==> r == Fail(joined.error))
                            && (joined.Ok? ==>
                                  var before: map<nat, Connection> := old(snapsInstances.Clients())[key];
                                  r == Pass && snapsInstances.Clients() == old(snapsInstances.Clients())[key := before[userId := client]])))
    {
      if data.None? {
        return Fail(HttpException(400, "Data is missing."));
      }
      if client.user.None? || client.device.None? {
        return Fail(HttpException(401, "Unauthorized"));
      }
      if Truthy(client.snapsInstanceKey) {
        return Fail(HttpException(400, "Bad request"));
      }
      if !Truthy(data.value.key) {
        return Fail(HttpException(400, "Bad request"));
      }
      var key := data.value.key.value;
      var userId := client.user.value.id;
      if snapsInstances.FindInstanceByKey(key).None? {
        return Fail(HttpException(404, "Snap instance not found."));
      }
      var clientAlreadyExists := snapsInstances.FindClientInInstance(key, userId);
      if clientAlreadyExists != Ok(None) {
        return Fail(HttpException(409, "You are already in this snap instance."));
      }
      if joined.Err? {
        return Fail(joined.error);
      }
      var added, detached := snapsInstances.AddClientToInstance(key, userId, client);
      r := Pass;
    }

    /**
     * `LeaveSnapInstance`: 401 without user or device, 400 without a key,
     * 404 for an unknown key, 403 for a user who is not a client; otherwise,
     * after the service leave (`left`), the whole instance is removed.
     */
    method LeaveSnapInstance(client: Connection, left: Outcome) returns (r: Outcome)
      requires Valid()
      modifies this, snapsInstances
      ensures Valid()
      ensures r.Fail? ==> Untouched()
      ensures notifications == old(notifications)
      ensures client.user.None? || client.device.None? ==> r == Fail(HttpException(401, "Unauthorized"))
      ensures client.user.Some? && client.device.Some? ==>
                && (!Truthy(client.snapsInstanceKey) ==> r == Fail(HttpException(400, "Bad request")))
                && (Truthy(client.snapsInstanceKey) ==>
                      var key, userId := client.snapsInstanceKey.value, client.user.value.id;
                      && (key !in old(snapsInstances.instances) ==> r == Fail(HttpException(404, "Snap instance not found.")))
                      && (key in old(snapsInstances.instances) && userId !in old(snapsInstances.Clients())[key] ==>
                            r == Fail(HttpException(403, "You are not part of this snap instance.")))
                      && (key in old(snapsInstances.instances) && userId in old(snapsInstances.Clients())[key] ==>
                            && (left.Fail? ==> r == left)
                            && (left.Pass? ==>
                                  r == Pass && snapsInstances.instances == old(snapsInstances.instances) - {key}
                                  && snapsInstances.Clients() == old(snapsInstances.Clients()) - {key})))
    {
      if client.user.None? || client.device.None? {
        return Fail(HttpException(401, "Unauthorized"));
      }
      if !Truthy(client.snapsInstanceKey) {
        return Fail(HttpException(400, "Bad request"));
      }
      var key := client.snapsInstanceKey.value;
      if snapsInstances.FindInstanceByKey(key).None? {
        return Fail(HttpException(404, "Snap instance not found."));
      }
      var clientAlreadyExists := snapsInstances.FindClientInInstance(key, client.user.value.id);
      if clientAlreadyExists == Ok(None) {
        return Fail(HttpException(403, "You are not part of this snap instance."));
      }
      if left.Fail? {
        return left;
      }
      var deleted := snapsInstances.DeleteInstance(key);
      r := Pass;
    }

    /**
     * `GetSnapInstanceClients`: the clients of the instance `findSnapInstanceByKey` gives (`found`).
     * The alternate controller file has the same method word for word, so it is modelled there again.
     */
    function GetSnapInstanceClients(found: Result<SnapInstance>): (r: Result<map<nat, Connection>>)
      reads this, snapsInstances, snapsInstances.instances.Values
      ensures found.Err? ==> r == Err(found.error)
      ensures found.Ok? && found.value.instanceKey !in snapsInstances.instances ==> r == Err(InstanceNotFound)
      ensures found.Ok? && found.value.instanceKey in snapsInstances.instances ==>
                r == Ok(snapsInstances.Clients()[found.value.instanceKey])
    {
      match found
      case Err(e) => Err(e)
      case Ok(snapInstance) => snapsInstances.FindClientsInInstance(snapInstance.instanceKey)
    }

    /** The `users` of `GetSnapInstance`: one entry per participant row, joined meaning connected to the live instance. */
    function UsersOf(store: Store, key: string, participants: seq<Participant>): (r: Result<seq<UserView>>)
      reads this, snapsInstances, snapsInstances.instances.Values
      ensures r.Ok? ==> |r.value| == |participants| && (|participants| > 0 ==> key in snapsInstances.instances)
      ensures r.Ok? ==> forall i :: 0 <= i < |participants| ==>
                && participants[i].positionId in store.positions
                && r.value[i] == UserView(participants[i].userId, store.positions[participants[i].positionId],
                                          participants[i].userId in snapsInstances.Clients()[key])
      ensures |participants| > 0 && key !in snapsInstances.instances ==> r.Err?
      ensures r.Ok? <==>
                && (forall i :: 0 <= i < |participants| ==> participants[i].positionId in store.positions)
                && (|participants| > 0 ==> key in snapsInstances.instances)
      ensures r.Err? ==> r.error == HttpException(404, "Shape position not found.") || r.error == InstanceNotFound
      ensures r.Err? && key in snapsInstances.instances ==> r.error == HttpException(404, "Shape position not found.")
    {
      if |participants| == 0 then Ok([])
      else
        var p := participants[0];
        match FindPositionById(store, p.positionId)
        case Err(e) => Err(e)
        case Ok(position) =>
          match snapsInstances.FindClientInInstance(key, p.userId)
          case Err(e) => Err(e)
          case Ok(isJoined) =>
            match UsersOf(store, key, participants[1..])
            case Err(e) => Err(e)
            case Ok(rest) => Ok([UserView(p.userId, position, isJoined.Some?)] + rest)
    }

    /**
     * `GetSnapInstance`: the instance (`found`), its shape, one user entry
     * per participant row, the timer flag and the title chosen by
     * `LiveTitle` from that flag and the number of participant rows.
     */
    function GetSnapInstance(key: string, found: Result<SnapInstance>, store: Store): (r: Result<InstanceView>)
      reads this, snapsInstances, snapsInstances.instances.Values
      ensures found.Err? ==> r == Err(found.error)
      ensures found.Ok? && found.value.snapShapeId !in store.shapes ==> r == Err(HttpException(404, "Shape not found."))
      ensures found.Ok? && found.value.snapShapeId in store.shapes ==>
                var participants := ParticipantsOf(store.participants, found.value.id);
                && (r.Ok? <==>
                      && (forall i :: 0 <= i < |participants| ==> participants[i].positionId in store.positions)
                      && (|participants| > 0 ==> key in snapsInstances.instances))
                && (r.Err? ==> r.error == HttpException(404, "Shape position not found.") || r.error == InstanceNotFound)
      ensures r.Ok? ==>
                var instance := found.value;
                var participants := ParticipantsOf(store.participants, instance.id);
                && found.Ok? && instance.snapShapeId in store.shapes
                && r.value.id == instance.id && r.value.key == key
                && r.value.shapeId == store.shapes[instance.snapShapeId].id
                && r.value.shapeName == store.shapes[instance.snapShapeId].name
                && r.value.timerStart == instance.timerStarted
                && r.value.title == LiveTitle(instance.timerStarted, |participants|)
                && |r.value.users| == |participants| && (|participants| > 0 ==> key in snapsInstances.instances)
                && forall i :: 0 <= i < |participants| ==>
                     r.value.users[i].id == participants[i].userId
                     && r.value.users[i].isJoined == (participants[i].userId in snapsInstances.Clients()[key])
    {
      match found
      case Err(e) => Err(e)
      case Ok(instance) =>
        match FindShapeById(store, instance.snapShapeId)
        case Err(e) => Err(e)
        case Ok(shape) =>
          var participants := ParticipantsOf(store.participants, instance.id);
          match UsersOf(store, key, participants)
          case Err(e) => Err(e)
          case Ok(users) =>
            Ok(InstanceView(instance.id, key, LiveTitle(instance.timerStarted, |participants|),
                            shape.id, shape.name, users, instance.timerStarted))
    }

    /**
     * `ConnectionClosed`: nothing unless the client has a key and a user and
     * the key is registered; otherwise, after the owner delete in the service
     * (`deleted`), the instance's clients as they were, the
     * `DELETE_SNAP_INSTANCE` message for them, and the key unregistered.
     */
    method ConnectionClosed(client: Connection, deleted: Outcome) returns (r: Result<Option<ClosedInstance>>)
      requires Valid()
      modifies this, snapsInstances
      ensures Valid()
      ensures notifications == old(notifications)
    ensures !(Truthy(client.snapsInstanceKey) && client.user.Some? && client.snapsInstanceKey.value in old(snapsInstances.instances)) ==>
                r == Ok(None) && Untouched()
      ensures Truthy(client.snapsInstanceKey) && client.user.Some? && client.snapsInstanceKey.value in old(snapsInstances.instances) ==>
                var key := client.snapsInstanceKey.value;
                && (deleted.Fail? ==> r == Err(deleted.error) && Untouched())
                && (deleted.Pass? ==>
                      && r == Ok(Some(ClosedInstance(key, old(snapsInstances.Clients())[key], DisconnectMessage(key, client.user.value))))
                      && snapsInstances.instances == old(snapsInstances.instances) - {key}
                      && snapsInstances.Clients() == old(snapsInstances.Clients()) - {key})
    {
      r := Ok(None);
      if Truthy(client.snapsInstanceKey) && client.user.Some? {
        var key := client.snapsInstanceKey.value;
        var instance := snapsInstances.FindInstanceByKey(key);
        if instance.Some? {
          if deleted.Fail? {
            return Err(deleted.error);
          }
          var clients := snapsInstances.FindClientsInInstance(key);
          var removed := snapsInstances.DeleteInstance(key);
          r := Ok(Some(ClosedInstance(key, clients.value, DisconnectMessage(key, client.user.value))));
        }
      }
    }

    /**
     * `DeleteSnapInstanceSystem`: the error of `findSnapInstanceByKey`
     * (`found`) or of the owner delete in the service (`deleted`), otherwise
     * the live `deleteInstance`, which fails on an unregistered key.
     */
    method DeleteSnapInstanceSystem(key: string, found: Result<SnapInstance>, deleted: Outcome) returns (r: Outcome)
      requires Valid()
      modifies this, snapsInstances
      ensures Valid()
      ensures notifications == old(notifications)
      ensures r.Fail? ==> Untouched()
      ensures found.Err? ==> r == Fail(found.error)
      ensures found.Ok? && deleted.Fail? ==> r == deleted
      ensures found.Ok? && deleted.Pass? && key !in old(snapsInstances.instances) ==> r == Fail(InstanceNotFound)
      ensures found.Ok? && deleted.Pass? && key in old(snapsInstances.instances) ==>
                r == Pass && snapsInstances.instances == old(snapsInstances.instances) - {key}
                && snapsInstances.Clients() == old(snapsInstances.Clients()) - {key}
    {
      if found.Err? {
        return Fail(found.error);
      }
      if deleted.Fail? {
        return deleted;
      }
      r := snapsInstances.DeleteInstance(key);
    }
  }

  /**
   * The message `ConnectionClosed` sends to the instance's remaining clients.
   * The alternate controller file builds the same message (`AltController.LeftMessage`).
   */
  function DisconnectMessage(key: string, user: User): (m: Envelope)
    ensures m.SystemMessage? && m.success && m.action == Some("DELETE_SNAP_INSTANCE")
    ensures m.data == ExitData(key, true) && !m.isBroadcast && m.sender == "NS"
  {
    SystemMessage(true, "The instance has been deleted because the " + user.username + " has disconnected.",
                  Some("DELETE_SNAP_INSTANCE"), ExitData(key, true), false, "NS")
  }
}
