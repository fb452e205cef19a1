/**
 * `SnapsInstancesController` of src/controllers/snaps_instances.controller.ts,
 * the second version of the controller. Its registry is the one of module
 * `Registry`, with `DeleteInstanceIfPresent` for its `deleteInstance`. Its
 * service calls (`findSnapInstanceByKey`, and `joinUserToSnapInstance`, which
 * here yields an owner flag and a username) are parameters.
 */
module AltController {
  import opened Wrappers
  import opened Text
  import opened Models
  import opened Wss
  import opened Exceptions
  import opened Lookups
  import opened Registry

  /** What this version expects `joinUserToSnapInstance` to resolve to. */
  datatype JoinReport = JoinReport(isJoinedOwner: bool, joinedUsername: string)

  datatype MemberView = MemberView(id: nat, username: string, isJoined: bool)

  /** The result of `GetSnapInstance` (picture URLs, grid images and timer seconds are left out). */
  datatype InstanceSummary = InstanceSummary(id: nat, key: string, users: seq<MemberView>, timerStart: bool)

  /** The participant rows of other users than `userId`, in order. */
  function OthersOf(participants: seq<Participant>, userId: nat): (r: seq<Participant>)
    ensures forall p :: p in r <==> p in participants && p.userId != userId
    ensures |r| <= |participants|
  {
    if |participants| == 0 then []
    else if participants[0].userId != userId then [participants[0]] + OthersOf(participants[1..], userId)
    else OthersOf(participants[1..], userId)
  }

  /** The participant rows whose stored `isJoined` flag is off, in order. */
  function NotJoinedOf(participants: seq<Participant>): (r: seq<Participant>)
    ensures forall p :: p in r <==> p in participants && !p.isJoined
    ensures |r| <= |participants|
  {
    if |participants| == 0 then []
    else if !participants[0].isJoined then [participants[0]] + NotJoinedOf(participants[1..])
    else NotJoinedOf(participants[1..])
  }

  /** The usernames of the rows' users, in row order, or the 404 of the first unknown user. */
  function Usernames(store: Store, participants: seq<Participant>): (r: Result<seq<string>>)
    ensures r.Ok? <==> forall i :: 0 <= i < |participants| ==> participants[i].userId in store.users
    ensures r.Ok? ==> |r.value| == |participants|
                      && forall i :: 0 <= i < |participants| ==> r.value[i] == store.users[participants[i].userId].username
    ensures r.Err? ==> r.error == HttpException(404, "User not found")
  {
    if |participants| == 0 then Ok([])
    else
      match FindUserById(store, participants[0].userId)
      case Err(e) => Err(e)
      case Ok(user) =>
        match Usernames(store, participants[1..])
        case Err(e) => Err(e)
        case Ok(rest) => Ok([user.username] + rest)
  }

  /** The two title templates, filled with a name list. */
  function SyncTitle(names: string): string {
    "You and " + names + " sync in {{timer}}"
  }

  function WaitTitle(names: string): string {
    "Wait for " + names + " to join..."
  }

  /**
   * `GetSnapInstanceTitle` for the instance `found` and the asking `user`:
   * once the timer runs, the other participants; before, the participants
   * whose row is not joined. One such user is looked up on their own, several
   * are listed with ", ".
   */
  function GetSnapInstanceTitle(found: Result<SnapInstance>, store: Store, user: User): (r: Result<string>)
    ensures found.Err? ==> r == Err(found.error)
  {
    match found
    case Err(e) => Err(e)
    case Ok(instance) =>
      var participants := ParticipantsOf(store.participants, instance.id);
      if instance.timerStarted then
        var notMe := OthersOf(participants, user.id);
        if |notMe| == 1 then
          match FindUserById(store, notMe[0].userId)
          case Err(e) => Err(e)
          case Ok(other) => Ok(SyncTitle(other.username))
        else
          match Usernames(store, notMe)
          case Err(e) => Err(e)
          case Ok(names) => Ok(SyncTitle(Join(names, ", ")))
      else
        var notJoined := NotJoinedOf(participants);
        if |notJoined| == 1 then
          match FindUserById(store, notJoined[0].userId)
          case Err(e) => Err(e)
          case Ok(other) => Ok(WaitTitle(other.username))
        else
          match Usernames(store, notJoined)
          case Err(e) => Err(e)
          case Ok(names) => Ok(WaitTitle(Join(names, ", ")))
  }

  /**
   * The one-user branch of the title agrees with the list branch: the title
   * is the template filled with the usernames of exactly the selected rows
   * (the other participants once started, the unjoined ones before), and it
   * fails exactly when one of those users is unknown.
   */
  lemma TitleListsSelected(found: Result<SnapInstance>, store: Store, user: User)
    requires found.Ok?
    ensures var participants := ParticipantsOf(store.participants, found.value.id);
            var selected := if found.value.timerStarted then OthersOf(participants, user.id) else NotJoinedOf(participants);
            var names := Usernames(store, selected);
            var r := GetSnapInstanceTitle(found, store, user);
            && (r.Ok? <==> names.Ok?)
            && (r.Err? ==> r.error == HttpException(404, "User not found"))
            && (r.Ok? ==> r.value == (if found.value.timerStarted then SyncTitle else WaitTitle)(Join(names.value, ", ")))
  {
    var participants := ParticipantsOf(store.participants, found.value.id);
    var selected := if found.value.timerStarted then OthersOf(participants, user.id) else NotJoinedOf(participants);
    if |selected| == 1 {
      var names := Usernames(store, selected);
      if names.Ok? {
        assert Join(names.value, ", ") == store.users[selected[0].userId].username;
      }
    }
  }

  class SnapsInstancesController {
    const snapsInstances: ClassSnapsInstances
    var notifications: seq<Notification>

    ghost predicate Valid()
      reads this, snapsInstances
    {
      snapsInstances.Valid()
    }

    constructor ()
      ensures Valid() && fresh(snapsInstances)
      ensures snapsInstances.instances == map[] && notifications == []
    {
      snapsInstances := new ClassSnapsInstances();
      notifications := [];
    }

    twostate predicate Untouched()
      reads this, snapsInstances, snapsInstances.instances.Values
    {
      && snapsInstances.instances == old(snapsInstances.instances)
      && snapsInstances.Clients() == old(snapsInstances.Clients())
      && notifications == old(notifications)
    }

    /**
     * `CreateSnapInstance`: 400 without data, the yup error without a key,
     * the error of looking the instance up (`found`), the registry's error on
     * a taken key; otherwise the instance is registered with no clients.
     */
    method CreateSnapInstance(data: Option<RequestData>, found: Result<SnapInstance>) returns (r: Outcome)
      requires Valid()
      modifies this, snapsInstances
      ensures Valid()
      ensures r.Fail? ==> Untouched()
      ensures notifications == old(notifications)
      ensures data.None? ==> r == Fail(HttpException(400, "Data is missing."))
      ensures data.Some? && !Truthy(data.value.key) ==> r == Fail(ValidationError(["key is a required field"]))
      ensures data.Some? && Truthy(data.value.key) ==>
                var key := data.value.key.value;
                && (found.Err? ==> r == Fail(found.error))
                && (found.Ok? && key in old(snapsInstances.instances) ==> r == Fail(PlainError("Snap instance already exists.")))
                && (found.Ok? && key !in old(snapsInstances.instances) ==>
                      && r == Pass && key in snapsInstances.instances
                      && snapsInstances.instances[key].model == found.value
                      && snapsInstances.Clients() == old(snapsInstances.Clients())[key := map[]])
    {
      if data.None? {
        return Fail(HttpException(400, "Data is missing."));
      }
      if !Truthy(data.value.key) {
        return Fail(ValidationError(["key is a required field"]));
      }
      var key := data.value.key.value;
      if found.Err? {
        return Fail(found.error);
      }
      var made := snapsInstances.CreateInstance(key, found.value);
      if made.Err? {
        return Fail(made.error);
      }
      r := Pass;
    }

    /**
     * `JoinSnapInstance`: the guards of the live version; after the service
     * join and the registry add, a joining invitee notifies the instance's
     * owner and yields false, the joining owner yields true (the timer can
     * start).
     */
    method JoinSnapInstance(data: Option<RequestData>, client: Connection, joined: Result<JoinReport>) returns (r: Result<bool>)
      requires Valid()
      modifies this, snapsInstances, snapsInstances.instances.Values
      ensures Valid()
      ensures r.Err? ==> Untouched()
      ensures snapsInstances.instances == old(snapsInstances.instances)
      ensures data.None? ==> r == Err(HttpException(400, "Data is missing."))
      ensures data.Some? && (client.user.None? || client.device.None?) ==> r == Err(HttpException(401, "Unauthorized"))
      ensures data.Some? && client.user.Some? && client.device.Some? ==>
                && (Truthy(client.snapsInstanceKey) || !Truthy(data.value.key) ==> r == Err(HttpException(400, "Bad request")))
                && (!Truthy(client.snapsInstanceKey) && Truthy(data.value.key) ==>
                      var key, userId := data.value.key.value, client.user.value.id;
                      && (key !in old(snapsInstances.instances) ==> r == Err(HttpException(404, "Snap instance not found.")))
                      && (key in old(snapsInstances.instances) && userId in old(snapsInstances.Clients())[key] ==>
                            r == Err(HttpException(409, "You are already in this snap instance.")))
                      && (key in old(snapsInstances.instances) && userId !in old(snapsInstances.Clients())[key] ==>
                            && (joined.Err? ==> r == Err(joined.error))
                            && (joined.Ok? ==>
                                  var before: map<nat, Connection> := old(snapsInstances.Clients())[key];
                                  var owner := old(snapsInstances.instances[key].model.userId);
                                  && r == Ok(joined.value.isJoinedOwner)
                                  && snapsInstances.Clients() == old(snapsInstances.Clients())[key := before[userId := client]]
                                  && notifications == old(notifications)
                                     + (if joined.value.isJoinedOwner then []
                                        else [SnapSyncAccepted(key, [owner], joined.value.joinedUsername)]))))
    {
      if data.None? {
        return Err(HttpException(400, "Data is missing."));
      }
      if client.user.None? || client.device.None? {
        return Err(HttpException(401, "Unauthorized"));
      }
      if Truthy(client.snapsInstanceKey) {
        return Err(HttpException(400, "Bad request"));
      }
      if !Truthy(data.value.key) {
        return Err(HttpException(400, "Bad request"));
      }
      var key := data.value.key.value;
      var userId := client.user.value.id;
      var instance := snapsInstances.FindInstanceByKey(key);
      if instance.None? {
        return Err(HttpException(404, "Snap instance not found."));
      }
      var owner := instance.value.model.userId;
      var clientAlreadyExists := snapsInstances.FindClientInInstance(key, userId);
      if clientAlreadyExists != Ok(None) {
        return Err(HttpException(409, "You are already in this snap instance."));
      }
      if joined.Err? {
        return Err(joined.error);
      }
      var added, detached := snapsInstances.AddClientToInstance(key, userId, client);
      if !joined.value.isJoinedOwner {
        notifications := notifications + [SnapSyncAccepted(key, [owner], joined.value.joinedUsername)];
        return Ok(false);
      }
      r := Ok(true);
    }

    /**
     * `GetSnapInstanceClients`: the clients of the instance the service finds (`found`).
     * This file repeats the live controller's method word for word, so the model repeats it too.
     */
    function GetSnapInstanceClients(found: Result<SnapInstance>): (r: Result<map<nat, Connection>>)
      reads this, snapsInstances, snapsInstances.instances.Values
      ensures found.Err? ==> r == Err(found.error)
      ensures found.Ok? && found.value.instanceKey !in snapsInstances.instances ==> r == Err(InstanceNotFound)
      ensures found.Ok? && found.value.instanceKey in snapsInstances.instances ==>
                r == Ok(snapsInstances.Clients()[found.value.instanceKey])
    {
      match found
      case Err(e) => Err(e)
      case Ok(snapInstance) => snapsInstances.FindClientsInInstance(snapInstance.instanceKey)
    }

    /** One entry per participant row: registry presence first, then the user lookup. */
    function MembersOf(store: Store, key: string, participants: seq<Participant>): (r: Result<seq<MemberView>>)
      reads this, snapsInstances, snapsInstances.instances.Values
      ensures r.Ok? ==> |r.value| == |participants| && (|participants| > 0 ==> key in snapsInstances.instances)
      ensures r.Ok? ==> forall i :: 0 <= i < |participants| ==>
                && participants[i].userId in store.users
                && r.value[i] == MemberView(participants[i].userId, store.users[participants[i].userId].username,
                                            participants[i].userId in snapsInstances.Clients()[key])
      ensures |participants| > 0 && key !in snapsInstances.instances ==> r == Err(InstanceNotFound)
      ensures r.Ok? <==>
                && (forall i :: 0 <= i < |participants| ==> participants[i].userId in store.users)
                && (|participants| > 0 ==> key in snapsInstances.instances)
      ensures r.Err? ==> r.error == HttpException(404, "User not found") || r.error == InstanceNotFound
      ensures r.Err? && key in snapsInstances.instances ==> r.error == HttpException(404, "User not found")
    {
      if |participants| == 0 then Ok([])
      else
        var p := participants[0];
        match snapsInstances.FindClientInInstance(key, p.userId)
        case Err(e) => Err(e)
        case Ok(isJoined) =>
          match FindUserById(store, p.userId)
          case Err(e) => Err(e)
          case Ok(user) =>
            match MembersOf(store, key, participants[1..])
            case Err(e) => Err(e)
            case Ok(rest) => Ok([MemberView(p.userId, user.username, isJoined.Some?)] + rest)
    }

    /** `GetSnapInstance`: the instance (`found`), one entry per participant row, the timer flag. */
    function GetSnapInstance(key: string, found: Result<SnapInstance>, store: Store): (r: Result<InstanceSummary>)
      reads this, snapsInstances, snapsInstances.instances.Values
      ensures found.Err? ==> r == Err(found.error)
      ensures found.Ok? ==>
                var participants := ParticipantsOf(store.participants, found.value.id);
                && (r.Ok? <==>
                      && (forall i :: 0 <= i < |participants| ==> participants[i].userId in store.users)
                      && (|participants| > 0 ==> key in snapsInstances.instances))
                && (r.Err? ==> r.error == HttpException(404, "User not found") || r.error == InstanceNotFound)
      ensures r.Ok? ==>
                var participants := ParticipantsOf(store.participants, found.value.id);
                && found.Ok? && r.value.id == found.value.id && r.value.key == key
                && r.value.timerStart == found.value.timerStarted
                && |r.value.users| == |participants| && (|participants| > 0 ==> key in snapsInstances.instances)
                && forall i :: 0 <= i < |participants| ==>
                     r.value.users[i].id == participants[i].userId
                     && r.value.users[i].isJoined == (participants[i].userId in snapsInstances.Clients()[key])
    {
      match found
      case Err(e) => Err(e)
      case Ok(instance) =>
        var participants := ParticipantsOf(store.participants, instance.id);
        var members := MembersOf(store, key, participants);
        assert participants == ParticipantsOf(store.participants, found.value.id);
        if members.Err? then Err(members.error)
        else Ok(InstanceSummary(instance.id, key, members.value, instance.timerStarted))
    }

    /**
     * `ConnectionClosed`: as in the live version, but with this version's
     * message and its `deleteInstance`, which ignores a missing key.
     */
    method ConnectionClosed(client: Connection, deleted: Outcome) returns (r: Result<Option<ClosedInstance>>)
      requires Valid()
      modifies this, snapsInstances
      ensures Valid()
      ensures notifications == old(notifications)
      ensures !(Truthy(client.snapsInstanceKey) && client.user.Some? && client.snapsInstanceKey.value in old(snapsInstances.instances)) ==>
                r == Ok(None) && Untouched()
      ensures Truthy(client.snapsInstanceKey) && client.user.Some? && client.snapsInstanceKey.value in old(snapsInstances.instances) ==>
                var key := client.snapsInstanceKey.value;
                && (deleted.Fail? ==> r == Err(deleted.error) && Untouched())
                && (deleted.Pass? ==>
                      && r == Ok(Some(ClosedInstance(key, old(snapsInstances.Clients())[key], LeftMessage(key, client.user.value))))
                      && snapsInstances.instances == old(snapsInstances.instances) - {key}
                      && snapsInstances.Clients() == old(snapsInstances.Clients()) - {key})
    {
      r := Ok(None);
      if Truthy(client.snapsInstanceKey) && client.user.Some? {
        var key := client.snapsInstanceKey.value;
        var instance := snapsInstances.FindInstanceByKey(key);
        if instance.Some? {
          if deleted.Fail? {
            return Err(deleted.error);
          }
          var clients := snapsInstances.FindClientsInInstance(key);
          snapsInstances.DeleteInstanceIfPresent(key);
          r := Ok(Some(ClosedInstance(key, clients.value, LeftMessage(key, client.user.value))));
        }
      }
    }
  }

  /**
   * The message this version's `ConnectionClosed` sends to the instance's clients.
   * This file repeats the live controller's message (`LiveController.DisconnectMessage`).
   */
  function LeftMessage(key: string, user: User): (m: Envelope)
    ensures m.SystemMessage? && m.success && m.action == Some("DELETE_SNAP_INSTANCE")
    ensures m.data == ExitData(key, true) && !m.isBroadcast && m.sender == "NS"
  {
    SystemMessage(true, "The instance has been deleted because " + user.username + " has left.",
                  Some("DELETE_SNAP_INSTANCE"), ExitData(key, true), false, "NS")
  }
}
