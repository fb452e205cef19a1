/**
 * The records the core passes around (users, devices) and the live
 * connection handle with the message envelopes
 * (src/interfaces/wss.interface.ts).
 */
module Models {

  /** A non-deleted row of the `users` table, reduced to the fields the core reads. */
  datatype User = User(id: nat, username: string)

  /** A non-deleted row of the `devices` table. */
  datatype Device = Device(id: nat, uuid: string)
}

module Wss {
  import opened Wrappers
  import opened Models

  /** The `data` of an outbound envelope: the payload shapes the modelled slices send. */
  datatype Payload =
    | NoData
    | SessionData(sessionId: string)
    | ExitData(key: string, exit: bool)
    | ConnectedUsersData(users: map<string, ConnectedUser>)
    | SnapData(view: InstanceView)

  /** One entry of `getConnectedUsersIds`; `userId == None` is `NaN`, `deviceUuid == None` is `undefined`. */
  datatype ConnectedUser = ConnectedUser(userId: Option<nat>, deviceUuid: Option<string>, sessionId: string)

  /** One user of the live `GetSnapInstance` result. */
  datatype UserView = UserView(id: nat, position: string, isJoined: bool)

  /** The result of the live `GetSnapInstance` (the timer's minutes and seconds are left out). */
  datatype InstanceView = InstanceView(
    id: nat, key: string, title: string, shapeId: nat, shapeName: string,
    users: seq<UserView>, timerStart: bool)

  /**
   * `SystemMessage` and `SystemErrorMessage`, with the constructors' default
   * values: no action, no data, not a broadcast, sender "NS", error code 500.
   */
  datatype Envelope =
    | SystemMessage(success: bool, message: string, action: Option<string> := None,
                    data: Payload := NoData, isBroadcast: bool := false, sender: string := "NS")
    | SystemErrorMessage(success: bool, message: string, action: Option<string> := None,
                         data: Payload := NoData, code: int := 500,
                         isBroadcast: bool := false, sender: string := "NS")

  /** The fields of an inbound `data` object that the core reads. */
  datatype InviteRequest = InviteRequest(id: Option<int>, position: Option<string>)

  datatype RequestData = RequestData(
    key: Option<string>,
    snapShapeId: Option<int>,
    users: Option<seq<InviteRequest>>)

  /** An inbound `UserMessage` after JSON parsing. */
  datatype UserMessage = UserMessage(
    action: Option<string>,
    token: Option<string>,
    deviceUuid: Option<string>,
    data: Option<RequestData>)

  /** The identity fields of a connection, as one value. */
  datatype Identity = Identity(user: Option<User>, device: Option<Device>, sessionId: Option<string>,
                               token: Option<string>, system: bool)

  /** The heartbeat's view of a connection. */
  datatype Heartbeat = Heartbeat(isAlive: bool, terminated: bool, pings: nat)

  /**
   * `ExtWebSocket`: a transport connection with the fields the server
   * attaches to it. `system` is `undefined` or `true` in the source; here
   * `false` stands for `undefined`. `terminated` and `pings` record the
   * heartbeat's `terminate()` and `ping()` calls.
   */
  class Connection {
    var isAlive: bool
    var system: bool
    var token: Option<string>
    var snapsInstanceKey: Option<string>
    var user: Option<User>
    var device: Option<Device>
    var sessionId: Option<string>
    var terminated: bool
    var pings: nat

    /** The `connection` handler: a new connection starts alive, with no identity bound. */
    constructor ()
      ensures isAlive && !system && !terminated && pings == 0
      ensures token == None && snapsInstanceKey == None && user == None
      ensures device == None && sessionId == None
    {
      isAlive := true;
      system := false;
      token := None;
      snapsInstanceKey := None;
      user := None;
      device := None;
      sessionId := None;
      terminated := false;
      pings := 0;
    }

    function Heart(): Heartbeat
      reads this
    {
      Heartbeat(isAlive, terminated, pings)
    }

    /** What LOGIN binds to the connection once `login` succeeds. */
    method Bind(u: User, d: Device, sid: string, t: Option<string>)
      modifies this
      ensures user == Some(u) && device == Some(d) && sessionId == Some(sid) && token == t
      ensures system == old(system) && snapsInstanceKey == old(snapsInstanceKey) && Heart() == old(Heart())
    {
      user := Some(u);
      device := Some(d);
      sessionId := Some(sid);
      token := t;
    }

    /** What the server binds to the connection: user, device, session, token and system flag. */
    function Id(): Identity
      reads this
    {
      Identity(user, device, sessionId, token, system)
    }

    /** Nothing the server binds to the connection changed. */
    twostate predicate SameIdentity()
      reads this
    {
      Id() == old(Id())
    }

    /** What LEAVE does to the leaving connection before it notifies the instance: the key is cleared. */
    method LeaveKey()
      modifies this
      ensures snapsInstanceKey == None && Id() == old(Id()) && Heart() == old(Heart())
    {
      snapsInstanceKey := None;
    }

    /** The teardown's reset of the six fields the server binds. */
    method Clear()
      modifies this
      ensures Cleared() && Heart() == old(Heart())
    {
      user := None;
      device := None;
      sessionId := None;
      snapsInstanceKey := None;
      system := false;
      token := None;
    }

    /** True when none of the six fields the teardown clears is set. */
    predicate Cleared()
      reads this
    {
      user == None && device == None && sessionId == None &&
      snapsInstanceKey == None && !system && token == None
    }
  }
}

module Exceptions {
  import opened Wrappers
  import opened Wss

  /**
   * What the core throws: an `HttpException` (src/exceptions/HttpException.ts),
   * a plain `Error`, or a yup `ValidationError` carrying its list of messages.
   */
  datatype Failure =
    | HttpException(status: int, message: string, action: Option<string> := None, data: Payload := NoData)
    | PlainError(message: string)
    | ValidationError(errors: seq<string>)

  datatype Result<+T> = Ok(value: T) | Err(error: Failure)

  datatype Outcome = Pass | Fail(error: Failure)

  const GenericFailure: Failure := HttpException(500, "Ops! Something went wrong.")
}
