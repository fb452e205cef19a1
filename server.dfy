/**
 * The message dispatcher of src/server.ts: the outbound envelopes, the
 * mapping of a thrown error to an error envelope, the gates each action
 * passes before it reaches a controller, the action arms (with the missing
 * `break`s after ERROR_SNAP and PUBLISH_SNAP), and the teardown on LOGOUT
 * and on close; the heartbeat and the broadcasts are in module Fanout. Each
 * arm returns what it sends, as a sequence of (recipient, envelope) pairs.
 */
module Server {
  import opened Wrappers
  import opened Text
  import opened Models
  import opened Wss
  import opened Exceptions
  import opened Sessions
  import opened Auth
  import opened Registry
  import opened Lookups
  import LiveController
  import AltController
  import opened Fanout

  // The members of `WssActions` the dispatcher switches on, by name.
  const GenericAction: string := "GENERIC"
  const LoginAction: string := "LOGIN"
  const LoginSystemAction: string := "LOGIN_SYSTEM"
  const GetConnectedUsersAction: string := "GET_CONNECTED_USERS"
  const LogoutAction: string := "LOGOUT"
  const CreateAction: string := "CREATE_SNAP_INSTANCE"
  const JoinAction: string := "JOIN_SNAP_INSTANCE"
  const LeaveAction: string := "LEAVE_SNAP_INSTANCE"
  const SendSnapAction: string := "SEND_SNAP"
  const ErrorSnapAction: string := "ERROR_SNAP"
  const PublishSnapAction: string := "PUBLISH_SNAP"

  /** `createMessage`: a `SystemMessage` with the constructor's defaults. */
  function CreateMessage(success: bool, message: string, action: Option<string> := None, data: Payload := NoData,
                         isBroadcast: bool := false, sender: string := "NS"): (m: Envelope)
    ensures m.SystemMessage? && m.success == success && m.message == message && m.action == action
    ensures m.data == data && m.isBroadcast == isBroadcast && m.sender == sender
  {
    SystemMessage(success, message, action, data, isBroadcast, sender)
  }

  /** `createErrorMessage`: a `SystemErrorMessage` that never reports success, code 500 by default. */
  function CreateErrorMessage(message: string, action: Option<string> := None, data: Payload := NoData,
                              code: int := 500, isBroadcast: bool := false, sender: string := "NS"): (m: Envelope)
    ensures m.SystemErrorMessage? && !m.success && m.message == message && m.action == action
    ensures m.data == data && m.code == code && m.isBroadcast == isBroadcast && m.sender == sender
  {
    SystemErrorMessage(false, message, action, data, code, isBroadcast, sender)
  }

  /** The defaults: no action, no data, not a broadcast, sender "NS"; errors get code 500. */
  lemma EnvelopeDefaults(success: bool, message: string)
    ensures CreateMessage(success, message) == SystemMessage(success, message, None, NoData, false, "NS")
    ensures CreateErrorMessage(message) == SystemErrorMessage(false, message, None, NoData, 500, false, "NS")
  {
  }

  /** The message of a yup error: its first message, and " and N more" for N further ones. */
  function ValidationMessage(errors: seq<string>): string {
    (if |errors| > 0 then errors[0] else "")
    + (if |errors| > 1 then " and " + NatToString(|errors| - 1) + " more" else "")
  }

  /** The catch block: the envelope a thrown error becomes, for the action it was thrown under. */
  function ErrorEnvelope(error: Failure, action: string): (m: Envelope)
    ensures m.SystemErrorMessage? && !m.success && m.action == Some(action) && m.code != 0
    ensures error.ValidationError? ==> m.code == 422 && m.data == NoData
    ensures error.HttpException? ==>
              && m.data == error.data
              && m.code == (if error.status == 0 then 500 else error.status)
              && m.message == (if error.message == "" then "Something went wrong" else error.message)
    ensures error.PlainError? ==> m.code == 500 && m.message == error.message && m.data == NoData
  {
    match error
    case ValidationError(errors) => CreateErrorMessage(ValidationMessage(errors), Some(action), NoData, 422)
    case HttpException(status, message, _, data) =>
      CreateErrorMessage(if message == "" then "Something went wrong" else message, Some(action), data,
                         if status == 0 then 500 else status)
    case PlainError(message) => CreateErrorMessage(message, Some(action), NoData, 500)
  }

  /**
   * A validation error's envelope carries its first message unchanged, and
   * when there are more, a count after " and " that reads back as the number
   * of messages left out.
   */
  lemma ValidationEnvelopeCounts(errors: seq<string>, action: string)
    ensures var m := ErrorEnvelope(ValidationError(errors), action).message;
            && (|errors| == 0 ==> m == "")
            && (|errors| == 1 ==> m == errors[0])
            && (|errors| > 1 ==>
                  && m[..|errors[0]|] == errors[0]
                  && m[|errors[0]|..|errors[0]| + 5] == " and "
                  && ParseInt(m[|errors[0]| + 5..]) == Some(|errors| - 1))
  {
    var m := ErrorEnvelope(ValidationError(errors), action).message;
    assert m == ValidationMessage(errors);
    if |errors| > 1 {
      var tail := NatToString(|errors| - 1) + " more";
      assert m == errors[0] + " and " + tail;
      JoinedParts(errors[0], " and ", tail);
      ParseIntOfRendered(|errors| - 1, " more");
    }
  }

  /** Helper for ValidationEnvelopeCounts: the three parts of `a + b + c` are found back at their offsets. */
  lemma JoinedParts(a: string, b: string, c: string)
    ensures (a + b + c)[..|a|] == a
    ensures (a + b + c)[|a|..|a| + |b|] == b
    ensures (a + b + c)[|a| + |b|..] == c
  {
    var s := a + b + c;
    assert s[..|a|] == a by { assert forall i :: 0 <= i < |a| ==> s[i] == a[i]; }
    assert s[|a|..|a| + |b|] == b by { assert forall i :: 0 <= i < |b| ==> s[|a| + i] == b[i]; }
    assert s[|a| + |b|..] == c by { assert forall i :: 0 <= i < |c| ==> s[|a| + |b| + i] == c[i]; }
  }

  /** The actions the switch has an arm for. */
  const KnownActions: set<string> := {LoginAction, LoginSystemAction, GetConnectedUsersAction, LogoutAction, CreateAction,
                                      JoinAction, LeaveAction, SendSnapAction, ErrorSnapAction, PublishSnapAction}

  /** What an arm's outcome adds to its own messages: the catch block's envelope under `action` when it threw. */
  function Answer(ws: Connection, r: Outcome, action: string): (sent: seq<(Connection, Envelope)>)
    ensures r == Pass <==> sent == []
    ensures r.Fail? ==> sent == [(ws, ErrorEnvelope(r.error, action))] && sent[0].1.SystemErrorMessage?
  {
    if r.Fail? then [(ws, ErrorEnvelope(r.error, action))] else []
  }

  const WelcomeText: string :=
    "Hi there, I am a WebSocket server. Use the next structure to communicate through the websocket channel."

  /**
   * What a new connection is sent before any message of its own: one
   * successful, non-broadcast envelope under "WSS_INFO", an action no arm of
   * the switch answers to.
   */
  function Welcome(ws: Connection): (sent: seq<(Connection, Envelope)>)
    ensures |sent| == 1 && sent[0].0 == ws
    ensures sent[0].1.SystemMessage? && sent[0].1.success && !sent[0].1.isBroadcast
    ensures sent[0].1.message == WelcomeText && sent[0].1.action == Some("WSS_INFO")
    ensures sent[0].1.action.value !in KnownActions
  {
    [(ws, CreateMessage(true, WelcomeText, Some("WSS_INFO")))]
  }

  /** Inputs the dispatcher takes from collaborators the model leaves abstract. */
  datatype Collaborators = Collaborators(
    uuid: string,                    // the uuid v4 `login` draws
    now: nat,                        // the clock
    generatedKey: string,            // `generateKey`
    created: Result<SnapInstance>,   // `createSnapInstance`
    joined: Result<bool>,            // `joinUserToSnapInstance`
    left: Outcome,                   // `leaveUserFromSnapInstance`
    found: Result<SnapInstance>,     // `findSnapInstanceByKey` for the arm's key (the message's, the connection's on LEAVE, the generated one on CREATE)
    foundAgain: Result<SnapInstance>, // the same lookup after ERROR_SNAP fell through to PUBLISH_SNAP
    deleted: Outcome,                // `deleteSnapInstanceFromKey`
    deletedAgain: Outcome,           // the same after the fall-through
    store: Store)                    // the tables `GetSnapInstance` reads

  /** Whether the lookup `found` is of the instance of `key` (or found nothing). */
  predicate FoundFor(found: Result<SnapInstance>, key: string) {
    found.Err? || found.value.instanceKey == key
  }

  /** Whether closing the connection closes a live instance: it carries a key and a user, and the key is registered. */
  predicate Closes(controller: LiveController.SnapsInstancesController, ws: Connection)
    reads controller, controller.snapsInstances, ws
  {
    Truthy(ws.snapsInstanceKey) && ws.user.Some? && ws.snapsInstanceKey.value in controller.snapsInstances.instances
  }

  /** The registry's part of the state the teardown starts from. */
  datatype Closing = Closing(
    closes: bool,                                  // `Closes` held
    key: Option<string>,                           // the connection's key
    user: Option<User>,                            // the connection's user
    instances: map<string, ClassSnapInstance>,     // the registry
    clients: map<string, map<nat, Connection>>,    // the clients of each instance
    notifications: seq<Notification>)

  ghost function Before(controller: LiveController.SnapsInstancesController, ws: Connection): (b: Closing)
    reads controller, controller.snapsInstances, controller.snapsInstances.instances.Values, ws
    ensures b.closes <==> Closes(controller, ws)
  {
    Closing(Closes(controller, ws), ws.snapsInstanceKey, ws.user, controller.snapsInstances.instances,
            controller.snapsInstances.Clients(), controller.notifications)
  }

  /** The login part of the state the teardown starts from. */
  datatype Session = Session(
    system: bool,                                  // the connection is the system
    bound: bool,                                   // `Bound` held
    user: Option<User>, device: Option<Device>, sessionId: Option<string>,
    connectedUsers: map<string, SessionEntry>,
    connectedSystemUsers: map<string, Connection>,
    rows: seq<SessionRow>)                         // the `websocket_clients` table

  ghost function SessionOf(auth: AuthController, ws: Connection): (s: Session)
    reads auth, auth.websocketClients, ws
    ensures s.bound <==> auth.Bound(ws)
  {
    Session(ws.system, auth.Bound(ws), ws.user, ws.device, ws.sessionId, auth.connectedUsers,
            auth.connectedSystemUsers, auth.websocketClients.rows)
  }

  /** The registry and the notifications are as in `b`. */
  ghost predicate RegistryKept(b: Closing, controller: LiveController.SnapsInstancesController)
    reads controller, controller.snapsInstances, controller.snapsInstances.instances.Values
  {
    && controller.snapsInstances.instances == b.instances
    && controller.snapsInstances.Clients() == b.clients
    && controller.notifications == b.notifications
  }

  /** The connected maps and the session rows are as in `s`. */
  ghost predicate SessionsKept(s: Session, auth: AuthController)
    reads auth, auth.websocketClients
  {
    && auth.connectedUsers == s.connectedUsers
    && auth.connectedSystemUsers == s.connectedSystemUsers
    && auth.websocketClients.rows == s.rows
  }

  /**
   * What the instance part of the teardown leaves, from the state `b` it
   * started in: nothing changed when the connection closes no instance or
   * the service's delete fails; otherwise the instance of the connection's
   * key is gone and each of its clients (`closed`) got the disconnect
   * message once (`sent`).
   */
  ghost predicate InstanceClosed(b: Closing, controller: LiveController.SnapsInstancesController, deleted: Outcome,
                                 closed: Option<ClosedInstance>, sent: seq<(Connection, Envelope)>)
    reads controller, controller.snapsInstances, controller.snapsInstances.instances.Values
  {
    && (closed.Some? <==> b.closes && deleted.Pass?)
    && (closed.None? ==> sent == [] && RegistryKept(b, controller))
    && (closed.Some? ==>
          && b.key.Some? && b.user.Some? && b.key.value in b.clients
          && var key := b.key.value;
          && closed.value == ClosedInstance(key, b.clients[key], LiveController.DisconnectMessage(key, b.user.value))
          && controller.snapsInstances.instances == b.instances - {key}
          && controller.snapsInstances.Clients() == b.clients - {key}
          && controller.notifications == b.notifications
          && |sent| == |closed.value.clients|
          && (forall i :: 0 <= i < |sent| ==> sent[i].1 == closed.value.message && sent[i].0 in closed.value.clients.Values)
          && (forall id :: id in closed.value.clients ==> (closed.value.clients[id], closed.value.message) in sent))
  }

  /** The clients of a closed instance have no key, so they can enter another instance. */
  predicate KeysCleared(closed: Option<ClosedInstance>)
    reads if closed.Some? then closed.value.clients.Values else {}
  {
    closed.Some? ==> forall c :: c in closed.value.clients.Values ==> c.snapsInstanceKey == None
  }

  /**
   * The instance part of the teardown: `ConnectionClosed`, then the
   * disconnect message to each client of the closed instance, whose key is
   * cleared.
   */
  method CloseInstance(controller: LiveController.SnapsInstancesController, ws: Connection, deleted: Outcome,
                       ghost reach: set<Connection>)
    returns (r: Outcome, closed: Option<ClosedInstance>, sent: seq<(Connection, Envelope)>)
    requires controller.Valid() && controller.snapsInstances.Covers(reach)
    modifies controller, controller.snapsInstances, reach
    ensures controller.Valid()
    ensures r == (if old(Closes(controller, ws)) && deleted.Fail? then deleted else Pass)
    ensures InstanceClosed(old(Before(controller, ws)), controller, deleted, closed, sent) && KeysCleared(closed)
    ensures ws.Id() == old(ws.Id()) && ws.Heart() == old(ws.Heart())
  {
    if Closes(controller, ws) {
      assert controller.snapsInstances.Clients()[ws.snapsInstanceKey.value].Values <= reach;
    }
    var result := controller.ConnectionClosed(ws, deleted);
    if result.Err? {
      return Fail(result.error), None, [];
    }
    r, closed, sent := Pass, result.value, [];
    if closed.Some? {
      sent := Broadcast(closed.value.clients, closed.value.message, true, controller.snapsInstances);
    }
  }

  /**
   * What `logout` leaves, from the state `s` it started in: nothing for a
   * connection that is not bound; otherwise its map key is dropped, and its
   * live session row is ended at `now`, or 404 when there is none.
   */
  ghost predicate SessionEnded(s: Session, auth: AuthController, now: nat, r: Outcome)
    reads auth, auth.websocketClients
  {
    && auth.connectedSystemUsers == s.connectedSystemUsers
    && (!s.bound ==> r == Pass && SessionsKept(s, auth))
    && (s.bound ==>
          && s.user.Some? && s.device.Some? && s.sessionId.Some?
          && var (u, d, sid) := (s.user.value, s.device.value, s.sessionId.value);
          && auth.connectedUsers == s.connectedUsers - {GenerateMapKey(u.id, d.uuid)}
          && (FindSession(s.rows, u.id, d.id, sid).None? ==>
                r == Fail(HttpException(404, "Session not found")) && auth.websocketClients.rows == s.rows)
          && (FindSession(s.rows, u.id, d.id, sid).Some? ==>
                var i := FindSession(s.rows, u.id, d.id, sid).value;
                r == Pass && auth.websocketClients.rows == s.rows[i := s.rows[i].(endedAt := Some(now), deleted := true)]))
  }

  /**
   * The session part of the teardown: `logout`, then, once it succeeds, the
   * connection's fields are cleared. The clients of `closed` keep their
   * cleared keys.
   */
  method EndSession(auth: AuthController, ws: Connection, now: nat, ghost closed: Option<ClosedInstance>)
    returns (r: Outcome)
    requires auth.Valid() && KeysCleared(closed)
    modifies auth, auth.websocketClients, ws
    ensures auth.Valid()
    ensures KeysCleared(closed)
    ensures SessionEnded(old(SessionOf(auth, ws)), auth, now, r)
    ensures ws.Heart() == old(ws.Heart())
    ensures r == Pass ==> ws.Cleared()
    ensures r.Fail? ==> ws.Id() == old(ws.Id()) && ws.snapsInstanceKey == old(ws.snapsInstanceKey)
  {
    r := auth.Logout(ws, now);
    if r == Pass {
      ws.Clear();
    }
  }

  /**
   * What the teardown leaves, from the states `b` and `s` it started in: a
   * system connection changes nothing; any other closes its instance, and
   * is then logged out unless the service's delete failed.
   */
  ghost predicate TornDown(b: Closing, s: Session, auth: AuthController, controller: LiveController.SnapsInstancesController,
                           deleted: Outcome, now: nat, r: Outcome, closed: Option<ClosedInstance>,
                           sent: seq<(Connection, Envelope)>)
    reads auth, auth.websocketClients, controller, controller.snapsInstances, controller.snapsInstances.instances.Values
  {
    && (s.system ==> r == Pass && sent == [] && closed.None? && RegistryKept(b, controller) && SessionsKept(s, auth))
    && (!s.system ==> InstanceClosed(b, controller, deleted, closed, sent))
    && (!s.system && b.closes && deleted.Fail? ==> r == deleted && SessionsKept(s, auth))
    && (!s.system && !(b.closes && deleted.Fail?) ==> SessionEnded(s, auth, now, r))
  }

  /**
   * The teardown LOGOUT and close share: a system connection is only
   * cleared; any other closes its instance (`CloseInstance`), is logged
   * out and is cleared. The first error stops it and leaves the
   * connection's identity as it was. `sent` are the disconnect messages.
   */
  method Teardown(auth: AuthController, controller: LiveController.SnapsInstancesController, ws: Connection,
                  deleted: Outcome, now: nat, ghost reach: set<Connection>)
    returns (r: Outcome, ghost closed: Option<ClosedInstance>, sent: seq<(Connection, Envelope)>)
    requires auth.Valid() && controller.Valid() && controller.snapsInstances.Covers(reach)
    modifies auth, auth.websocketClients, controller, controller.snapsInstances, reach, ws
    ensures auth.Valid() && controller.Valid()
    ensures TornDown(old(Before(controller, ws)), old(SessionOf(auth, ws)), auth, controller, deleted, now, r, closed, sent)
    ensures KeysCleared(closed)
    ensures ws.Heart() == old(ws.Heart())
    ensures r == Pass ==> ws.Cleared()
    ensures r.Fail? ==> ws.Id() == old(ws.Id())
  {
    closed, sent := None, [];
    if !ws.system {
      r, closed, sent := CloseInstance(controller, ws, deleted, reach);
      if r.Fail? {
        return;
      }
      assert SessionOf(auth, ws) == old(SessionOf(auth, ws));
      r := EndSession(auth, ws, now, closed);
    } else {
      ws.Clear();
      r := Pass;
    }
  }

  /** A client whose "User Joined" callback asks for a title: it has a user and a key. */
  predicate Titled(c: Connection)
    reads c
  {
    c.user.Some? && Truthy(c.snapsInstanceKey)
  }

  /** What the live controller throws when asked for `GetSnapInstanceTitle`, a method it does not have. */
  const TitleMissing: Failure := PlainError("controller.GetSnapInstanceTitle is not a function")

  /** The "User Joined" envelope of CREATE and JOIN: the instance's data under a client's `title`. */
  function JoinedMessage(view: InstanceView, title: string, action: string): (m: Envelope)
    ensures m.SystemMessage? && m.success && m.message == "User Joined" && m.action == Some(action)
    ensures m.data == SnapData(view.(title := title))
  {
    CreateMessage(true, "User Joined", Some(action), SnapData(view.(title := title)))
  }

  /**
   * The `Promise.all` after CREATE and JOIN, run on the live controller:
   * each client that asks for a title makes its callback reject, every other
   * client gets "User Joined" with an empty title. The call rejects when
   * some client asked.
   */
  method JoinedFanout(clients: map<nat, Connection>, view: InstanceView, action: string)
    returns (sent: seq<(Connection, Envelope)>, rejected: bool)
    ensures rejected <==> exists id :: id in clients && Titled(clients[id])
    ensures forall i :: 0 <= i < |sent| ==>
              sent[i].1 == JoinedMessage(view, "", action) && sent[i].0 in clients.Values && !Titled(sent[i].0)
    ensures forall id :: id in clients && !Titled(clients[id]) ==> (clients[id], JoinedMessage(view, "", action)) in sent
  {
    sent, rejected := [], false;
    var todo := clients.Keys;
    while todo != {}
      invariant todo <= clients.Keys
      invariant rejected <==> exists id :: id in clients && id !in todo && Titled(clients[id])
      invariant forall i :: 0 <= i < |sent| ==>
                  sent[i].1 == JoinedMessage(view, "", action) && sent[i].0 in clients.Values && !Titled(sent[i].0)
      invariant forall id :: id in clients && id !in todo && !Titled(clients[id]) ==>
                  (clients[id], JoinedMessage(view, "", action)) in sent
      decreases |todo|
    {
      var id :| id in todo;
      var client := clients[id];
      if Titled(client) {
        rejected := true;
      } else {
        sent := sent + [(client, JoinedMessage(view, "", action))];
      }
      todo := todo - {id};
    }
  }

  /**
   * The title a client's callback gets from a controller that has
   * `GetSnapInstanceTitle` (the alternate one), with `found` the lookup of
   * the client's key: "" for a client that asks none.
   */
  function TitleOf(c: Connection, found: Result<SnapInstance>, store: Store): Result<string>
    reads c
  {
    if Titled(c) then AltController.GetSnapInstanceTitle(found, store, c.user.value) else Ok("")
  }

  /**
   * The `Promise.all` after CREATE and JOIN on a controller that has
   * `GetSnapInstanceTitle`: each client gets "User Joined" under its own
   * title; a client whose title lookup fails gets nothing and makes the
   * call reject with that error.
   */
  method TitledFanout(clients: map<nat, Connection>, view: InstanceView, action: string,
                      found: Result<SnapInstance>, store: Store)
    returns (sent: seq<(Connection, Envelope)>, failure: Option<Failure>)
    ensures failure.None? <==> forall id :: id in clients ==> TitleOf(clients[id], found, store).Ok?
    ensures failure.Some? ==> exists id :: id in clients && TitleOf(clients[id], found, store) == Err(failure.value)
    ensures forall i :: 0 <= i < |sent| ==>
              && sent[i].0 in clients.Values && TitleOf(sent[i].0, found, store).Ok?
              && sent[i].1 == JoinedMessage(view, TitleOf(sent[i].0, found, store).value, action)
    ensures forall id :: id in clients && TitleOf(clients[id], found, store).Ok? ==>
              (clients[id], JoinedMessage(view, TitleOf(clients[id], found, store).value, action)) in sent
  {
    sent, failure := [], None;
    var todo := clients.Keys;
    while todo != {}
      invariant todo <= clients.Keys
      invariant failure.None? <==> forall id :: id in clients && id !in todo ==> TitleOf(clients[id], found, store).Ok?
      invariant failure.Some? ==> exists id :: id in clients && TitleOf(clients[id], found, store) == Err(failure.value)
      invariant forall i :: 0 <= i < |sent| ==>
                  && sent[i].0 in clients.Values && TitleOf(sent[i].0, found, store).Ok?
                  && sent[i].1 == JoinedMessage(view, TitleOf(sent[i].0, found, store).value, action)
      invariant forall id :: id in clients && id !in todo && TitleOf(clients[id], found, store).Ok? ==>
                  (clients[id], JoinedMessage(view, TitleOf(clients[id], found, store).value, action)) in sent
      decreases |todo|
    {
      var id :| id in todo;
      var client := clients[id];
      var title := TitleOf(client, found, store);
      if title.Err? {
        if failure.None? {
          failure := Some(title.error);
        }
      } else {
        sent := sent + [(client, JoinedMessage(view, title.value, action))];
      }
      todo := todo - {id};
    }
  }

  /** The envelope LEAVE sends to the instance's clients. */
  function LeftMessage(key: string): (m: Envelope)
    ensures m.SystemMessage? && m.success && m.message == "User Left" && m.action == Some(LeaveAction)
    ensures m.data == ExitData(key, true)
  {
    CreateMessage(true, "User Left", Some(LeaveAction), ExitData(key, true))
  }

  /** The envelope ERROR_SNAP (`text` "SnapSync deleted") and PUBLISH_SNAP ("SnapSync published") send. */
  function SyncMessage(text: string, action: string, key: string): (m: Envelope)
    ensures m.SystemMessage? && m.success && m.message == text && m.action == Some(action)
    ensures m.data == ExitData(key, true)
  {
    CreateMessage(true, text, Some(action), ExitData(key, true))
  }

  /** The state of a connection and the registry that CREATE, JOIN and LEAVE start from. */
  datatype Start = Start(
    key: Option<string>, user: Option<User>, device: Option<Device>,
    instances: map<string, ClassSnapInstance>, clients: map<string, map<nat, Connection>>,
    notifications: seq<Notification>)

  ghost function StartOf(controller: LiveController.SnapsInstancesController, ws: Connection): Start
    reads controller, controller.snapsInstances, controller.snapsInstances.instances.Values, ws
  {
    Start(ws.snapsInstanceKey, ws.user, ws.device, controller.snapsInstances.instances,
            controller.snapsInstances.Clients(), controller.notifications)
  }

  /**
   * Why the live `CreateSnapInstance` refuses, from the state `b` it starts
   * in: no data (400), no user or device (401), a client already in an
   * instance (409), the validation errors, the service's error, a key
   * already registered; `None` when it registers `key`.
   */
  function CreateRefusal(b: Start, data: Option<RequestData>, key: string, created: Result<SnapInstance>): Option<Failure>
  {
    if data.None? then Some(HttpException(400, "Data is missing."))
    else if b.user.None? || b.device.None? then Some(HttpException(401, "Unauthorized"))
    else if Truthy(b.key) then Some(HttpException(409, "You are already in a snap instance."))
    else if LiveController.CreateValidationErrors(data.value) != [] then
      Some(ValidationError(LiveController.CreateValidationErrors(data.value)))
    else if created.Err? then Some(created.error)
    else if key in b.instances then Some(PlainError("Snap instance already exists."))
    else None
  }

  /**
   * The state after a CREATE that `CreateRefusal` lets through: `key` holds
   * the service's instance with the creator as its only client, the
   * invitees are notified, and the connection holds `key`.
   */
  ghost predicate Created(b: Start, controller: LiveController.SnapsInstancesController, ws: Connection,
                          data: Option<RequestData>, key: string, created: Result<SnapInstance>)
    requires CreateRefusal(b, data, key, created).None?
    reads controller, controller.snapsInstances, controller.snapsInstances.instances.Values, ws
  {
    && ws.snapsInstanceKey == Some(key) && ws.user == b.user
    && key in controller.snapsInstances.instances && controller.snapsInstances.instances[key].model == created.value
    && (var only: map<nat, Connection> := map[b.user.value.id := ws];
        controller.snapsInstances.Clients() == b.clients[key := only])
    && controller.notifications
       == b.notifications + [SnapSyncNotification(key, LiveController.InvitedIds(data.value.users.value), b.user.value)]
  }

  /**
   * CREATE after its gate, on the registry: the live `CreateSnapInstance`
   * under the generated `key`, then the connection takes the key.
   */
  method CreateRegistry(controller: LiveController.SnapsInstancesController, ws: Connection, data: Option<RequestData>,
                        key: string, created: Result<SnapInstance>)
    returns (r: Outcome)
    requires controller.Valid()
    modifies controller, controller.snapsInstances, controller.snapsInstances.instances.Values, ws
    ensures controller.Valid()
    ensures ws.Id() == old(ws.Id()) && ws.Heart() == old(ws.Heart())
    ensures var refusal := CreateRefusal(old(StartOf(controller, ws)), data, key, created);
            && (refusal.Some? ==>
                  r == Fail(refusal.value) && controller.Untouched() && ws.snapsInstanceKey == old(ws.snapsInstanceKey))
            && (refusal.None? ==> r == Pass && Created(old(StartOf(controller, ws)), controller, ws, data, key, created))
  {
    var made := controller.CreateSnapInstance(data, ws, key, created);
    if made.Err? {
      return Fail(made.error);
    }
    ws.snapsInstanceKey := Some(key);
    r := Pass;
  }

  /**
   * Why the live `JoinSnapInstance` refuses, from the state `b` it starts
   * in: no data (400), no user or device (401), a client already in an
   * instance or no key (400), an unknown key (404), a user already a client
   * (409), the service's error; `None` when it adds the connection.
   */
  function JoinRefusal(b: Start, data: Option<RequestData>, joined: Result<bool>): Option<Failure>
  {
    if data.None? then Some(HttpException(400, "Data is missing."))
    else if b.user.None? || b.device.None? then Some(HttpException(401, "Unauthorized"))
    else if Truthy(b.key) || !Truthy(data.value.key) then Some(HttpException(400, "Bad request"))
    else if data.value.key.value !in b.instances || data.value.key.value !in b.clients then
      Some(HttpException(404, "Snap instance not found."))
    else if b.user.value.id in b.clients[data.value.key.value] then
      Some(HttpException(409, "You are already in this snap instance."))
    else if joined.Err? then Some(joined.error)
    else None
  }

  /**
   * The state after a JOIN that `JoinRefusal` lets through: the connection
   * is a client of the instance of the message's key under its user id, and
   * holds that key; no instance comes or goes.
   */
  ghost predicate Joined(b: Start, controller: LiveController.SnapsInstancesController, ws: Connection,
                         data: Option<RequestData>, joined: Result<bool>)
    requires JoinRefusal(b, data, joined).None?
    reads controller, controller.snapsInstances, controller.snapsInstances.instances.Values, ws
  {
    var key := data.value.key.value;
    && ws.snapsInstanceKey == Some(key) && ws.user == b.user
    && controller.snapsInstances.instances == b.instances
    && (var clients: map<nat, Connection> := b.clients[key][b.user.value.id := ws];
        controller.snapsInstances.Clients() == b.clients[key := clients])
    && controller.notifications == b.notifications
  }

  /**
   * JOIN after its gate, on the registry: the live `JoinSnapInstance`, then
   * the connection takes the message's key.
   */
  method JoinRegistry(controller: LiveController.SnapsInstancesController, ws: Connection, data: Option<RequestData>,
                      joined: Result<bool>)
    returns (r: Outcome)
    requires controller.Valid()
    modifies controller, controller.snapsInstances, controller.snapsInstances.instances.Values, ws
    ensures controller.Valid()
    ensures ws.Id() == old(ws.Id()) && ws.Heart() == old(ws.Heart())
    ensures var refusal := JoinRefusal(old(StartOf(controller, ws)), data, joined);
            && (refusal.Some? ==>
                  r == Fail(refusal.value) && controller.Untouched() && ws.snapsInstanceKey == old(ws.snapsInstanceKey))
            && (refusal.None? ==> r == Pass && Joined(old(StartOf(controller, ws)), controller, ws, data, joined))
  {
    r := controller.JoinSnapInstance(data, ws, joined);
    if r.Fail? {
      return;
    }
    ws.snapsInstanceKey := data.value.key;
  }

  /**
   * What CREATE and JOIN send after the registry step, on a controller that
   * has `GetSnapInstanceTitle`, given the clients `got` and the data `view`
   * of the instance: the error of either; otherwise the messages of
   * `TitledFanout`, and the error of a failed title lookup.
   */
  ghost predicate Announced(got: Result<map<nat, Connection>>, view: Result<InstanceView>, found: Result<SnapInstance>,
                            store: Store, action: string, r: Outcome, sent: seq<(Connection, Envelope)>)
    reads if got.Ok? then got.value.Values else {}
  {
    && (got.Err? ==> r == Fail(got.error) && sent == [])
    && (got.Ok? && view.Err? ==> r == Fail(view.error) && sent == [])
    && (got.Ok? && view.Ok? ==>
          var clients := got.value;
          && (r == Pass <==> forall id :: id in clients ==> TitleOf(clients[id], found, store).Ok?)
          && (r.Fail? ==> exists id :: id in clients && TitleOf(clients[id], found, store) == Err(r.error))
          && (forall i :: 0 <= i < |sent| ==>
                && sent[i].0 in clients.Values && TitleOf(sent[i].0, found, store).Ok?
                && sent[i].1 == JoinedMessage(view.value, TitleOf(sent[i].0, found, store).value, action))
          && (forall id :: id in clients && TitleOf(clients[id], found, store).Ok? ==>
                (clients[id], JoinedMessage(view.value, TitleOf(clients[id], found, store).value, action)) in sent))
  }

  /** The messages of CREATE and JOIN for the instance of `key`, as `Announced` describes them. Nothing changes. */
  method Announce(controller: LiveController.SnapsInstancesController, key: string, found: Result<SnapInstance>,
                  store: Store, action: string)
    returns (r: Outcome, sent: seq<(Connection, Envelope)>)
    ensures Announced(controller.GetSnapInstanceClients(found), controller.GetSnapInstance(key, found, store),
                      found, store, action, r, sent)
  {
    var clients := controller.GetSnapInstanceClients(found);
    if clients.Err? {
      return Fail(clients.error), [];
    }
    var view := controller.GetSnapInstance(key, found, store);
    if view.Err? {
      return Fail(view.error), [];
    }
    var failure;
    sent, failure := TitledFanout(clients.value, view.value, action, found, store);
    r := if failure.Some? then Fail(failure.value) else Pass;
  }

  /**
   * What CREATE and JOIN send as written, on the live controller: the error
   * of the lookups; otherwise "User Joined" with an empty title to each
   * client that asks no title, and `TitleMissing` once some client asks one.
   */
  ghost predicate AnnouncedAsWritten(got: Result<map<nat, Connection>>, view: Result<InstanceView>, action: string,
                                     r: Outcome, sent: seq<(Connection, Envelope)>)
    reads if got.Ok? then got.value.Values else {}
  {
    && (got.Err? ==> r == Fail(got.error) && sent == [])
    && (got.Ok? && view.Err? ==> r == Fail(view.error) && sent == [])
    && (got.Ok? && view.Ok? ==>
          var clients := got.value;
          && (r == Pass <==> forall id :: id in clients ==> !Titled(clients[id]))
          && (r.Fail? ==> r == Fail(TitleMissing))
          && (forall i :: 0 <= i < |sent| ==>
                sent[i].1 == JoinedMessage(view.value, "", action) && sent[i].0 in clients.Values && !Titled(sent[i].0))
          && (forall id :: id in clients && !Titled(clients[id]) ==> (clients[id], JoinedMessage(view.value, "", action)) in sent))
  }

  /** The messages of CREATE and JOIN as written, as `AnnouncedAsWritten` describes them. Nothing changes. */
  method AnnounceAsWritten(controller: LiveController.SnapsInstancesController, key: string, found: Result<SnapInstance>,
                           store: Store, action: string)
    returns (r: Outcome, sent: seq<(Connection, Envelope)>)
    ensures AnnouncedAsWritten(controller.GetSnapInstanceClients(found), controller.GetSnapInstance(key, found, store),
                               action, r, sent)
  {
    var clients := controller.GetSnapInstanceClients(found);
    if clients.Err? {
      return Fail(clients.error), [];
    }
    var view := controller.GetSnapInstance(key, found, store);
    if view.Err? {
      return Fail(view.error), [];
    }
    var rejected;
    sent, rejected := JoinedFanout(clients.value, view.value, action);
    r := if rejected then Fail(TitleMissing) else Pass;
  }

  /**
   * CREATE as written, once the creation went through (`b` the state it
   * started in): when the key is not empty and the lookup `found` is of
   * that key, the creator is the instance's only client and asks a title,
   * so the reply is an error and no "User Joined" goes out, although the
   * instance is registered.
   */
  method CreateAnnouncedAsWritten(controller: LiveController.SnapsInstancesController, ws: Connection,
                                  data: Option<RequestData>, key: string, created: Result<SnapInstance>,
                                  found: Result<SnapInstance>, store: Store, ghost b: Start)
    returns (r: Outcome, sent: seq<(Connection, Envelope)>)
    requires CreateRefusal(b, data, key, created).None? && Created(b, controller, ws, data, key, created)
    ensures key != "" && FoundFor(found, key) ==> r.Fail? && sent == []
  {
    ghost var got, view := controller.GetSnapInstanceClients(found), controller.GetSnapInstance(key, found, store);
    r, sent := AnnounceAsWritten(controller, key, found, store, CreateAction);
    if key != "" && found.Ok? && found.value.instanceKey == key {
      ghost var only: map<nat, Connection> := map[b.user.value.id := ws];
      assert got == Ok(only);
      assert only[b.user.value.id] == ws;
      TitledClientAsWritten(got, view, CreateAction, r, sent, ws);
    }
  }

  /**
   * JOIN as written, once the join went through (`b` the state it started
   * in): when the lookup `found` is of the message's key, the joiner asks a
   * title, so the reply is an error and the joiner gets no "User Joined".
   */
  method JoinAnnouncedAsWritten(controller: LiveController.SnapsInstancesController, ws: Connection,
                                data: Option<RequestData>, joined: Result<bool>, found: Result<SnapInstance>,
                                store: Store, ghost b: Start)
    returns (r: Outcome, sent: seq<(Connection, Envelope)>)
    requires JoinRefusal(b, data, joined).None? && Joined(b, controller, ws, data, joined)
    ensures FoundFor(found, data.value.key.value) ==> r.Fail? && forall i :: 0 <= i < |sent| ==> sent[i].0 != ws
  {
    var key := data.value.key.value;
    ghost var got, view := controller.GetSnapInstanceClients(found), controller.GetSnapInstance(key, found, store);
    r, sent := AnnounceAsWritten(controller, key, found, store, JoinAction);
    if found.Ok? && found.value.instanceKey == key {
      assert ws in controller.snapsInstances.Clients()[key].Values by {
        assert controller.snapsInstances.Clients()[key][b.user.value.id] == ws;
      }
      TitledClientAsWritten(got, view, JoinAction, r, sent, ws);
    }
  }

  /**
   * As written, a client that asks a title makes CREATE and JOIN fail and
   * gets nothing; when it is the only client, nobody gets anything.
   */
  lemma TitledClientAsWritten(got: Result<map<nat, Connection>>, view: Result<InstanceView>, action: string,
                              r: Outcome, sent: seq<(Connection, Envelope)>, c: Connection)
    requires AnnouncedAsWritten(got, view, action, r, sent)
    requires got.Ok? && c in got.value.Values && Titled(c)
    ensures r.Fail? && forall i :: 0 <= i < |sent| ==> sent[i].0 != c
    ensures got.value.Values == {c} ==> sent == []
  {
    var id :| id in got.value && got.value[id] == c;
    if got.value.Values == {c} && sent != [] {
      assert sent[0].0 in got.value.Values;
    }
  }

  /** Neither the registry nor the connection's key changed since `b`. */
  ghost predicate Kept(b: Start, controller: LiveController.SnapsInstancesController, ws: Connection)
    reads controller, controller.snapsInstances, controller.snapsInstances.instances.Values, ws
  {
    && controller.snapsInstances.instances == b.instances && controller.snapsInstances.Clients() == b.clients
    && controller.notifications == b.notifications && ws.snapsInstanceKey == b.key
  }

  /**
   * CREATE after its gate, from the state `b`, with `got` and `view` the
   * lookups after the creation: the refusal, with nothing changed; or the
   * new instance and the messages `Announced` describes.
   */
  ghost predicate CreateDone(b: Start, controller: LiveController.SnapsInstancesController, ws: Connection,
                             data: Option<RequestData>, key: string, created: Result<SnapInstance>,
                             found: Result<SnapInstance>, store: Store, got: Result<map<nat, Connection>>,
                             view: Result<InstanceView>, r: Outcome, sent: seq<(Connection, Envelope)>)
    reads controller, controller.snapsInstances, controller.snapsInstances.instances.Values, ws
    reads if got.Ok? then got.value.Values else {}
  {
    var refusal := CreateRefusal(b, data, key, created);
    && (refusal.Some? ==> r == Fail(refusal.value) && sent == [] && Kept(b, controller, ws))
    && (refusal.None? ==>
          Created(b, controller, ws, data, key, created) && Announced(got, view, found, store, CreateAction, r, sent))
  }

  /** JOIN after its gate, as `CreateDone` is for CREATE. */
  ghost predicate JoinDone(b: Start, controller: LiveController.SnapsInstancesController, ws: Connection,
                           data: Option<RequestData>, joined: Result<bool>, found: Result<SnapInstance>, store: Store,
                           got: Result<map<nat, Connection>>, view: Result<InstanceView>,
                           r: Outcome, sent: seq<(Connection, Envelope)>)
    reads controller, controller.snapsInstances, controller.snapsInstances.instances.Values, ws
    reads if got.Ok? then got.value.Values else {}
  {
    var refusal := JoinRefusal(b, data, joined);
    && (refusal.Some? ==> r == Fail(refusal.value) && sent == [] && Kept(b, controller, ws))
    && (refusal.None? ==> Joined(b, controller, ws, data, joined) && Announced(got, view, found, store, JoinAction, r, sent))
  }

  /**
   * With a controller that has `GetSnapInstanceTitle`, a CREATE that goes
   * through and whose lookup `found` is of the new key tells the creator
   * "User Joined" under its own title, and passes, exactly when that title
   * is found; otherwise it fails with the title's error and sends nothing.
   */
  lemma CreatorAnnounced(b: Start, controller: LiveController.SnapsInstancesController, ws: Connection,
                         data: Option<RequestData>, key: string, created: Result<SnapInstance>,
                         found: Result<SnapInstance>, store: Store, view: InstanceView,
                         r: Outcome, sent: seq<(Connection, Envelope)>)
    requires CreateRefusal(b, data, key, created).None? && Created(b, controller, ws, data, key, created)
    requires found.Ok? && found.value.instanceKey == key
    requires Announced(controller.GetSnapInstanceClients(found), Ok(view), found, store, CreateAction, r, sent)
    ensures var title := TitleOf(ws, found, store);
            && (r == Pass <==> title.Ok?)
            && (title.Ok? ==>
                  && (ws, JoinedMessage(view, title.value, CreateAction)) in sent
                  && forall i :: 0 <= i < |sent| ==> sent[i] == (ws, JoinedMessage(view, title.value, CreateAction)))
            && (title.Err? ==> r == Fail(title.error) && sent == [])
  {
    var only: map<nat, Connection> := map[b.user.value.id := ws];
    assert controller.GetSnapInstanceClients(found) == Ok(only);
    assert only[b.user.value.id] == ws;
    SoleClientAnnounced(only, view, found, store, CreateAction, r, sent, ws);
  }

  /** `Announced` for an instance whose only client is `c`: the outcome is that of `c`'s title. */
  lemma SoleClientAnnounced(clients: map<nat, Connection>, view: InstanceView, found: Result<SnapInstance>, store: Store,
                            action: string, r: Outcome, sent: seq<(Connection, Envelope)>, c: Connection)
    requires Announced(Ok(clients), Ok(view), found, store, action, r, sent)
    requires c in clients.Values && forall d :: d in clients.Values ==> d == c
    ensures var title := TitleOf(c, found, store);
            && (r == Pass <==> title.Ok?)
            && (title.Ok? ==>
                  && (c, JoinedMessage(view, title.value, action)) in sent
                  && forall i :: 0 <= i < |sent| ==> sent[i] == (c, JoinedMessage(view, title.value, action)))
            && (title.Err? ==> r == Fail(title.error) && sent == [])
  {
    var id :| id in clients && clients[id] == c;
    var title := TitleOf(c, found, store);
    forall k | k in clients ensures TitleOf(clients[k], found, store) == title {
      assert clients[k] in clients.Values;
    }
    assert forall i :: 0 <= i < |sent| ==> sent[i].0 == c;
    assert |sent| > 0 ==> title.Ok? by {
      if |sent| > 0 {
        assert TitleOf(sent[0].0, found, store).Ok?;
      }
    }
    if title.Err? {
      var k :| k in clients && TitleOf(clients[k], found, store) == Err(r.error);
    }
  }

  /**
   * With a controller that has `GetSnapInstanceTitle`, a JOIN that goes
   * through and whose lookup `found` is of the message's key tells the
   * joiner "User Joined" under its own title when that title is found, and
   * fails when it is not.
   */
  lemma JoinerAnnounced(b: Start, controller: LiveController.SnapsInstancesController, ws: Connection,
                        data: Option<RequestData>, joined: Result<bool>, found: Result<SnapInstance>, store: Store,
                        view: InstanceView, r: Outcome, sent: seq<(Connection, Envelope)>)
    requires JoinRefusal(b, data, joined).None? && Joined(b, controller, ws, data, joined)
    requires found.Ok? && found.value.instanceKey == data.value.key.value
    requires Announced(controller.GetSnapInstanceClients(found), Ok(view), found, store, JoinAction, r, sent)
    ensures var title := TitleOf(ws, found, store);
            && (title.Ok? ==> (ws, JoinedMessage(view, title.value, JoinAction)) in sent)
            && (title.Err? ==> r.Fail?)
  {
    var key := data.value.key.value;
    var id := b.user.value.id;
    assert controller.snapsInstances.Clients()[key][id] == ws;
  }

  /**
   * What LEAVE leaves in the registry, from the state `b` it started in:
   * the lookup's error, or the live leave's error; otherwise the instance
   * of the connection's key is gone.
   */
  ghost predicate Left(b: Start, controller: LiveController.SnapsInstancesController,
                       found: Result<SnapInstance>, left: Outcome, r: Outcome)
    reads controller, controller.snapsInstances, controller.snapsInstances.instances.Values
  {
    && controller.notifications == b.notifications
    && (r.Fail? ==> controller.snapsInstances.instances == b.instances && controller.snapsInstances.Clients() == b.clients)
    && (found.Err? ==> r == Fail(found.error))
    && (found.Ok? && found.value.instanceKey !in b.clients ==> r == Fail(InstanceNotFound))
    && (found.Ok? && found.value.instanceKey in b.clients ==>
          && (r == Pass <==>
                && b.user.Some? && b.device.Some? && Truthy(b.key) && b.key.value in b.instances && b.key.value in b.clients
                && b.user.value.id in b.clients[b.key.value] && left.Pass?)
          && (r == Pass ==>
                && controller.snapsInstances.instances == b.instances - {b.key.value}
                && controller.snapsInstances.Clients() == b.clients - {b.key.value}))
  }

  /**
   * LEAVE after its gate, on the registry: the clients of the instance that
   * `found` names, then the live leave. `clients` are the clients the
   * lookup gave.
   */
  method LeaveRegistry(controller: LiveController.SnapsInstancesController, ws: Connection, found: Result<SnapInstance>,
                       left: Outcome)
    returns (r: Outcome, clients: map<nat, Connection>)
    requires controller.Valid()
    modifies controller, controller.snapsInstances
    ensures controller.Valid()
    ensures r.Fail? ==> controller.Untouched()
    ensures r == Pass ==>
              && found.Ok? && found.value.instanceKey in old(controller.snapsInstances.Clients())
              && clients == old(controller.snapsInstances.Clients())[found.value.instanceKey]
    ensures Left(old(StartOf(controller, ws)), controller, found, left, r)
  {
    var got := controller.GetSnapInstanceClients(found);
    if got.Err? {
      return Fail(got.error), map[];
    }
    clients := got.value;
    r := controller.LeaveSnapInstance(ws, left);
  }

  /**
   * LEAVE's notification: the leaving connection's key is cleared, then
   * every client has its key cleared and gets "User Left" for `key`. The
   * registry `registry` is left as it is.
   */
  method LeaveFanout(ws: Connection, clients: map<nat, Connection>, key: string, ghost registry: ClassSnapsInstances)
    returns (sent: seq<(Connection, Envelope)>)
    modifies ws, clients.Values
    ensures registry.instances == old(registry.instances) && registry.Clients() == old(registry.Clients())
    ensures ws.snapsInstanceKey == None && ws.Id() == old(ws.Id()) && ws.Heart() == old(ws.Heart())
    ensures |sent| == |clients|
    ensures forall i :: 0 <= i < |sent| ==> sent[i].1 == LeftMessage(key) && sent[i].0 in clients.Values
    ensures forall id :: id in clients ==> (clients[id], LeftMessage(key)) in sent
    ensures forall c :: c in clients.Values ==> c.snapsInstanceKey == None && c.Id() == old(c.Id())
  {
    ws.LeaveKey();
    sent := Broadcast(clients, LeftMessage(key), true, registry);
  }

  /**
   * What SEND_SNAP sends, given the lookup of the clients `got` and the
   * instance's data `view`: the error of either; otherwise each client
   * gets "Snap received" with the data, and the system then "Snap sent".
   */
  ghost predicate SnapSent(got: Result<map<nat, Connection>>, view: Result<InstanceView>, ws: Connection,
                           r: Outcome, sent: seq<(Connection, Envelope)>)
  {
    && (got.Err? ==> r == Fail(got.error))
    && (got.Ok? && view.Err? ==> r == Fail(view.error))
    && (got.Ok? && view.Ok? ==>
          var m := CreateMessage(true, "Snap received", Some(SendSnapAction), SnapData(view.value));
          && r == Pass
          && |sent| == |got.value| + 1
          && sent[|got.value|] == (ws, CreateMessage(true, "Snap sent", Some(SendSnapAction)))
          && (forall i :: 0 <= i < |got.value| ==> sent[i].1 == m && sent[i].0 in got.value.Values)
          && (forall id :: id in got.value ==> (got.value[id], m) in sent))
  }

  /**
   * SEND_SNAP after its gate: the clients of the instance and its data
   * (`GetSnapInstance`), then the messages `SnapSent` describes. No key
   * and no registry entry changes.
   */
  method SendSnap(controller: LiveController.SnapsInstancesController, ws: Connection, key: string,
                  found: Result<SnapInstance>, store: Store, ghost reach: set<Connection>)
    returns (r: Outcome, sent: seq<(Connection, Envelope)>)
    requires controller.Valid() && controller.snapsInstances.Covers(reach)
    modifies reach
    ensures forall c :: c in reach ==> c.Id() == old(c.Id()) && c.snapsInstanceKey == old(c.snapsInstanceKey)
    ensures r.Fail? ==> sent == []
    ensures SnapSent(old(controller.GetSnapInstanceClients(found)), old(controller.GetSnapInstance(key, found, store)),
                     ws, r, sent)
  {
    var clients := controller.GetSnapInstanceClients(found);
    if clients.Err? {
      return Fail(clients.error), [];
    }
    assert clients.value.Values <= reach by {
      assert clients.value == controller.snapsInstances.Clients()[found.value.instanceKey];
    }
    var view := controller.GetSnapInstance(key, found, store);
    if view.Err? {
      return Fail(view.error), [];
    }
    var received := Broadcast(clients.value, CreateMessage(true, "Snap received", Some(SendSnapAction), SnapData(view.value)),
                              false, controller.snapsInstances);
    r, sent := Pass, received + [(ws, CreateMessage(true, "Snap sent", Some(SendSnapAction)))];
  }

  /** The registry part of the controller's state. */
  datatype RegistryState = RegistryState(
    instances: map<string, ClassSnapInstance>, clients: map<string, map<nat, Connection>>,
    notifications: seq<Notification>)

  ghost function Registered(controller: LiveController.SnapsInstancesController): RegistryState
    reads controller, controller.snapsInstances, controller.snapsInstances.instances.Values
  {
    RegistryState(controller.snapsInstances.instances, controller.snapsInstances.Clients(), controller.notifications)
  }

  /**
   * What the system delete of ERROR_SNAP and PUBLISH_SNAP leaves, from the
   * registry `b` it started in: the lookup's error, the service delete's
   * error, "Snap instance not found." for a key not live; otherwise the
   * instance of `key` is gone.
   */
  ghost predicate SystemDeleted(b: RegistryState, controller: LiveController.SnapsInstancesController, key: string,
                                found: Result<SnapInstance>, deleted: Outcome, r: Outcome)
    reads controller, controller.snapsInstances, controller.snapsInstances.instances.Values
  {
    && controller.notifications == b.notifications
    && (r.Fail? ==> controller.snapsInstances.instances == b.instances && controller.snapsInstances.Clients() == b.clients)
    && (found.Err? ==> r == Fail(found.error))
    && (found.Ok? && found.value.instanceKey !in b.instances ==> r == Fail(InstanceNotFound))
    && (found.Ok? && found.value.instanceKey in b.instances ==>
          && (deleted.Fail? ==> r == deleted)
          && (deleted.Pass? ==>
                && (r == Pass <==> key in b.instances)
                && (r.Fail? ==> r == Fail(InstanceNotFound))
                && (r == Pass ==>
                      && controller.snapsInstances.instances == b.instances - {key}
                      && controller.snapsInstances.Clients() == b.clients - {key})))
  }

  /**
   * ERROR_SNAP and PUBLISH_SNAP after their gate, on the registry: the
   * clients of the instance that `found` names, then the system delete of
   * `key`. `clients` are the clients the lookup gave.
   */
  method DeleteForSystem(controller: LiveController.SnapsInstancesController, key: string, found: Result<SnapInstance>,
                         deleted: Outcome, ghost reach: set<Connection>)
    returns (r: Outcome, clients: map<nat, Connection>)
    requires controller.Valid() && controller.snapsInstances.Covers(reach)
    modifies controller, controller.snapsInstances
    ensures controller.Valid() && controller.snapsInstances.Covers(reach)
    ensures r.Fail? ==> controller.Untouched()
    ensures r == Pass ==>
              && found.Ok? && found.value.instanceKey in old(controller.snapsInstances.Clients())
              && clients == old(controller.snapsInstances.Clients())[found.value.instanceKey]
              && clients.Values <= reach
    ensures SystemDeleted(old(Registered(controller)), controller, key, found, deleted, r)
  {
    var got := controller.GetSnapInstanceClients(found);
    if got.Err? {
      return Fail(got.error), map[];
    }
    clients := got.value;
    assert clients.Values <= reach by {
      assert clients == controller.snapsInstances.Clients()[found.value.instanceKey];
    }
    r := controller.DeleteSnapInstanceSystem(key, found, deleted);
  }

  /**
   * The dispatcher, holding the two controllers `server.ts` creates. Every
   * arm returns what it sent, as (recipient, envelope) pairs in order.
   */
  class Server {
    const auth: AuthController
    const controller: LiveController.SnapsInstancesController

    ghost predicate Valid()
      reads this, auth, auth.websocketClients, controller, controller.snapsInstances
    {
      auth.Valid() && controller.Valid()
    }

    constructor (auth: AuthController, controller: LiveController.SnapsInstancesController)
      ensures this.auth == auth && this.controller == controller
    {
      this.auth := auth;
      this.controller := controller;
    }
    /** The gate of LOGOUT, CREATE, JOIN and LEAVE: a device, a token and a live login; CREATE and JOIN also want a user. */
    function SessionGate(ws: Connection, requireUser: bool): (r: Outcome)
      reads this, auth, ws
      ensures r == Pass <==>
                && ws.device.Some? && Truthy(ws.token)
                && auth.IsLogged(ws.token.value, ws.device.value.uuid) == Ok(true)
                && (requireUser ==> ws.user.Some?)
      ensures ws.device.Some? && Truthy(ws.token) && auth.IsLogged(ws.token.value, ws.device.value.uuid).Err? ==>
                r == Fail(auth.IsLogged(ws.token.value, ws.device.value.uuid).error)
      ensures r.Fail? && !(ws.device.Some? && Truthy(ws.token) && auth.IsLogged(ws.token.value, ws.device.value.uuid).Err?) ==>
                r == Fail(HttpException(401, "Unauthorized"))
    {
      if ws.device.None? || !Truthy(ws.token) then Fail(HttpException(401, "Unauthorized"))
      else match auth.IsLogged(ws.token.value, ws.device.value.uuid)
        case Err(e) => Fail(e)
        case Ok(isLogged) =>
          if !isLogged || (requireUser && ws.user.None?) then Fail(HttpException(401, "Unauthorized"))
          else Pass
    }

    /** The gate of LEAVE: the session gate, then 403 without a snap-instance key. */
    function LeaveGate(ws: Connection): (r: Outcome)
      reads this, auth, ws
      ensures r == Pass <==> SessionGate(ws, false) == Pass && Truthy(ws.snapsInstanceKey)
      ensures SessionGate(ws, false).Fail? ==> r == SessionGate(ws, false)
      ensures SessionGate(ws, false) == Pass && !Truthy(ws.snapsInstanceKey) ==> r == Fail(HttpException(403, "Forbidden"))
    {
      if SessionGate(ws, false).Fail? then SessionGate(ws, false)
      else if !Truthy(ws.snapsInstanceKey) then Fail(HttpException(403, "Forbidden"))
      else Pass
    }

    /**
     * The gate of SEND_SNAP, ERROR_SNAP and PUBLISH_SNAP: a token and the
     * system flag (401), data with a key (400), a live system login (401).
     */
    function SystemGate(ws: Connection, data: Option<RequestData>): (r: Outcome)
      reads this, auth, ws
      ensures r == Pass <==>
                && Truthy(ws.token) && ws.system && data.Some? && Truthy(data.value.key)
                && auth.IsLoggedSystem(ws.token.value) == Ok(true)
      ensures !Truthy(ws.token) || !ws.system ==> r == Fail(HttpException(401, "Unauthorized"))
      ensures Truthy(ws.token) && ws.system && (data.None? || !Truthy(data.value.key)) ==>
                r == Fail(HttpException(400, "Bad request"))
      ensures Truthy(ws.token) && ws.system && data.Some? && Truthy(data.value.key) ==>
                && (auth.IsLoggedSystem(ws.token.value).Err? ==> r == Fail(auth.IsLoggedSystem(ws.token.value).error))
                && (auth.IsLoggedSystem(ws.token.value) == Ok(false) ==> r == Fail(HttpException(401, "Unauthorized")))
    {
      if !Truthy(ws.token) || !ws.system then Fail(HttpException(401, "Unauthorized"))
      else if data.None? || !Truthy(data.value.key) then Fail(HttpException(400, "Bad request"))
      else match auth.IsLoggedSystem(ws.token.value)
        case Err(e) => Fail(e)
        case Ok(isLogged) => if isLogged then Pass else Fail(HttpException(401, "Unauthorized"))
    }


    /**
     * LOGOUT: the session gate, then the teardown; a connection torn down
     * without error gets "User logged out" after the disconnect messages.
     */
    method LogoutArm(ws: Connection, deleted: Outcome, now: nat, ghost reach: set<Connection>)
      returns (r: Outcome, ghost closed: Option<ClosedInstance>, sent: seq<(Connection, Envelope)>)
      requires Valid() && controller.snapsInstances.Covers(reach)
      modifies auth, auth.websocketClients, controller, controller.snapsInstances, reach, ws
      ensures Valid()
      ensures ws.Heart() == old(ws.Heart())
      ensures r == Pass ==> ws.Cleared()
      ensures r.Fail? ==> ws.Id() == old(ws.Id())
      ensures old(SessionGate(ws, false)).Fail? ==>
                && r == old(SessionGate(ws, false)) && sent == [] && ws.snapsInstanceKey == old(ws.snapsInstanceKey)
                && RegistryKept(old(Before(controller, ws)), controller) && SessionsKept(old(SessionOf(auth, ws)), auth)
      ensures old(SessionGate(ws, false)) == Pass ==>
                exists disconnects ::
                  && TornDown(old(Before(controller, ws)), old(SessionOf(auth, ws)), auth, controller, deleted, now, r, closed, disconnects)
                  && sent == disconnects + (if r == Pass then [(ws, CreateMessage(true, "User logged out", Some(LogoutAction)))] else [])
      ensures KeysCleared(closed)
    {
      r := SessionGate(ws, false);
      if r.Fail? {
        return r, None, [];
      }
      var disconnects;
      r, closed, disconnects := Teardown(auth, controller, ws, deleted, now, reach);
      sent := disconnects + (if r == Pass then [(ws, CreateMessage(true, "User logged out", Some(LogoutAction)))] else []);
    }

    /** The `close` handler: the teardown, with the error it may throw only logged. */
    method Close(ws: Connection, deleted: Outcome, now: nat, ghost reach: set<Connection>)
      returns (ghost r: Outcome, ghost closed: Option<ClosedInstance>, sent: seq<(Connection, Envelope)>)
      requires Valid() && controller.snapsInstances.Covers(reach)
      modifies auth, auth.websocketClients, controller, controller.snapsInstances, reach, ws
      ensures Valid()
      ensures TornDown(old(Before(controller, ws)), old(SessionOf(auth, ws)), auth, controller, deleted, now, r, closed, sent)
      ensures KeysCleared(closed)
      ensures ws.Heart() == old(ws.Heart())
      ensures r == Pass ==> ws.Cleared()
      ensures r.Fail? ==> ws.Id() == old(ws.Id())
    {
      r, closed, sent := Teardown(auth, controller, ws, deleted, now, reach);
    }

    /**
     * CREATE_SNAP_INSTANCE: the session gate with a user, `CreateRegistry`
     * under the generated `key`, then `Announce`.
     */
    method CreateArm(ws: Connection, data: Option<RequestData>, key: string, created: Result<SnapInstance>,
                     found: Result<SnapInstance>, store: Store)
      returns (r: Outcome, sent: seq<(Connection, Envelope)>)
      requires controller.Valid()
      modifies controller, controller.snapsInstances, controller.snapsInstances.instances.Values, ws
      ensures controller.Valid()
      ensures ws.Id() == old(ws.Id()) && ws.Heart() == old(ws.Heart())
      ensures old(SessionGate(ws, true)).Fail? ==>
                r == old(SessionGate(ws, true)) && sent == [] && Kept(old(StartOf(controller, ws)), controller, ws)
      ensures old(SessionGate(ws, true)) == Pass ==>
                CreateDone(old(StartOf(controller, ws)), controller, ws, data, key, created, found, store,
                           controller.GetSnapInstanceClients(found), controller.GetSnapInstance(key, found, store), r, sent)
    {
      r := SessionGate(ws, true);
      if r.Fail? {
        return r, [];
      }
      r := CreateRegistry(controller, ws, data, key, created);
      if r.Fail? {
        return r, [];
      }
      r, sent := Announce(controller, key, found, store, CreateAction);
    }

    /**
     * JOIN_SNAP_INSTANCE: the session gate with a user, `JoinRegistry`, then
     * `Announce` for the message's key.
     */
    method JoinArm(ws: Connection, data: Option<RequestData>, joined: Result<bool>, found: Result<SnapInstance>,
                   store: Store)
      returns (r: Outcome, sent: seq<(Connection, Envelope)>)
      requires controller.Valid()
      modifies controller, controller.snapsInstances, controller.snapsInstances.instances.Values, ws
      ensures controller.Valid()
      ensures ws.Id() == old(ws.Id()) && ws.Heart() == old(ws.Heart())
      ensures old(SessionGate(ws, true)).Fail? ==>
                r == old(SessionGate(ws, true)) && sent == [] && Kept(old(StartOf(controller, ws)), controller, ws)
      ensures old(SessionGate(ws, true)) == Pass ==>
                var key := if data.Some? && data.value.key.Some? then data.value.key.value else "";
                JoinDone(old(StartOf(controller, ws)), controller, ws, data, joined, found, store,
                         controller.GetSnapInstanceClients(found), controller.GetSnapInstance(key, found, store), r, sent)
    {
      r := SessionGate(ws, true);
      if r.Fail? {
        return r, [];
      }
      r := JoinRegistry(controller, ws, data, joined);
      if r.Fail? {
        return r, [];
      }
      r, sent := Announce(controller, data.value.key.value, found, store, JoinAction);
    }

    /**
     * LEAVE_SNAP_INSTANCE: the leave gate, `LeaveRegistry`, then
     * `LeaveFanout` with the connection's key as it was.
     */
    method LeaveArm(ws: Connection, found: Result<SnapInstance>, left: Outcome, ghost reach: set<Connection>)
      returns (r: Outcome, sent: seq<(Connection, Envelope)>)
      requires controller.Valid() && controller.snapsInstances.Covers(reach)
      modifies controller, controller.snapsInstances, reach, ws
      ensures controller.Valid()
      ensures ws.Id() == old(ws.Id()) && ws.Heart() == old(ws.Heart())
      ensures r.Fail? ==> sent == [] && controller.Untouched() && ws.snapsInstanceKey == old(ws.snapsInstanceKey)
      ensures old(LeaveGate(ws)).Fail? ==> r == old(LeaveGate(ws))
      ensures old(LeaveGate(ws)) == Pass ==> Left(old(StartOf(controller, ws)), controller, found, left, r)
      ensures r == Pass ==>
                var (key, got) := (old(ws.snapsInstanceKey).value, old(controller.snapsInstances.Clients())[found.value.instanceKey]);
                && ws.snapsInstanceKey == None
                && |sent| == |got|
                && (forall i :: 0 <= i < |sent| ==> sent[i].1 == LeftMessage(key) && sent[i].0 in got.Values)
                && (forall id :: id in got ==> (got[id], LeftMessage(key)) in sent)
                && (forall c :: c in got.Values ==> c.snapsInstanceKey == None)
    {
      r := LeaveGate(ws);
      if r.Fail? {
        return r, [];
      }
      var key := ws.snapsInstanceKey.value;
      var clients;
      r, clients := LeaveRegistry(controller, ws, found, left);
      if r.Fail? {
        return r, [];
      }
      sent := LeaveFanout(ws, clients, key, controller.snapsInstances);
    }

    /** SEND_SNAP: the system gate, then `SendSnap` for the key of the data. */
    method SendSnapArm(ws: Connection, data: Option<RequestData>, found: Result<SnapInstance>, store: Store,
                       ghost reach: set<Connection>)
      returns (r: Outcome, sent: seq<(Connection, Envelope)>)
      requires Valid() && controller.snapsInstances.Covers(reach)
      modifies reach
      ensures forall c :: c in reach ==> c.Id() == old(c.Id()) && c.snapsInstanceKey == old(c.snapsInstanceKey)
      ensures r.Fail? ==> sent == []
      ensures old(SystemGate(ws, data)).Fail? ==> r == old(SystemGate(ws, data))
      ensures old(SystemGate(ws, data)) == Pass ==>
                SnapSent(old(controller.GetSnapInstanceClients(found)),
                         old(controller.GetSnapInstance(data.value.key.value, found, store)), ws, r, sent)
    {
      sent := [];
      r := SystemGate(ws, data);
      if r.Fail? {
        return;
      }
      r, sent := SendSnap(controller, ws, data.value.key.value, found, store, reach);
    }

    /**
     * ERROR_SNAP and PUBLISH_SNAP (`action`, with `text` the message the
     * clients get): the system gate, then `DeleteForSystem`; then every
     * client that was in the instance has its key cleared and gets `text`.
     * Reaching the end is not a `break`: the dispatcher goes on into the
     * next arm.
     */
    method SnapSystemArm(ws: Connection, data: Option<RequestData>, action: string, text: string,
                         found: Result<SnapInstance>, deleted: Outcome, ghost reach: set<Connection>)
      returns (r: Outcome, sent: seq<(Connection, Envelope)>)
      requires Valid() && controller.snapsInstances.Covers(reach)
      modifies controller, controller.snapsInstances, reach
      ensures Valid() && controller.snapsInstances.Covers(reach)
      ensures ws.Id() == old(ws.Id())
      ensures r.Fail? ==> sent == [] && controller.Untouched()
      ensures old(SystemGate(ws, data)).Fail? ==> r == old(SystemGate(ws, data))
      ensures old(SystemGate(ws, data)) == Pass ==>
                SystemDeleted(old(Registered(controller)), controller, data.value.key.value, found, deleted, r)
      ensures r == Pass ==> data.Some? && data.value.key.Some? && data.value.key.value !in controller.snapsInstances.instances
      ensures (data.Some? && data.value.key.Some? && FoundFor(found, data.value.key.value)
               && data.value.key.value !in old(controller.snapsInstances.instances)) ==> r.Fail?
      ensures r == Pass ==>
                var (key, got) := (data.value.key.value, old(controller.snapsInstances.Clients())[found.value.instanceKey]);
                && |sent| == |got|
                && (forall i :: 0 <= i < |sent| ==> sent[i].1 == SyncMessage(text, action, key) && sent[i].0 in got.Values)
                && (forall id :: id in got ==> (got[id], SyncMessage(text, action, key)) in sent)
                && (forall c :: c in got.Values ==> c.snapsInstanceKey == None)
    {
      sent := [];
      r := SystemGate(ws, data);
      if r.Fail? {
        return;
      }
      var key := data.value.key.value;
      var clients;
      r, clients := DeleteForSystem(controller, key, found, deleted, reach);
      if r.Fail? {
        return;
      }
      sent := Broadcast(clients, SyncMessage(text, action, key), true, controller.snapsInstances);
    }

    /**
     * LOGIN: 401 without a device uuid or a token, the error `isLogged`
     * throws, "User already logged" for a live login, the error of `login`;
     * otherwise the connection takes the user, the device, the new session
     * id and the token, gets "User logged" with that session id, and is
     * logged from then on.
     */
    method LoginArm(ws: Connection, msg: UserMessage, uuid: string, now: nat)
      returns (r: Outcome, sent: seq<(Connection, Envelope)>)
      requires auth.Valid()
      modifies auth, auth.websocketClients, ws
      ensures auth.Valid()
      ensures ws.Heart() == old(ws.Heart()) && ws.snapsInstanceKey == old(ws.snapsInstanceKey) && ws.system == old(ws.system)
      ensures r.Fail? ==> sent == [] && ws.SameIdentity() && auth.connectedUsers == old(auth.connectedUsers)
      ensures !Truthy(msg.deviceUuid) || !Truthy(msg.token) ==> r == Fail(HttpException(401, "Unauthorized"))
      ensures Truthy(msg.deviceUuid) && Truthy(msg.token) ==>
                var logged := old(auth.IsLogged(msg.token.value, msg.deviceUuid.value));
                var checks := old(auth.LoginChecks(msg.token.value, msg.deviceUuid.value));
                && (logged.Err? ==> r == Fail(logged.error))
                && (logged == Ok(true) ==> r == Fail(PlainError("User already logged")))
                && (logged == Ok(false) && checks.Err? ==> r == Fail(checks.error))
                && (logged == Ok(false) && checks.Ok? ==>
                      && r == Pass
                      && ws.user == Some(checks.value.0) && ws.device == Some(checks.value.1)
                      && ws.sessionId == Some(uuid) && ws.token == msg.token
                      && sent == [(ws, CreateMessage(true, "User logged", Some(LoginAction), SessionData(uuid)))]
                      && auth.IsLogged(msg.token.value, msg.deviceUuid.value) == Ok(true))
    {
      if !Truthy(msg.deviceUuid) || !Truthy(msg.token) {
        return Fail(HttpException(401, "Unauthorized")), [];
      }
      var token, deviceUuid := msg.token.value, msg.deviceUuid.value;
      var isLogged := auth.IsLogged(token, deviceUuid);
      if isLogged.Err? {
        return Fail(isLogged.error), [];
      }
      if isLogged.value {
        return Fail(PlainError("User already logged")), [];
      }
      ghost var checks := auth.LoginChecks(token, deviceUuid);
      var login := auth.Login(token, deviceUuid, ws, uuid, now);
      if login.Err? {
        return Fail(login.error), [];
      }
      ws.Bind(login.value.user, login.value.device, login.value.sessionId, msg.token);
      sent := [(ws, CreateMessage(true, "User logged", Some(LoginAction), SessionData(login.value.sessionId)))];
      assert auth.IsLogged(token, deviceUuid) == Ok(true) by {
        var (u, d) := checks.value;
        assert UserFromToken(auth.directory, auth.crypto, token) == Ok(Some(u));
        assert GenerateMapKey(u.id, auth.directory.devices[deviceUuid].uuid) in auth.connectedUsers;
      }
      r := Pass;
    }

    /**
     * LOGIN_SYSTEM: 401 without a token, the error of `loginSystem`;
     * otherwise the connection is marked as the system with that token, gets
     * "System logged", and `isLoggedSystem` holds for the token from then on.
     */
    method LoginSystemArm(ws: Connection, msg: UserMessage) returns (r: Outcome, sent: seq<(Connection, Envelope)>)
      modifies auth, ws
      ensures ws.Heart() == old(ws.Heart()) && ws.snapsInstanceKey == old(ws.snapsInstanceKey)
      ensures ws.user == old(ws.user) && ws.device == old(ws.device) && ws.sessionId == old(ws.sessionId)
      ensures auth.connectedUsers == old(auth.connectedUsers)
      ensures r.Fail? ==> sent == [] && ws.SameIdentity()
      ensures !Truthy(msg.token) ==> r == Fail(HttpException(401, "Unauthorized"))
      ensures Truthy(msg.token) ==>
                (r == Pass <==>
                   && auth.crypto.secretsConfigured && auth.crypto.decipher(msg.token.value).Some?
                   && auth.crypto.decipher(msg.token.value).value in auth.directory.websocketTokens)
      ensures r == Pass ==>
                && ws.system && ws.token == msg.token
                && sent == [(ws, CreateMessage(true, "System logged", Some(LoginSystemAction)))]
                && auth.IsLoggedSystem(msg.token.value) == Ok(true)
    {
      if !Truthy(msg.token) {
        return Fail(HttpException(401, "Unauthorized")), [];
      }
      var login := auth.LoginSystem(msg.token.value, ws);
      if login.Fail? {
        return login, [];
      }
      ws.system := true;
      ws.token := msg.token;
      sent := [(ws, CreateMessage(true, "System logged", Some(LoginSystemAction)))];
      r := Pass;
    }

    /** GET_CONNECTED_USERS: no gate; the reply lists every connected map key, split back into user and device. */
    method GetConnectedUsersArm(ws: Connection) returns (sent: seq<(Connection, Envelope)>)
      ensures |sent| == 1
      ensures var (to, m) := sent[0];
              && to == ws && m.SystemMessage? && m.success && m.message == "Connected users found"
              && m.action == Some(GetConnectedUsersAction) && m.data.ConnectedUsersData?
              && m.data.users.Keys == auth.connectedUsers.Keys
              && forall k :: k in m.data.users ==> m.data.users[k] == ParseMapKey(k, auth.connectedUsers[k].sessionId)
    {
      var results := auth.GetConnectedUsersIds();
      sent := [(ws, CreateMessage(true, "Connected users found", Some(GetConnectedUsersAction), ConnectedUsersData(results)))];
    }

    /**
     * ERROR_SNAP and PUBLISH_SNAP as the switch runs them: ERROR_SNAP's arm
     * with the lookup `found` and the delete `deleted`; when that passes, or
     * for PUBLISH_SNAP itself, PUBLISH_SNAP's arm (after ERROR_SNAP with the
     * lookups made again, `foundAgain` and `deletedAgain`); when that passes
     * too, the default arm's "Action not found".
     */
    method SnapSystemFallThrough(ws: Connection, msg: UserMessage, c: Collaborators, ghost reach: set<Connection>)
      returns (sent: seq<(Connection, Envelope)>, outcome: Outcome, replyAction: string)
      requires Valid() && controller.snapsInstances.Covers(reach)
      requires msg.action == Some(ErrorSnapAction) || msg.action == Some(PublishSnapAction)
      modifies controller, controller.snapsInstances, reach
      ensures Valid() && controller.snapsInstances.Covers(reach)
      ensures msg.action == Some(PublishSnapAction) ==> replyAction == PublishSnapAction
      ensures replyAction == ErrorSnapAction || replyAction == PublishSnapAction
      ensures outcome.Fail? ==> |sent| > 0 && sent[|sent| - 1] == (ws, ErrorEnvelope(outcome.error, replyAction))
      ensures outcome == Pass ==> |sent| > 0 && sent[|sent| - 1] == (ws, CreateMessage(false, "Action not found", msg.action))
      ensures (msg.action == Some(ErrorSnapAction) && msg.data.Some? && msg.data.value.key.Some?
               && FoundFor(c.foundAgain, msg.data.value.key.value)) ==> outcome.Fail?
    {
      var firstSent: seq<(Connection, Envelope)> := [];
      var found, deleted := c.found, c.deleted;
      if msg.action == Some(ErrorSnapAction) {
        var first;
        first, firstSent := SnapSystemArm(ws, msg.data, ErrorSnapAction, "SnapSync deleted", c.found, c.deleted, reach);
        if first.Fail? {
          return firstSent + Answer(ws, first, ErrorSnapAction), first, ErrorSnapAction;
        }
        found, deleted := c.foundAgain, c.deletedAgain;
      }
      var second, secondSent := SnapSystemArm(ws, msg.data, PublishSnapAction, "SnapSync published", found, deleted, reach);
      outcome, replyAction := second, PublishSnapAction;
      if second.Fail? {
        sent := firstSent + secondSent + Answer(ws, second, PublishSnapAction);
      } else {
        sent := firstSent + secondSent + [(ws, CreateMessage(false, "Action not found", msg.action))];
      }
    }

    /**
     * The `message` handler after parsing: "No action provided" under
     * GENERIC without an action, the default arm's "Action not found" for an
     * action it does not know; otherwise the arm's messages and, when the arm
     * throws, the catch block's envelope under `replyAction`, the action the
     * arm set. ERROR_SNAP goes on into PUBLISH_SNAP, and a PUBLISH_SNAP that
     * passes into the default arm; once ERROR_SNAP deleted the instance, the
     * PUBLISH_SNAP it runs into finds it gone, so ERROR_SNAP always ends with
     * an error. `outcome` is how the last arm run ended.
     */
    method Handle(ws: Connection, msg: UserMessage, c: Collaborators, ghost reach: set<Connection>)
      returns (sent: seq<(Connection, Envelope)>, outcome: Outcome, replyAction: string)
      requires Valid() && controller.snapsInstances.Covers(reach)
      modifies auth, auth.websocketClients, controller, controller.snapsInstances, controller.snapsInstances.instances.Values
      modifies reach, ws
      ensures Valid()
      ensures !Truthy(msg.action) ==>
                sent == [(ws, ErrorEnvelope(PlainError("No action provided"), GenericAction))] && outcome.Fail?
      ensures Truthy(msg.action) && msg.action.value !in KnownActions ==>
                sent == [(ws, CreateMessage(false, "Action not found", msg.action))] && outcome == Pass
      ensures Truthy(msg.action) && msg.action.value in KnownActions ==>
                && (msg.action.value != ErrorSnapAction ==> replyAction == msg.action.value)
                && (msg.action.value == ErrorSnapAction ==> replyAction in {ErrorSnapAction, PublishSnapAction})
                && (outcome.Fail? ==> |sent| > 0 && sent[|sent| - 1] == (ws, ErrorEnvelope(outcome.error, replyAction)))
                && (outcome == Pass && msg.action.value in {ErrorSnapAction, PublishSnapAction} ==>
                      |sent| > 0 && sent[|sent| - 1] == (ws, CreateMessage(false, "Action not found", msg.action)))
      ensures (msg.action == Some(ErrorSnapAction) && msg.data.Some? && msg.data.value.key.Some?
               && FoundFor(c.foundAgain, msg.data.value.key.value)) ==> outcome.Fail?
    {
      if !Truthy(msg.action) {
        return [(ws, ErrorEnvelope(PlainError("No action provided"), GenericAction))], Fail(PlainError("No action provided")), GenericAction;
      }
      var action := msg.action.value;
      if action in {LoginAction, LoginSystemAction, GetConnectedUsersAction, LogoutAction} {
        sent, outcome := HandleSession(ws, msg, c, reach);
        replyAction := action;
      } else if action in {CreateAction, JoinAction} {
        sent, outcome := HandleInstance(ws, msg, c);
        replyAction := action;
      } else if action in {LeaveAction, SendSnapAction} {
        sent, outcome := HandleClients(ws, msg, c, reach);
        replyAction := action;
      } else if action == ErrorSnapAction || action == PublishSnapAction {
        sent, outcome, replyAction := SnapSystemFallThrough(ws, msg, c, reach);
      } else {
        sent, outcome, replyAction := [(ws, CreateMessage(false, "Action not found", msg.action))], Pass, action;
      }
    }

    /**
     * The arms of LOGIN, LOGIN_SYSTEM, GET_CONNECTED_USERS and LOGOUT: the
     * arm's messages, then the catch block's envelope under the action when
     * the arm throws.
     */
    method HandleSession(ws: Connection, msg: UserMessage, c: Collaborators, ghost reach: set<Connection>)
      returns (sent: seq<(Connection, Envelope)>, outcome: Outcome)
      requires Valid() && controller.snapsInstances.Covers(reach)
      requires msg.action.Some? && msg.action.value in {LoginAction, LoginSystemAction, GetConnectedUsersAction, LogoutAction}
      modifies auth, auth.websocketClients, controller, controller.snapsInstances, reach, ws
      ensures Valid()
      ensures msg.action.value == GetConnectedUsersAction ==> outcome == Pass && |sent| == 1
      ensures outcome.Fail? ==> |sent| > 0 && sent[|sent| - 1] == (ws, ErrorEnvelope(outcome.error, msg.action.value))
    {
      var action := msg.action.value;
      var armSent: seq<(Connection, Envelope)>;
      outcome := Pass;
      if action == LoginAction {
        outcome, armSent := LoginArm(ws, msg, c.uuid, c.now);
      } else if action == LoginSystemAction {
        outcome, armSent := LoginSystemArm(ws, msg);
      } else if action == GetConnectedUsersAction {
        armSent := GetConnectedUsersArm(ws);
      } else {
        ghost var closed;
        outcome, closed, armSent := LogoutArm(ws, c.deleted, c.now, reach);
      }
      sent := armSent + Answer(ws, outcome, action);
    }

    /**
     * The arms of CREATE_SNAP_INSTANCE and JOIN_SNAP_INSTANCE: the arm's
     * messages, then the catch block's envelope under the action when the
     * arm throws.
     */
    method HandleInstance(ws: Connection, msg: UserMessage, c: Collaborators)
      returns (sent: seq<(Connection, Envelope)>, outcome: Outcome)
      requires Valid()
      requires msg.action == Some(CreateAction) || msg.action == Some(JoinAction)
      modifies controller, controller.snapsInstances, controller.snapsInstances.instances.Values, ws
      ensures Valid()
      ensures outcome.Fail? ==> |sent| > 0 && sent[|sent| - 1] == (ws, ErrorEnvelope(outcome.error, msg.action.value))
    {
      var armSent: seq<(Connection, Envelope)>;
      if msg.action == Some(CreateAction) {
        outcome, armSent := CreateArm(ws, msg.data, c.generatedKey, c.created, c.found, c.store);
      } else {
        outcome, armSent := JoinArm(ws, msg.data, c.joined, c.found, c.store);
      }
      sent := armSent + Answer(ws, outcome, msg.action.value);
    }

    /**
     * The arms of LEAVE_SNAP_INSTANCE and SEND_SNAP: the arm's messages, then
     * the catch block's envelope under the action when the arm throws.
     */
    method HandleClients(ws: Connection, msg: UserMessage, c: Collaborators, ghost reach: set<Connection>)
      returns (sent: seq<(Connection, Envelope)>, outcome: Outcome)
      requires Valid() && controller.snapsInstances.Covers(reach)
      requires msg.action == Some(LeaveAction) || msg.action == Some(SendSnapAction)
      modifies controller, controller.snapsInstances, reach, ws
      ensures Valid()
      ensures outcome.Fail? ==> |sent| > 0 && sent[|sent| - 1] == (ws, ErrorEnvelope(outcome.error, msg.action.value))
    {
      var armSent: seq<(Connection, Envelope)>;
      if msg.action == Some(LeaveAction) {
        outcome, armSent := LeaveArm(ws, c.found, c.left, reach);
      } else {
        outcome, armSent := SendSnapArm(ws, msg.data, c.found, c.store, reach);
      }
      sent := armSent + Answer(ws, outcome, msg.action.value);
    }
  }
}
