# SnapSync WebSocket server — a Dafny model

SnapSync's WebSocket server lets the devices of logged-in users gather in a
*snap instance*. A snap instance is a shared session of a snap shape. Each
invited friend takes one of the shape's positions. A separate *system*
client later delivers the finished snap, or reports that it failed. The
model covers the following parts of the server:

- **Envelopes.** `SystemMessage` and `SystemErrorMessage` with their
  default fields, and the `catch` block that maps a thrown yup
  `ValidationError`, `HttpException` or plain `Error` to an error envelope.
- **Dispatch.** The `message` handler's switch. This includes the gates
  in front of each arm. It also includes the one place where an arm has
  no `break`: ERROR_SNAP falls through into PUBLISH_SNAP, and PUBLISH_SNAP
  into the default arm. The model reproduces that.
- **Teardown.** The LOGOUT arm and the `close` handler share it: the
  connection's instance is closed, its clients get a disconnect message,
  the session ends, and the connection's fields are cleared.
- **Heartbeat.** The interval sweep and the `pong` handler.
- **`AuthController`.** `login`, `logout`, `loginSystem`, `isLogged`,
  `isLoggedSystem` and `getConnectedUsersIds`, over the `connectedUsers`
  and `connectedSystemUsers` maps. A connected user's key is
  `userId_deviceUuid`.
- **`websocket_clients` session rows.** `endSession`, and the orphan
  sessions that `login` closes.
- **The in-memory registry of live instances.** `ClassSnapInstance` and
  `ClassSnapsInstances`.
- **The two snap-instance controllers.** One is the controller the server
  imports (`snaps_instaces.controller.ts`). The other is the alternate
  `snaps_instances.controller.ts`.
- **`SnapInstanceService`.** It creates an instance with the creator's
  and the invitees' position rows, joins, leaves and deletes, all with
  soft deletes. It relies on `FriendService.areFriends`.

State the source updates in place is a Dafny `class` whose methods carry
`modifies` clauses and state the whole new state:

- the connection (`Wss.Connection`);
- both controllers and the registry;
- `AuthController` and the session table;
- the service's tables.

The service's planning logic, the friendship check, the text helpers of
the JavaScript runtime and the envelopes are functions. Lemmas about those
functions state the source's promises, for example:

- the round trip of the connected-user map key;
- the symmetry of the friendship hash;
- that a join raises the count of joined members;
- that a cascade leaves no live member;
- how the heartbeat ends a connection;
- the count in the validation message.

The model makes these choices:

- **Outside effects are parameters.** Database lookups the controllers
  make, service outcomes, JWT verification, the AES decipher, the SHA-256
  hash, `uuidv4`, `generateKey` and the clock are all parameters. The
  server's `Collaborators` datatype carries the ones a message handler
  needs.
- **Unawaited calls are modelled as written.** The calls the source does
  not await (`addClient` / `deleteClient` inside `addClientToInstance` /
  `removeClientFromInstance`) succeed as far as their caller sees. The
  inner failure is returned apart, as `detached`.
- **Sends are returned, not performed.** Every `ws.send` becomes an entry
  `(connection, envelope)` in a returned sequence.

## Model

| member | source | states |
|---|---|---|
| Text.NatToString | src/services/friends.service.ts:8 | rendering a number gives a non-empty string of digits, with one digit exactly below 10 |
| Text.IntToString | src/controllers/snaps_instaces.controller.ts:356-359 | an integer renders as its digits, with a leading "-" when negative |
| Text.ParseInt | src/controllers/auth.controller.ts:191 | on the map keys it reads, which start with a rendered id: NaN (None) exactly when the text does not start with a digit, else the value of the leading digits |
| Text.LeadingDigits | src/controllers/auth.controller.ts:191 | the longest digit prefix `parseInt` reads: all digits, a prefix, and followed by a non-digit or the end |
| Text.DigitsValueOfNatToString | src/controllers/auth.controller.ts:188-191 | the digits a number renders to denote that number |
| Text.LeadingDigitsOfDigits | src/controllers/auth.controller.ts:188-191 | reading digits stops exactly where a non-digit follows |
| Text.ParseIntOfRendered | src/controllers/auth.controller.ts:188-191 | `parseInt` of a rendered number followed by a non-digit gives the number back |
| Text.ParseIntOfNatToString | src/controllers/auth.controller.ts:191 | `parseInt` inverts the rendering of a natural number |
| Text.NatToStringInjective | src/services/friends.service.ts:8 | distinct numbers render to distinct strings |
| Text.IndexFrom | src/controllers/auth.controller.ts:188 | the first occurrence of the separator at or after a position, or none at all |
| Text.Split | src/controllers/auth.controller.ts:188 | `split` always yields at least one part |
| Text.SplitWithoutSeparator | src/controllers/auth.controller.ts:240 | a string without the separator splits into itself alone |
| Text.SplitAtFirst | src/controllers/auth.controller.ts:188 | splitting at a single-character separator cuts at its first occurrence |
| Text.ContainsChar | src/controllers/auth.controller.ts:188 | a one-character separator occurs exactly when the character is in the string |
| Text.SplitAtStart | src/controllers/auth.controller.ts:240 | a string that starts with the separator splits into "" and the split of the rest |
| Text.UpperChar | src/services/snaps_instances.service.ts:103 | ASCII lower-case letters map to upper case and every other character is kept (ASCII only) |
| Text.ToUpper | src/services/snaps_instances.service.ts:103 | `toUpperCase` restricted to ASCII: each character is upper-cased on its own, so the length is kept |
| Text.Join | src/controllers/snaps_instances.controller.ts:385 | joining no names gives "" and joining one name gives that name |
| Wss.Connection.constructor | src/server.ts:65-68 | a new connection is alive, not terminated and never pinged, and carries no user, device, session, token, key or system flag |
| Wss.Connection.Bind | src/server.ts:105-108 | after login the connection holds the user, device, session id and token, and its key, system flag and heartbeat are kept |
| Wss.Connection.LeaveKey | src/server.ts:303-304 | leaving clears only the connection's instance key |
| Wss.Connection.Clear | src/server.ts:483-488 | the teardown clears user, device, session, key, system flag and token, and keeps the heartbeat |
| Friends.FindAccepted | src/services/friends.service.ts:10-13 | the first non-deleted status named "Accepted", and none exactly when no such status exists |
| Friends.AreFriends | src/services/friends.service.ts:5-21 | throws "Friendship status not found." exactly without an Accepted status; otherwise true exactly when a live friends row has the pair's hash and that status |
| Friends.FriendshipHashSymmetric | src/services/friends.service.ts:6-8 | the hash does not depend on the order of the two ids |
| Friends.FriendshipHashFormat | src/services/friends.service.ts:6-8 | the hash is "lower_higher" |
| Friends.AreFriendsSymmetric | src/services/friends.service.ts:5-20 | `areFriends(a, b)` and `areFriends(b, a)` always agree |
| Friends.FriendshipHashInjective | src/services/friends.service.ts:6-8 | two pairs share a hash only when they are the same unordered pair |
| Sessions.FindSession | src/services/websocket_clients.service.ts:12-20 | the first live row of that user, device and session uuid, and none exactly when no such row exists |
| Sessions.CloseOrphans | src/controllers/auth.controller.ts:85-102 | every live row of the user's device is ended and soft-deleted, every other row is kept, and no live row of that device remains |
| Sessions.SessionTable.constructor | src/services/websocket_clients.service.ts:6 | the table starts empty |
| Sessions.SessionTable.Insert | src/controllers/auth.controller.ts:104-111 | one new live row with the next id, started now, is appended |
| Sessions.SessionTable.CloseOrphanSessions | src/controllers/auth.controller.ts:85-102 | the table becomes `CloseOrphans` of the old table |
| Sessions.SessionTable.EndSession | src/services/websocket_clients.service.ts:7-27 | 404 "Session not found" with nothing changed when no live row matches; otherwise exactly that row is ended now and soft-deleted |
| Auth.UserFromToken | src/controllers/auth.controller.ts:239-252 | no credential after "Bearer " (or an empty one) throws `jwt must be provided`; a credential `verify` rejects throws `invalid token`; a verified credential gives exactly the live user with the token's id, or none when that id has no live user |
| Auth.BearerRoundTrip | src/controllers/auth.controller.ts:240 | "Bearer " followed by a JWT gives back that JWT |
| Auth.BearerMissing | src/controllers/auth.controller.ts:240 | a token without "Bearer " yields no credential |
| Auth.MapKeyRoundTrip | src/controllers/auth.controller.ts:187-195 | splitting a generated map key gives back the user id and device uuid when the uuid has no "_" |
| Auth.MapKeyTruncatesUuid | src/controllers/auth.controller.ts:187-195 | a device uuid with "_" comes back cut at its first "_" |
| Auth.ListedAfterLogin | src/controllers/auth.controller.ts:114-117 | a logged-in device is listed by `getConnectedUsersIds` with its user, uuid and session id |
| Auth.AuthController.constructor | src/controllers/auth.controller.ts:29-57 | both connected maps start empty |
| Auth.AuthController.LoginChecks | src/controllers/auth.controller.ts:64-83 | login's checks in order: the token's error or 401 "Invalid token", then device, user-device pair and an unconnected map key |
| Auth.AuthController.Login | src/controllers/auth.controller.ts:59-120 | on a failed check nothing changes; otherwise the map key maps to the connection and new session, and the rows are closed (without a session id) and appended |
| Auth.AuthController.Logout | src/controllers/auth.controller.ts:122-135 | no-op unless user, device and session are set; otherwise the map key is dropped and the session ends, or 404 |
| Auth.AuthController.LoginSystem | src/controllers/auth.controller.ts:137-170 | 500 without secrets, the decipher's error, 401 for an unknown token; otherwise the token is registered once, with an existing entry kept |
| Auth.AuthController.IsLogged | src/controllers/auth.controller.ts:200-215 | throws exactly when the token does; true exactly when the token's user with that device has a connected map key |
| Auth.AuthController.IsLoggedSystem | src/controllers/auth.controller.ts:217-237 | 500 without secrets, the decipher's error; otherwise whether the deciphered token is connected |
| Auth.AuthController.GetConnectedUsersIds | src/controllers/auth.controller.ts:172-198 | one entry per connected map key, holding the key split back into user and device and its session id |
| SnapService.OwnerPosition | src/services/snaps_instances.service.ts:33-37 | a live owner position of the shape, or none exactly when there is none |
| SnapService.OtherPositions | src/services/snaps_instances.service.ts:40-44 | exactly the live non-owner positions of the shape |
| SnapService.FindPositionIndex | src/services/snaps_instances.service.ts:100-106 | the first free position with that name, or none exactly when there is none |
| SnapService.InviteeIds | src/services/snaps_instances.service.ts:47 | the invitees' ids in order |
| SnapService.UniqueCountDistinct | src/services/snaps_instances.service.ts:47-53 | the set of ids is no larger than the list, and equally large exactly when the list has no repeats |
| SnapService.Precheck | src/services/snaps_instances.service.ts:22-64 | the checks before any invitee, each error stated under the checks before it: 404 "User not found.", 404 "Shape not found.", 500 without an owner position or with the wrong number of other positions, 400 for a repeated invitee, 400 for self-invitation, 400 "You must select N users" with N = `numberOfUsers - 1`; passing exactly when all hold |
| SnapService.AssignOne | src/services/snaps_instances.service.ts:79-120 | 404 "User not found." for an unknown invitee, the friendship lookup's own error, 400 "You can't invite this user because you are not friends." when not friends, 400 "Position not found." exactly when friends and no remaining position has the upper-cased name; otherwise the first such position is taken and removed from the pool |
| SnapService.AssignInviteesStep | src/services/snaps_instances.service.ts:79-121 | the invitee loop stops at the first error, or goes on with the next invitee and the smaller pool |
| SnapService.AssignInviteesRows | src/services/snaps_instances.service.ts:114-120 | one non-owner, not-joined row per invitee, in order |
| SnapService.AssignInviteesFromPool | src/services/snaps_instances.service.ts:100-112 | each invitee's position is one of the shape's positions, with the right name |
| SnapService.AssignInviteesDistinct | src/services/snaps_instances.service.ts:100-112 | no two invitees get the same position |
| SnapService.PlanCreateRows | src/services/snaps_instances.service.ts:66-121 | a created instance has as many rows as the shape's users, the first the joined owner on the owner position, the rest the invitees |
| SnapService.FindMember | src/services/snaps_instances.service.ts:172-192 | the first live (and, if asked, joined) row of the user in the instance, or none exactly when there is none |
| SnapService.FindInstance | src/services/snaps_instances.service.ts:159-163 | the first live instance with the hashed key, or none exactly when there is none |
| SnapService.JoinedCount | src/services/snaps_instances.service.ts:206-209 | the count of joined members is bounded by the rows |
| SnapService.MarkJoined | src/services/snaps_instances.service.ts:195-201 | exactly the user's live rows in the instance become joined at now |
| SnapService.DeleteMembers | src/services/snaps_instances.service.ts:257-260 | exactly the instance's member rows become soft-deleted |
| SnapService.JoinedCountMonotone | src/services/snaps_instances.service.ts:206-209 | keeping every joined row joined never lowers the count |
| SnapService.JoinedCountGrows | src/services/snaps_instances.service.ts:206-209 | joining one more row raises the count |
| SnapService.JoinRaisesCount | src/services/snaps_instances.service.ts:194-210 | a member who is not yet joined raises the joined count by joining |
| SnapService.CascadeLeavesNoMember | src/services/snaps_instances.service.ts:256-266 | after the cascade the instance has no live member and no joined count, and other instances' rows are kept |
| SnapService.JoinedCountOfDeleted | src/services/snaps_instances.service.ts:206-209 | an instance whose rows are all deleted has no joined member |
| SnapService.Materialize | src/services/snaps_instances.service.ts:132-137 | each planned row is inserted with the next id under the new instance |
| SnapService.DraftMembers | src/services/snaps_instances.service.ts:66-121 | the creation loop computes exactly the planned rows or the first error |
| SnapService.SnapInstanceService.constructor | src/services/snaps_instances.service.ts:18 | the tables start empty |
| SnapService.SnapInstanceService.CreateSnapInstance | src/services/snaps_instances.service.ts:19-148 | the planning error, or a failed transaction, leaves the tables alone; otherwise one instance row and its planned member rows are appended |
| SnapService.SnapInstanceService.JoinUserToSnapInstance | src/services/snaps_instances.service.ts:150-223 | 404 user, 404 instance, 404 shape, 403 non-member, 409 joined; otherwise the member is joined, the count rises, and the timer starts exactly on a full quorum |
| SnapService.SnapInstanceService.Cascade | src/services/snaps_instances.service.ts:254-268 | the instance row and all its member rows are soft-deleted |
| SnapService.SnapInstanceService.LeaveUserFromSnapInstance | src/services/snaps_instances.service.ts:225-273 | 404 user, 404 instance, 403 non-member, 400 not joined, 500 failed transaction, each with nothing changed; otherwise the cascade |
| SnapService.SnapInstanceService.DeleteSnapInstanceFromKey | src/services/snaps_instances.service.ts:275-313 | 404 instance, 404 user, 403 not the owner, 500 failed transaction, each with nothing changed; otherwise the cascade |
| Lookups.FindUserById | src/services/users.service.ts:26-30 | the live user of the id, or 404 "User not found" exactly when there is none |
| Lookups.FindShapeById | src/services/snaps_shapes.service.ts:5-13 | the live shape of the id, or 404 "Shape not found." exactly when there is none |
| Lookups.FindPositionById | src/services/snaps_shapes_positions.service.ts:6-15 | the live position of the id, or 404 "Shape position not found." exactly when there is none |
| Lookups.ParticipantsOf | src/services/snaps_instances_users.service.ts:5-13 | exactly the live member rows of the instance |
| Registry.ClassSnapInstance.constructor | src/controllers/snaps_instaces.controller.ts:22-25 | a new instance holds its key and model and no client |
| Registry.ClassSnapInstance.AddClient | src/controllers/snaps_instaces.controller.ts:27-34 | "Client already exists." with nothing changed for a present user; otherwise the user maps to the client |
| Registry.ClassSnapInstance.FindClient | src/controllers/snaps_instaces.controller.ts:36-38 | the user's client, present exactly when the user is |
| Registry.ClassSnapInstance.DeleteClient | src/controllers/snaps_instaces.controller.ts:40-47 | "Client not found." with nothing changed for an absent user; otherwise exactly that user is removed |
| Registry.ClassSnapsInstances.constructor | src/controllers/snaps_instaces.controller.ts:51 | the registry starts empty |
| Registry.ClassSnapsInstances.FindAllInstances | src/controllers/snaps_instaces.controller.ts:53-55 | exactly the registered instances |
| Registry.ClassSnapsInstances.FindInstanceByKey | src/controllers/snaps_instaces.controller.ts:57-61 | the instance of the key, present exactly when registered |
| Registry.ClassSnapsInstances.CreateInstance | src/controllers/snaps_instaces.controller.ts:63-75 | "Snap instance already exists." with nothing changed; otherwise a fresh instance with no client is registered under the key |
| Registry.ClassSnapsInstances.DeleteInstance | src/controllers/snaps_instaces.controller.ts:77-84 | "Snap instance not found." with nothing changed; otherwise exactly that key and its clients are gone |
| Registry.ClassSnapsInstances.DeleteInstanceIfPresent | src/controllers/snaps_instances.controller.ts:80-87 | the alternate delete removes the key if present and never fails |
| Registry.ClassSnapsInstances.AddClientToInstance | src/controllers/snaps_instaces.controller.ts:86-97 | an unknown key fails; otherwise the call passes, and the unawaited add either adds the client or fails apart, leaving the clients alone |
| Registry.ClassSnapsInstances.RemoveClientFromInstance | src/controllers/snaps_instaces.controller.ts:99-109 | an unknown key fails; otherwise the call passes, and the unawaited delete either removes the user or fails apart |
| Registry.ClassSnapsInstances.FindClientInInstance | src/controllers/snaps_instaces.controller.ts:111-121 | an unknown key fails; otherwise the instance's client of the user, absent exactly when the user is not a client |
| Registry.ClassSnapsInstances.FindClientsInInstance | src/controllers/snaps_instaces.controller.ts:123-132 | an unknown key fails; otherwise the instance's clients |
| LiveController.CreateValidationErrors | src/controllers/snaps_instaces.controller.ts:157-170 | the yup schema passes exactly when a shape id and users are present and each user has an id and a position; a missing field names itself |
| LiveController.InviteErrors | src/controllers/snaps_instaces.controller.ts:157-170 | no error exactly when every invited user from that index on has an id and a position |
| LiveController.InvitedIds | src/controllers/snaps_instaces.controller.ts:192 | the invited users' ids in order |
| LiveController.LiveTitleCases | src/controllers/snaps_instaces.controller.ts:350-363 | the title waits before the timer, otherwise "You and " plus "{{username}}…" for two users or the count of the others |
| LiveController.SnapsInstancesController.constructor | src/controllers/snaps_instaces.controller.ts:136-141 | a fresh empty registry and no notification |
| LiveController.SnapsInstancesController.CreateSnapInstance | src/controllers/snaps_instaces.controller.ts:143-196 | 400 no data, 401, 409 in an instance, validation errors, the service's error, an existing key, each with nothing changed; otherwise the key holds the creator alone and the invitees are notified |
| LiveController.SnapsInstancesController.Register | src/controllers/snaps_instaces.controller.ts:181-195 | a taken key fails with nothing changed; otherwise the instance is registered with the creator as only client and one notification |
| LiveController.SnapsInstancesController.JoinSnapInstance | src/controllers/snaps_instaces.controller.ts:214-249 | 400 no data, 401, 400, 404, 409, the service's error, each with nothing changed; otherwise the user becomes a client of the key |
| LiveController.SnapsInstancesController.LeaveSnapInstance | src/controllers/snaps_instaces.controller.ts:251-278 | 401, 400 no key, 404, 403 non-client, the service's error, each with nothing changed; otherwise the key and its clients are gone |
| LiveController.SnapsInstancesController.GetSnapInstanceClients | src/controllers/snaps_instaces.controller.ts:280-293 | the lookup's error, "Snap instance not found." for an unregistered key, or the instance's clients |
| LiveController.SnapsInstancesController.UsersOf | src/controllers/snaps_instaces.controller.ts:319-348 | succeeds exactly when every member row's position exists and, for a non-empty list, the key is registered; then one view per member with its position's name and whether it is a connected client; otherwise 404 "Shape position not found." or "Snap instance not found.", the former whenever the key is registered |
| LiveController.SnapsInstancesController.GetSnapInstance | src/controllers/snaps_instaces.controller.ts:295-380 | the lookup's error, 404 shape; with the shape, succeeds exactly when every member's position exists and the key is registered (when there are members), failing otherwise with the position 404 or "Snap instance not found."; the view holds the instance's id, key, shape, timer flag, title and one entry per live member |
| LiveController.SnapsInstancesController.ConnectionClosed | src/controllers/snaps_instaces.controller.ts:382-431 | nothing unless the connection's key is registered; then the service delete's error with nothing changed, or the instance is gone and its clients get the disconnect message |
| LiveController.SnapsInstancesController.DeleteSnapInstanceSystem | src/controllers/snaps_instaces.controller.ts:433-443 | the lookup's and the delete's errors, "Snap instance not found."; otherwise the key is gone |
| LiveController.DisconnectMessage | src/controllers/snaps_instaces.controller.ts:412-426 | a successful DELETE_SNAP_INSTANCE envelope with the key and `exit: true` |
| AltController.OthersOf | src/controllers/snaps_instances.controller.ts:364-366 | exactly the members other than the user |
| AltController.NotJoinedOf | src/controllers/snaps_instances.controller.ts:389 | exactly the members not yet joined |
| AltController.Usernames | src/controllers/snaps_instances.controller.ts:378-384 | each member's username in order, or 404 "User not found" exactly when one is missing |
| AltController.TitleListsSelected | src/controllers/snaps_instances.controller.ts:354-410 | with the timer, "You and <the others> sync in {{timer}}"; without, "Wait for <not joined> to join..."; a missing user is a 404 |
| AltController.GetSnapInstanceTitle | src/controllers/snaps_instances.controller.ts:354-362 | a failed instance lookup is passed on |
| AltController.SnapsInstancesController.constructor | src/controllers/snaps_instances.controller.ts:139-144 | a fresh empty registry and no notification |
| AltController.SnapsInstancesController.CreateSnapInstance | src/controllers/snaps_instances.controller.ts:146-162 | 400 no data, a validation error without key, the lookup's error, an existing key; otherwise the key is registered with no client |
| AltController.SnapsInstancesController.JoinSnapInstance | src/controllers/snaps_instances.controller.ts:180-230 | the live join's refusals; otherwise the user becomes a client and the owner is notified unless the joiner is the owner |
| AltController.SnapsInstancesController.GetSnapInstanceClients | src/controllers/snaps_instances.controller.ts:261-274 | the lookup's error, "Snap instance not found.", or the instance's clients |
| AltController.SnapsInstancesController.MembersOf | src/controllers/snaps_instances.controller.ts:310-341 | succeeds exactly when every member row's user exists and, for a non-empty list, the key is registered; then one view per member with its username and whether it is a connected client; otherwise "Snap instance not found." (always for an unregistered key) or 404 "User not found" (always for a registered one) |
| AltController.SnapsInstancesController.GetSnapInstance | src/controllers/snaps_instances.controller.ts:276-352 | the lookup's error; otherwise succeeds exactly when every member's user exists and the key is registered (when there are members), failing otherwise with 404 "User not found" or "Snap instance not found."; the summary holds the instance's id, key, timer flag and one entry per live member |
| AltController.SnapsInstancesController.ConnectionClosed | src/controllers/snaps_instances.controller.ts:412-461 | as the live one, with the alternate's disconnect message |
| AltController.LeftMessage | src/controllers/snaps_instances.controller.ts:442-456 | a successful DELETE_SNAP_INSTANCE envelope with the key and `exit: true` |
| Fanout.Beat | src/server.ts:507-510 | an unanswered connection is terminated; an answered one is marked unanswered and pinged once more |
| Fanout.Pong | src/server.ts:70-72 | a pong marks the connection answered and changes nothing else |
| Fanout.RoundsTerminate | src/server.ts:503-512 | over many sweeps a connection is terminated exactly when some sweep meets it unanswered |
| Fanout.AnsweredNeverTerminated | src/server.ts:503-512 | a connection that answers every ping is never terminated |
| Fanout.Tick | src/server.ts:504-511 | one sweep applies `Beat` to the connection and changes nothing else |
| Fanout.Sweep | src/server.ts:503-512 | the interval applies one `Beat` to every open connection |
| Fanout.OnPong | src/server.ts:70-72 | the pong handler applies `Pong` and changes nothing else |
| Fanout.Release | src/server.ts:474 | a notified client loses its key when the arm clears it, and nothing else changes |
| Fanout.Broadcast | src/server.ts:470-476 | each client gets the message once, only clients get it, keys are cleared when asked, and the registry is kept |
| Server.CreateMessage | src/server.ts:28-39 | a success envelope with the given fields and the defaults |
| Server.CreateErrorMessage | src/server.ts:41-60 | an error envelope with the given fields and the defaults |
| Server.EnvelopeDefaults | src/server.ts:28-60 | the defaults are no action, no data, code 500, not a broadcast, sender "NS" |
| Server.ErrorEnvelope | src/server.ts:416-442 | the catch block: 422 for validation errors, the exception's status (500 if none), message and data, or 500 with an Error's message |
| Server.ValidationEnvelopeCounts | src/server.ts:420-430 | the validation message is the first error plus " and N more" for the N others |
| Server.Answer | src/server.ts:416-442 | a thrown arm adds exactly one error envelope to the client; a passing arm adds none |
| Server.Welcome | src/server.ts:445-452 | a new connection is greeted once with a WSS_INFO envelope whose action is no arm of the switch |
| Server.CloseInstance | src/server.ts:468-477 | `ConnectionClosed` then the disconnect message to each client of the closed instance, keys cleared |
| Server.EndSession | src/server.ts:480-488 | `logout`, then the connection is cleared once it passes |
| Server.Teardown | src/server.ts:459-492 | a system connection is only cleared; any other closes its instance, is logged out and is cleared; the first error stops it |
| Server.JoinedMessage | src/server.ts:225-230 | the "User Joined" envelope carries the instance's data under the client's title |
| Server.JoinedFanout | src/server.ts:214-232 | as written: each client that asks no title gets "User Joined", and it rejects exactly when some client asks a title |
| Server.TitledFanout | src/server.ts:214-232 | each client whose title is found gets "User Joined" under it; it rejects exactly when some title lookup fails, with that error |
| Server.LeftMessage | src/server.ts:309-314 | the "User Left" envelope with the key and `exit: true` |
| Server.SyncMessage | src/server.ts:372-377 | the ERROR_SNAP and PUBLISH_SNAP envelopes with the key and `exit: true` |
| Server.CreateRegistry | src/server.ts:206-207 | the live create's refusal with nothing changed, or the new instance and the connection holding the key |
| Server.JoinRegistry | src/server.ts:249-251 | the live join's refusal with nothing changed, or the connection a client holding the key |
| Server.Announce | src/server.ts:209-232 | with a title lookup, as `TitledFanout` after the clients and data lookups |
| Server.AnnounceAsWritten | src/server.ts:209-232 | as written, as `JoinedFanout` after the clients and data lookups |
| Server.CreateAnnouncedAsWritten | src/server.ts:206-232 | as written, a completed CREATE replies with an error and sends no "User Joined" |
| Server.JoinAnnouncedAsWritten | src/server.ts:249-278 | as written, a completed JOIN replies with an error and the joiner gets no "User Joined" |
| Server.TitledClientAsWritten | src/server.ts:218-223 | as written, a client asking a title makes the fan-out reject and gets nothing |
| Server.CreatorAnnounced | src/server.ts:206-232 | corrected: the creator gets "User Joined" under its title, and the arm passes exactly when that title is found |
| Server.SoleClientAnnounced | src/server.ts:214-232 | corrected: for a sole client, the outcome is that of its title |
| Server.JoinerAnnounced | src/server.ts:249-278 | corrected: the joiner gets "User Joined" under its title when it is found, or the arm fails |
| Server.LeaveRegistry | src/server.ts:296-300 | the clients lookup's error or the live leave's error with nothing changed, or the instance removed and its clients returned |
| Server.LeaveFanout | src/server.ts:302-315 | the leaver and every client lose their keys, and each client gets "User Left" once |
| Server.SendSnap | src/server.ts:332-344 | the lookups' errors; otherwise each client gets "Snap received" with the data, then the system gets "Snap sent", and no key changes |
| Server.DeleteForSystem | src/server.ts:361-367 | the lookup's and the delete's errors with nothing changed; otherwise the key is gone and its clients returned |
| Server.Server.constructor | src/server.ts:62-63 | the server holds one auth controller and the live controller |
| Server.Server.SessionGate | src/server.ts:197-204 | passes exactly with a device, a token, a live login and (for CREATE and JOIN) a user; `isLogged`'s error, else 401 |
| Server.Server.LeaveGate | src/server.ts:284-294 | the session gate, then 403 "Forbidden" without a key |
| Server.Server.SystemGate | src/server.ts:321-329 | 401 without token or system flag, 400 without data or key, the system login's error or 401; passes exactly when all hold |
| Server.Server.LogoutArm | src/server.ts:154-193 | the gate's error with nothing changed; otherwise the teardown, then "User logged out" when it passed |
| Server.Server.Close | src/server.ts:459-492 | the teardown, with its error only logged |
| Server.Server.CreateArm | src/server.ts:195-236 | the gate's error with nothing changed; otherwise the live create and the corrected announcement |
| Server.Server.JoinArm | src/server.ts:237-281 | the gate's error with nothing changed; otherwise the live join and the corrected announcement |
| Server.Server.LeaveArm | src/server.ts:282-318 | the leave gate; then the instance is gone, and every client and the leaver lose their keys and each client gets "User Left" |
| Server.Server.SendSnapArm | src/server.ts:319-347 | the system gate, then `SendSnap` |
| Server.Server.SnapSystemArm | src/server.ts:348-379 | the system gate; then the instance is gone and each former client loses its key and gets the message; a repeated delete of a gone key fails |
| Server.Server.LoginArm | src/server.ts:83-113 | 401, `isLogged`'s error, "User already logged", login's error, each with nothing bound; otherwise the connection is bound, replied "User logged", and from then on logged |
| Server.Server.LoginSystemArm | src/server.ts:114-132 | 401 without token; passes exactly when the token deciphers to a known token; then the connection is the system and logged |
| Server.Server.GetConnectedUsersArm | src/server.ts:133-153 | one reply listing every connected map key split into user and device |
| Server.Server.SnapSystemFallThrough | src/server.ts:348-414 | ERROR_SNAP runs on into PUBLISH_SNAP and then "Action not found"; ERROR_SNAP always ends with an error once its delete went through |
| Server.Server.Handle | src/server.ts:75-442 | "No action provided", "Action not found" for unknown actions; otherwise the arm's messages, ending with the catch's envelope under the arm's action when it throws |
| Server.Server.HandleSession | src/server.ts:83-193 | the session arms, then the catch's envelope when they throw |
| Server.Server.HandleInstance | src/server.ts:195-281 | CREATE and JOIN, then the catch's envelope when they throw |
| Server.Server.HandleClients | src/server.ts:282-347 | LEAVE and SEND_SNAP, then the catch's envelope when they throw |

## Left out

- **Transport and parsing.** JSON parsing, the transport, `ws.on("error")`,
  `wss.on("close")`, the listening port and the console logs are not
  modelled. A message reaches the model already parsed. A `data: null`
  payload is modelled as "no data".
- **The interval.** The heartbeat's timer is left out. `Fanout.Sweep` is
  one run of the interval's body over the open connections.
- **Foreign calls are parameters.** JWT verification, the AES decipher,
  SHA-256, `uuidv4` and the clock are parameters. Their failures are
  modelled as thrown errors.
- **The ORM.** Knex/Objection queries are modelled on sequences of rows.
  A transaction that commits or rolls back is a `commits` flag. Soft
  delete is a `deleted` flag.
- **Service outcomes are inputs to the controllers.** The controllers
  call `SnapInstanceService` methods whose DTOs do not match, and call
  `findSnapInstanceByKey`, which does not exist. The model therefore
  takes those outcomes, and `generateKey`, as parameters instead of
  calling the service model.
- **The alternate controller's join deviates in two ways.** It reads
  fields of the join result that the service does not return. These are
  modelled as an abstract `JoinReport`. The alternate controller's
  commented-out `LeaveSnapInstance` and `DeleteSnapInstanceSystem` are not
  modelled.
- **Push notifications are recorded, not sent.** Expo notifications
  (`expo.service.ts`) are recorded events in `notifications`.
- LiveController.SnapsInstancesController.CreateSnapInstance: the live
  controller awaits `expoService.sendSnapSyncNotification`, but
  `expo.service.ts` defines only `sendSnapSyncAcceptedNotification`. The
  model instead records the evidently intended notification as an event
  and returns the key. As written, the call rejects with a TypeError
  after the instance is registered and the creator added as its client,
  and before `return key`. This differs from the model in three ways:
  - the server's `extWs.snapsInstanceKey = key` never runs, so the
    creator's connection never holds the key;
  - the creator stays a registry client of an instance its connection
    does not name, so LEAVE answers 403 "Forbidden" and `ConnectionClosed`
    does nothing for it;
  - CREATE's error envelope carries that TypeError, not the missing
    `GetSnapInstanceTitle` of the first Findings row.
- **Send order is not modelled.** `Promise.all` runs the callbacks in an
  unspecified order. The order of the `forEach` sends is also left open.
  Only each client's one message is stated, not the order across clients.
- **Unhandled rejections.** An inner failure of a call the source does
  not await is returned as `detached`. This covers `addClient` /
  `deleteClient`, and the live leave's `deleteInstance`. The unhandled
  rejection it raises at run time is not modelled.
- **Action values.** The `WssActions` enum values are taken to equal
  their names. The enum's file is not part of this model.
- **SEND_SNAP's data.** SEND_SNAP calls the live `GetSnapInstance(key,
  true)`. The live method takes only the key, so the extra argument has no
  effect. The timer's minutes and seconds in its view are left out. The
  data sent is the same instance view as for CREATE and JOIN. Picture URLs
  (`imageUrl`) exist only in the alternate controller's `GetSnapInstance`,
  and are left out there.
- **Serialised vs. structured envelopes.** The disconnect message is
  `JSON.stringify`ed before it is sent. The model sends the envelope
  itself.
- **Title lookup by key.** The alternate `GetSnapInstanceTitle` looks
  the instance up by the client's key. The model passes that lookup in
  as `found`, one lookup shared by all clients of the instance.
- **Join does not stamp `timerStartAt`.** The service's join sets
  `timerStarted` on quorum but does not stamp `timerStartAt`. The model
  follows the code on this.
- **`isLogged` throws on a bad JWT.** `isLogged` throws, rather than
  returning false, when the JWT is missing or does not verify, because
  `verify` throws. The model follows the code on this.
- Text.ParseInt: it models JavaScript's `parseInt` only on text that
  starts with a digit or with no digit at all. Leading whitespace, a sign
  and a `0x` prefix, which `parseInt` accepts, give None here. The only
  text it reads is the first part of a connected-user key, which is always
  a rendered id, so none of these occur there.
- Text.ToUpper, Text.UpperChar: they upper-case ASCII letters only.
  JavaScript's `toUpperCase` applies the full Unicode mapping. It maps
  non-ASCII letters, and can lengthen a string ('ß' gives "SS", the
  ligature 'ﬁ' gives "FI"). An invitee position written with such
  characters can match a shape position in the source but gives "Position
  not found." in the model.
- LiveController.SnapsInstancesController.UsersOf,
  AltController.SnapsInstancesController.MembersOf, AltController.Usernames:
  the source pushes each entry after awaited lookups inside `Promise.all`.
  The entries therefore come in the order the lookups finish, which can be
  any order. The model fixes one of those orders, the order of the
  participant rows, and states the entries in that order. The views of
  `GetSnapInstance` and the names in the titles' `join(", ")` follow the
  same fixed order. When several lookups fail, the source rejects with the
  failure that happens first in time. The model rejects with the first one
  in row order.
- Server.Server.Handle: its contract states the dispatch, the gate
  results and the final error envelope. The per-arm state changes are
  stated by the arms' own contracts (`LoginArm`, `CreateArm`, …), which
  `Handle` calls unchanged. `HandleSession`, `HandleInstance` and
  `HandleClients` are stated to the same depth.
- Server.Server.CreateArm: it uses the corrected announcement (`Announce`).
  The behaviour as written is `Server.AnnounceAsWritten`, stated in
  `Server.CreateAnnouncedAsWritten` (see Findings).
- Server.Server.JoinArm: it uses the corrected announcement (see
  Findings), as for `CreateArm`.
- AltController.GetSnapInstanceTitle: its own contract states only that a
  failed lookup is passed on. The titles it builds are stated by
  `AltController.TitleListsSelected`.

## Findings

| source | as written | input that shows it | evidently intended | confidence | as-written member | corrected member |
|---|---|---|---|---|---|---|
| src/server.ts:218-223 | CREATE and JOIN call `controller.GetSnapInstanceTitle`, but the server's controller (`snaps_instaces.controller.ts`) has no such method. Every client with a user and a key makes the `Promise.all` reject with a TypeError. This happens after the instance was created or joined. | a logged-in user sends CREATE_SNAP_INSTANCE with valid data: the creator is the instance's only client and holds the new key, so the reply is an error envelope and no "User Joined" is sent, although the instance is registered. In the source, CREATE already fails earlier, at the undefined `sendSnapSyncNotification` (see the CreateSnapInstance line under "## Left out"). The line-219 failure on CREATE is therefore reached only in the model, where the notification is recorded; on JOIN it is reached as written | each client gets "User Joined" under the title of the controller that has `GetSnapInstanceTitle` (the alternate one) | not executed | Server.CreateAnnouncedAsWritten | Server.CreatorAnnounced |
| src/server.ts:264-269 | the same call in JOIN | a second user joins an existing instance: the joiner holds the key, so the reply is an error and the joiner gets no "User Joined", although it became a client | as above, for the joiner | not executed | Server.JoinAnnouncedAsWritten | Server.JoinerAnnounced |
