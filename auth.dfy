/**
 * `AuthController` (src/controllers/auth.controller.ts): the connection
 * session registry `connectedUsers`, keyed by `"<userId>_<deviceUuid>"`, and
 * the system session registry `connectedSystemUsers`, keyed by a decrypted
 * system token.
 */
module Auth {
  import opened Wrappers
  import opened Text
  import opened Models
  import opened Wss
  import opened Exceptions
  import opened Sessions

  /** The read-only tables `login` and `isLogged` consult. */
  datatype Directory = Directory(
    users: map<nat, User>,          // non-deleted users by id
    devices: map<string, Device>,   // the non-deleted device found for each uuid
    usersDevices: set<(nat, nat)>,  // non-deleted (userId, deviceId) pairings
    websocketTokens: set<string>)   // the `websocket_tokens` table

  ghost predicate DirectoryValid(d: Directory) {
    && (forall id :: id in d.users ==> d.users[id].id == id)
    && (forall u :: u in d.devices ==> d.devices[u].uuid == u)
  }

  /**
   * The foreign calls: `jsonwebtoken.verify` with the server secret (the
   * payload's `id`, or `None` when it throws), whether the three AES settings
   * are configured, and AES decipher of a base64 token (`None` when it throws).
   */
  datatype Crypto = Crypto(
    verify: string -> Option<nat>,
    secretsConfigured: bool,
    decipher: string -> Option<string>)

  /** What `jsonwebtoken` throws for a token it rejects. */
  const JwtRejected: Failure := PlainError("invalid token")
  /** What `jsonwebtoken` throws when given no token at all. */
  const JwtMissing: Failure := PlainError("jwt must be provided")
  /** What the decipher throws on a token it cannot decrypt. */
  const DecipherRejected: Failure := PlainError("bad decrypt")

  const Separator: string := "_"
  const BearerPrefix: string := "Bearer "

  datatype SessionEntry = SessionEntry(client: Connection, sessionId: string)

  datatype LoginResult = LoginResult(user: User, device: Device, sessionId: string)

  /** `generateMapKey`. */
  function GenerateMapKey(userId: nat, deviceUuid: string): string {
    NatToString(userId) + Separator + deviceUuid
  }

  /** `token.split("Bearer ")[1]`, `None` for `undefined`. */
  function BearerCredential(token: string): Option<string> {
    var parts := Split(token, BearerPrefix);
    if |parts| > 1 then Some(parts[1]) else None
  }

  /** `getUserFromToken`: `verify` throws on a missing or rejected token; an unknown id gives `undefined`. */
  function UserFromToken(directory: Directory, crypto: Crypto, token: string): (r: Result<Option<User>>)
    ensures r.Ok? ==> exists jwt: string :: BearerCredential(token) == Some(jwt) && jwt != "" && crypto.verify(jwt).Some?
    ensures r.Ok? && r.value.Some? ==> r.value.value in directory.users.Values
    ensures BearerCredential(token).None? || BearerCredential(token) == Some("") ==> r == Err(JwtMissing)
    ensures var cred := BearerCredential(token);
            cred.Some? && cred.value != "" && crypto.verify(cred.value).None? ==> r == Err(JwtRejected)
    ensures var cred := BearerCredential(token);
            cred.Some? && cred.value != "" && crypto.verify(cred.value).Some? ==>
              var id := crypto.verify(cred.value).value;
              r == Ok(if id in directory.users then Some(directory.users[id]) else None)
    ensures DirectoryValid(directory) && r.Ok? && r.value.Some? ==>
              r.value.value.id == crypto.verify(BearerCredential(token).value).value
  {
    match BearerCredential(token)
    case None => Err(JwtMissing)
    case Some(jwt) =>
      if jwt == "" then Err(JwtMissing)
      else match crypto.verify(jwt)
        case None => Err(JwtRejected)
        case Some(id) => Ok(if id in directory.users then Some(directory.users[id]) else None)
  }

  /** One entry of `getConnectedUsersIds`: `[userId, deviceUuid] = key.split("_")`. */
  function ParseMapKey(key: string, sessionId: string): ConnectedUser {
    var parts := Split(key, Separator);
    ConnectedUser(ParseInt(parts[0]), if |parts| > 1 then Some(parts[1]) else None, sessionId)
  }

  /** A credential sent as `"Bearer <jwt>"` is recovered, when the jwt does not itself contain the prefix. */
  lemma BearerRoundTrip(jwt: string)
    requires !Contains(jwt, BearerPrefix)
    ensures BearerCredential(BearerPrefix + jwt) == Some(jwt)
  {
    SplitAtStart(BearerPrefix, jwt);
    SplitWithoutSeparator(jwt, BearerPrefix);
  }

  /** A token without the prefix yields `undefined`, which `verify` rejects. */
  lemma BearerMissing(token: string)
    requires !Contains(token, BearerPrefix)
    ensures BearerCredential(token) == None
  {
    SplitWithoutSeparator(token, BearerPrefix);
  }

  /** `getConnectedUsersIds` splits a map key back into its user id and device uuid when the uuid has no `_`. */
  lemma MapKeyRoundTrip(userId: nat, deviceUuid: string, sessionId: string)
    requires '_' !in deviceUuid
    ensures ParseMapKey(GenerateMapKey(userId, deviceUuid), sessionId)
            == ConnectedUser(Some(userId), Some(deviceUuid), sessionId)
  {
    var u := NatToString(userId);
    assert '_' !in u;
    assert GenerateMapKey(userId, deviceUuid) == u + ['_'] + deviceUuid;
    SplitAtFirst(u, '_', deviceUuid);
    ContainsChar(deviceUuid, '_');
    SplitWithoutSeparator(deviceUuid, Separator);
    ParseIntOfNatToString(userId);
  }

  /** With a `_` inside the uuid the round trip fails: only the part before it comes back. */
  lemma MapKeyTruncatesUuid(userId: nat, head: string, tail: string, sessionId: string)
    requires '_' !in head
    ensures ParseMapKey(GenerateMapKey(userId, head + "_" + tail), sessionId).deviceUuid == Some(head)
  {
    var u := NatToString(userId);
    assert '_' !in u;
    assert GenerateMapKey(userId, head + "_" + tail) == u + ['_'] + (head + ['_'] + tail);
    SplitAtFirst(u, '_', head + ['_'] + tail);
    SplitAtFirst(head, '_', tail);
  }

  class AuthController {
    var connectedUsers: map<string, SessionEntry>
    var connectedSystemUsers: map<string, Connection>
    const websocketClients: SessionTable
    const directory: Directory
    const crypto: Crypto

    ghost predicate Valid()
      reads this, websocketClients
    {
      websocketClients.Valid() && DirectoryValid(directory)
    }

    constructor (websocketClients: SessionTable, directory: Directory, crypto: Crypto)
      requires websocketClients.Valid() && DirectoryValid(directory)
      ensures Valid()
      ensures connectedUsers == map[] && connectedSystemUsers == map[]
      ensures this.websocketClients == websocketClients
      ensures this.directory == directory && this.crypto == crypto
    {
      connectedUsers := map[];
      connectedSystemUsers := map[];
      this.websocketClients := websocketClients;
      this.directory := directory;
      this.crypto := crypto;
    }

    /**
     * The checks `login` runs before it changes anything, in their order:
     * whatever `getUserFromToken` throws, 401 for no user, 404 for an unknown
     * device, 404 for a missing pairing, 400 when the map key is present.
     */
    function LoginChecks(token: string, deviceUuid: string): (r: Result<(User, Device)>)
      reads this
      ensures r.Ok? ==> UserFromToken(directory, crypto, token) == Ok(Some(r.value.0))
      ensures r.Ok? ==> deviceUuid in directory.devices && directory.devices[deviceUuid] == r.value.1
      ensures r.Ok? ==> (r.value.0.id, r.value.1.id) in directory.usersDevices
      ensures r.Ok? ==> GenerateMapKey(r.value.0.id, r.value.1.uuid) !in connectedUsers
      ensures UserFromToken(directory, crypto, token).Err? ==> r == Err(UserFromToken(directory, crypto, token).error)
      ensures UserFromToken(directory, crypto, token) == Ok(None) ==> r == Err(HttpException(401, "Invalid token"))
    {
      match UserFromToken(directory, crypto, token)
      case Err(e) => Err(e)
      case Ok(None) => Err(HttpException(401, "Invalid token"))
      case Ok(Some(tokenUser)) =>
        if deviceUuid !in directory.devices then Err(HttpException(404, "Device not found"))
        else
          var device := directory.devices[deviceUuid];
          if (tokenUser.id, device.id) !in directory.usersDevices then Err(HttpException(404, "UserDevice not found"))
          else if GenerateMapKey(tokenUser.id, device.uuid) in connectedUsers then
            Err(HttpException(400, "User already connected"))
          else Ok((tokenUser, device))
    }

    /** The session rows `login` leaves: crash recovery when the connection carries no session id, then one new row. */
    ghost function RowsAfterLogin(rows: seq<SessionRow>, hasSession: bool, u: User, d: Device, uuid: string, now: nat): seq<SessionRow>
    {
      var kept := if hasSession then rows else CloseOrphans(rows, u.id, d.id, now);
      kept + [SessionRow(|kept|, u.id, d.id, uuid, now, None, false)]
    }

    /**
     * `login`: on a failed check nothing changes. Otherwise, when the
     * connection has no `sessionId`, every non-deleted session row of this
     * (user, device) is closed and deleted; then exactly one new row with the
     * fresh `uuid` is inserted and the map key is bound to the connection and
     * that uuid, which is also returned.
     */
    method Login(token: string, deviceUuid: string, extWs: Connection, uuid: string, now: nat)
      returns (r: Result<LoginResult>)
      requires Valid()
      modifies this, websocketClients
      ensures Valid()
      ensures connectedSystemUsers == old(connectedSystemUsers)
      ensures old(LoginChecks(token, deviceUuid)).Err? ==>
                && r == Err(old(LoginChecks(token, deviceUuid)).error)
                && connectedUsers == old(connectedUsers)
                && websocketClients.rows == old(websocketClients.rows)
      ensures old(LoginChecks(token, deviceUuid)).Ok? ==>
                var (u, d) := old(LoginChecks(token, deviceUuid)).value;
                && r == Ok(LoginResult(u, d, uuid))
                && connectedUsers == old(connectedUsers)[GenerateMapKey(u.id, d.uuid) := SessionEntry(extWs, uuid)]
                && websocketClients.rows
                   == RowsAfterLogin(old(websocketClients.rows), Truthy(extWs.sessionId), u, d, uuid, now)
    {
      var checked := LoginChecks(token, deviceUuid);
      if checked.Err? {
        return Err(checked.error);
      }
      var (tokenUser, device) := checked.value;
      var mapKey := GenerateMapKey(tokenUser.id, device.uuid);
      if !Truthy(extWs.sessionId) {
        websocketClients.CloseOrphanSessions(tokenUser.id, device.id, now);
      }
      websocketClients.Insert(tokenUser.id, device.id, uuid, now);
      connectedUsers := connectedUsers[mapKey := SessionEntry(extWs, uuid)];
      r := Ok(LoginResult(tokenUser, device, uuid));
    }

    /** The connection carries a user, a device and a (truthy) session id. */
    predicate Bound(client: Connection)
      reads client
    {
      client.user.Some? && client.device.Some? && Truthy(client.sessionId)
    }

    /**
     * `logout`: a no-op unless the connection is bound; otherwise exactly its
     * map key is removed, before `endSession` runs, so the key is gone even
     * when `endSession` reports 404.
     */
    method Logout(client: Connection, now: nat) returns (r: Outcome)
      requires Valid()
      modifies this, websocketClients
      ensures Valid()
      ensures connectedSystemUsers == old(connectedSystemUsers)
      ensures !Bound(client) ==>
                r == Pass && connectedUsers == old(connectedUsers)
                && websocketClients.rows == old(websocketClients.rows)
      ensures Bound(client) ==>
                var (u, d, sid) := (client.user.value, client.device.value, client.sessionId.value);
                && connectedUsers == old(connectedUsers) - {GenerateMapKey(u.id, d.uuid)}
                && (FindSession(old(websocketClients.rows), u.id, d.id, sid).None? ==>
                      r == Fail(HttpException(404, "Session not found"))
                      && websocketClients.rows == old(websocketClients.rows))
                && (FindSession(old(websocketClients.rows), u.id, d.id, sid).Some? ==>
                      var i := FindSession(old(websocketClients.rows), u.id, d.id, sid).value;
                      r == Pass && websocketClients.rows
                                   == old(websocketClients.rows)[i := old(websocketClients.rows)[i].(endedAt := Some(now), deleted := true)])
    {
      r := Pass;
      if Bound(client) {
        var mapKey := GenerateMapKey(client.user.value.id, client.device.value.uuid);
        connectedUsers := connectedUsers - {mapKey};
        r := websocketClients.EndSession(client.user.value, client.device.value, client.sessionId.value, now);
      }
    }

    /**
     * `loginSystem`: 500 without the AES settings, the decipher's error on a
     * token it cannot decrypt, 401 for a token not in `websocket_tokens`;
     * a token already registered returns without changing the map.
     */
    method LoginSystem(token: string, extWs: Connection) returns (r: Outcome)
      modifies this
      ensures connectedUsers == old(connectedUsers)
      ensures !crypto.secretsConfigured ==>
                r == Fail(HttpException(500, "Websocket secret not found"))
                && connectedSystemUsers == old(connectedSystemUsers)
      ensures crypto.secretsConfigured && crypto.decipher(token).None? ==>
                r == Fail(DecipherRejected) && connectedSystemUsers == old(connectedSystemUsers)
      ensures crypto.secretsConfigured && crypto.decipher(token).Some? ==>
                var decrypted := crypto.decipher(token).value;
                && (decrypted !in directory.websocketTokens ==>
                      r == Fail(HttpException(401, "Invalid token"))
                      && connectedSystemUsers == old(connectedSystemUsers))
                && (decrypted in directory.websocketTokens && decrypted in old(connectedSystemUsers) ==>
                      r == Pass && connectedSystemUsers == old(connectedSystemUsers))
                && (decrypted in directory.websocketTokens && decrypted !in old(connectedSystemUsers) ==>
                      r == Pass && connectedSystemUsers == old(connectedSystemUsers)[decrypted := extWs])
    {
      if !crypto.secretsConfigured {
        return Fail(HttpException(500, "Websocket secret not found"));
      }
      var decrypted := crypto.decipher(token);
      if decrypted.None? {
        return Fail(DecipherRejected);
      }
      if decrypted.value !in directory.websocketTokens {
        return Fail(HttpException(401, "Invalid token"));
      }
      if decrypted.value in connectedSystemUsers {
        return Pass;
      }
      connectedSystemUsers := connectedSystemUsers[decrypted.value := extWs];
      r := Pass;
    }

    /**
     * `isLogged`: false for an unknown user or device, otherwise whether the
     * map key is present. Whatever `getUserFromToken` throws propagates.
     */
    function IsLogged(token: string, deviceUuid: string): (r: Result<bool>)
      reads this
      ensures r.Err? <==> UserFromToken(directory, crypto, token).Err?
      ensures r == Ok(true) <==>
                exists u: User :: UserFromToken(directory, crypto, token) == Ok(Some(u))
                            && deviceUuid in directory.devices
                            && GenerateMapKey(u.id, directory.devices[deviceUuid].uuid) in connectedUsers
    {
      match UserFromToken(directory, crypto, token)
      case Err(e) => Err(e)
      case Ok(None) => Ok(false)
      case Ok(Some(tokenUser)) =>
        if deviceUuid !in directory.devices then Ok(false)
        else Ok(GenerateMapKey(tokenUser.id, directory.devices[deviceUuid].uuid) in connectedUsers)
    }

    /** `isLoggedSystem`: membership of the decrypted token in `connectedSystemUsers`. */
    function IsLoggedSystem(token: string): (r: Result<bool>)
      reads this
      ensures !crypto.secretsConfigured ==> r == Err(HttpException(500, "Websocket secret not found"))
      ensures crypto.secretsConfigured && crypto.decipher(token).None? ==> r == Err(DecipherRejected)
      ensures crypto.secretsConfigured && crypto.decipher(token).Some? ==>
                r == Ok(crypto.decipher(token).value in connectedSystemUsers)
    {
      if !crypto.secretsConfigured then Err(HttpException(500, "Websocket secret not found"))
      else match crypto.decipher(token)
        case None => Err(DecipherRejected)
        case Some(decrypted) => Ok(decrypted in connectedSystemUsers)
    }

    /** `getConnectedUsersIds`: one entry per map key, split back into user id and device uuid. */
    method GetConnectedUsersIds() returns (result: map<string, ConnectedUser>)
      ensures result.Keys == connectedUsers.Keys
      ensures forall k :: k in result ==> result[k] == ParseMapKey(k, connectedUsers[k].sessionId)
    {
      result := map[];
      var todo := connectedUsers.Keys;
      while todo != {}
        invariant todo <= connectedUsers.Keys
        invariant result.Keys == connectedUsers.Keys - todo
        invariant forall k :: k in result ==> result[k] == ParseMapKey(k, connectedUsers[k].sessionId)
        decreases |todo|
      {
        var key :| key in todo;
        result := result[key := ParseMapKey(key, connectedUsers[key].sessionId)];
        todo := todo - {key};
      }
    }
  }

  /** A user logged in on a device whose uuid has no `_` is listed with exactly that user, device and session. */
  lemma ListedAfterLogin(auth: AuthController, u: User, d: Device, sid: string, client: Connection,
                         result: map<string, ConnectedUser>)
    requires '_' !in d.uuid
    requires GenerateMapKey(u.id, d.uuid) in auth.connectedUsers
    requires auth.connectedUsers[GenerateMapKey(u.id, d.uuid)] == SessionEntry(client, sid)
    requires result.Keys == auth.connectedUsers.Keys
    requires forall k :: k in result ==> result[k] == ParseMapKey(k, auth.connectedUsers[k].sessionId)
    ensures result[GenerateMapKey(u.id, d.uuid)] == ConnectedUser(Some(u.id), Some(d.uuid), sid)
  {
    MapKeyRoundTrip(u.id, d.uuid, sid);
  }
}
