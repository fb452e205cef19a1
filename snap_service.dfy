/**
 * `SnapInstanceService` (src/services/snaps_instances.service.ts): the
 * create-validation pipeline, the participant rows, the quorum rule of join
 * and the cascading deletes of leave and owner delete, over in-memory
 * `snaps_instances` and `snaps_instances_users` tables.
 */
module SnapService {
  import opened Wrappers
  import opened Text
  import opened Models
  import opened Exceptions
  import opened Friends

  datatype Shape = Shape(id: nat, numberOfUsers: int)

  datatype ShapePosition = ShapePosition(id: nat, snapInstanceShapeId: nat, name: string, ownerPosition: bool, deleted: bool)

  datatype Invitee = Invitee(id: nat, position: string)

  datatype CreateSnapInstanceDto = CreateSnapInstanceDto(
    userId: nat, snapInstanceShapeId: nat, hashedKey: string, users: seq<Invitee>)

  datatype InstanceRow = InstanceRow(
    id: nat, userId: nat, snapInstanceShapeId: nat, hashedKey: string, timerStarted: bool, deleted: bool)

  datatype MemberRow = MemberRow(
    id: nat, snapInstanceId: nat, userId: nat, positionId: nat,
    isOwner: bool, isJoined: bool, joinedAt: Option<nat>, deleted: bool)

  /** A participant row before the instance id is known (`snapInstanceId: -1` in the source). */
  datatype MemberDraft = MemberDraft(userId: nat, positionId: nat, isOwner: bool, isJoined: bool, joinedAt: Option<nat>)

  /** The tables `createSnapInstance` and `joinUserToSnapInstance` only read; `users` and `shapes` hold the non-deleted rows. */
  datatype Catalog = Catalog(
    users: map<nat, User>,
    shapes: map<nat, Shape>,
    positions: seq<ShapePosition>,
    friendships: FriendTables)

  ghost predicate CatalogValid(c: Catalog) {
    && (forall id :: id in c.users ==> c.users[id].id == id)
    && (forall id :: id in c.shapes ==> c.shapes[id].id == id)
  }

  // ---------------------------------------------------------------- positions

  predicate LivePosition(p: ShapePosition, shapeId: nat, owner: bool) {
    !p.deleted && p.snapInstanceShapeId == shapeId && p.ownerPosition == owner
  }

  /** `findOne({snapInstanceShapeId, ownerPosition: true})`: the first such live row. */
  function OwnerPosition(ps: seq<ShapePosition>, shapeId: nat): (r: Option<ShapePosition>)
    ensures r.Some? ==> r.value in ps && LivePosition(r.value, shapeId, true)
    ensures r.None? ==> forall p :: p in ps ==> !LivePosition(p, shapeId, true)
  {
    if |ps| == 0 then None
    else if LivePosition(ps[0], shapeId, true) then Some(ps[0])
    else OwnerPosition(ps[1..], shapeId)
  }

  /** `where({snapInstanceShapeId, ownerPosition: false})`: the live non-owner rows, in table order. */
  function OtherPositions(ps: seq<ShapePosition>, shapeId: nat): (r: seq<ShapePosition>)
    ensures forall p :: p in r <==> p in ps && LivePosition(p, shapeId, false)
    ensures |r| <= |ps|
  {
    if |ps| == 0 then []
    else if LivePosition(ps[0], shapeId, false) then [ps[0]] + OtherPositions(ps[1..], shapeId)
    else OtherPositions(ps[1..], shapeId)
  }

  /** `findIndex(p => p.name === name)`. */
  function FindPositionIndex(pool: seq<ShapePosition>, name: string): (r: Option<nat>)
    ensures r.Some? ==> r.value < |pool| && pool[r.value].name == name
                        && forall j :: 0 <= j < r.value ==> pool[j].name != name
    ensures r.None? ==> forall j :: 0 <= j < |pool| ==> pool[j].name != name
  {
    if |pool| == 0 then None
    else if pool[0].name == name then Some(0)
    else match FindPositionIndex(pool[1..], name)
      case None => None
      case Some(k) => Some(k + 1)
  }

  function PositionIds(ps: seq<ShapePosition>): (r: seq<nat>)
    ensures |r| == |ps| && forall i :: 0 <= i < |ps| ==> r[i] == ps[i].id
  {
    seq(|ps|, i requires 0 <= i < |ps| => ps[i].id)
  }

  // ---------------------------------------------------------------- invitee checks

  function InviteeIds(invitees: seq<Invitee>): (r: seq<nat>)
    ensures |r| == |invitees| && forall i :: 0 <= i < |invitees| ==> r[i] == invitees[i].id
  {
    seq(|invitees|, i requires 0 <= i < |invitees| => invitees[i].id)
  }

  predicate Distinct(s: seq<nat>) {
    forall i, j :: 0 <= i < j < |s| ==> s[i] != s[j]
  }

  function Elements(s: seq<nat>): set<nat> {
    set x | x in s
  }

  /** `[...new Set(ids)].length == ids.length` holds exactly for duplicate-free ids. */
  lemma {:induction false} UniqueCountDistinct(s: seq<nat>)
    ensures |Elements(s)| <= |s|
    ensures |Elements(s)| == |s| <==> Distinct(s)
  {
    if |s| > 0 {
      var init, x := s[..|s| - 1], s[|s| - 1];
      UniqueCountDistinct(init);
      assert s == init + [x];
      DistinctSnoc(init, x);
      assert Elements(s) == Elements(init) + {x};
      if x in init {
        assert Elements(s) == Elements(init);
      } else {
        assert x !in Elements(init);
      }
    }
  }

  /** Appending one id keeps a sequence duplicate-free exactly when the id is new. */
  lemma DistinctSnoc(init: seq<nat>, x: nat)
    ensures Distinct(init + [x]) <==> Distinct(init) && x !in init
  {
    var s := init + [x];
    if Distinct(s) {
      forall i, k | 0 <= i < k < |init| ensures init[i] != init[k] {
        assert init[i] == s[i] && init[k] == s[k];
      }
      forall j | 0 <= j < |init| ensures init[j] != x {
        assert init[j] == s[j] && x == s[|init|];
      }
    }
    if Distinct(init) && x !in init {
      forall i, k | 0 <= i < k < |s| ensures s[i] != s[k] {
        assert s[i] == init[i];
      }
    }
  }

  /** The creator and the shape exist, and the shape has an owner position and `numberOfUsers - 1` other positions. */
  predicate ShapeReady(c: Catalog, dto: CreateSnapInstanceDto) {
    && dto.userId in c.users && dto.snapInstanceShapeId in c.shapes
    && OwnerPosition(c.positions, c.shapes[dto.snapInstanceShapeId].id).Some?
    && c.shapes[dto.snapInstanceShapeId].numberOfUsers
       == |OtherPositions(c.positions, c.shapes[dto.snapInstanceShapeId].id)| + 1
  }

  /**
   * The checks before any invitee is looked up, in their order: 404 user,
   * 404 shape, 500 without an owner position, 500 when the shape's
   * `numberOfUsers` is not one more than its other positions, 400 for a
   * repeated invitee, 400 for self-invitation, 400 for the wrong count.
   * On success: the shape, its owner position and the pool of other positions.
   */
  function Precheck(c: Catalog, dto: CreateSnapInstanceDto): (r: Result<(Shape, ShapePosition, seq<ShapePosition>)>)
    ensures dto.userId !in c.users ==> r == Err(HttpException(404, "User not found."))
    ensures dto.userId in c.users && dto.snapInstanceShapeId !in c.shapes ==> r == Err(HttpException(404, "Shape not found."))
    ensures dto.userId in c.users && dto.snapInstanceShapeId in c.shapes ==>
              var shape := c.shapes[dto.snapInstanceShapeId];
              (OwnerPosition(c.positions, shape.id).None?
               || shape.numberOfUsers != |OtherPositions(c.positions, shape.id)| + 1) ==> r == Err(GenericFailure)
    ensures ShapeReady(c, dto) && !Distinct(InviteeIds(dto.users)) ==>
              r == Err(HttpException(400, "You can't select the same user more than once"))
    ensures ShapeReady(c, dto) && Distinct(InviteeIds(dto.users)) && c.users[dto.userId].id in InviteeIds(dto.users) ==>
              r == Err(HttpException(400, "You can't select yourself"))
    ensures ShapeReady(c, dto) && Distinct(InviteeIds(dto.users)) && c.users[dto.userId].id !in InviteeIds(dto.users)
            && c.shapes[dto.snapInstanceShapeId].numberOfUsers != |dto.users| + 1 ==>
              r == Err(HttpException(400, "You must select " + IntToString(c.shapes[dto.snapInstanceShapeId].numberOfUsers - 1) + " users"))
    ensures r.Ok? <==>
              && ShapeReady(c, dto)
              && Distinct(InviteeIds(dto.users))
              && c.users[dto.userId].id !in InviteeIds(dto.users)
              && c.shapes[dto.snapInstanceShapeId].numberOfUsers == |dto.users| + 1
    ensures r.Ok? ==>
              var shape := c.shapes[dto.snapInstanceShapeId];
              r.value == (shape, OwnerPosition(c.positions, shape.id).value, OtherPositions(c.positions, shape.id))
  {
    var ids := InviteeIds(dto.users);
    UniqueCountDistinct(ids);
    if dto.userId !in c.users then Err(HttpException(404, "User not found."))
    else if dto.snapInstanceShapeId !in c.shapes then Err(HttpException(404, "Shape not found."))
    else
      var findUser := c.users[dto.userId];
      var shape := c.shapes[dto.snapInstanceShapeId];
      var ownerPosition := OwnerPosition(c.positions, shape.id);
      var otherPositions := OtherPositions(c.positions, shape.id);
      if ownerPosition.None? then Err(GenericFailure)
      else if shape.numberOfUsers != |otherPositions| + 1 then Err(GenericFailure)
      else if |ids| != |Elements(ids)| then Err(HttpException(400, "You can't select the same user more than once"))
      else if findUser.id in ids then Err(HttpException(400, "You can't select yourself"))
      else if shape.numberOfUsers != |Elements(ids)| + 1 then
        Err(HttpException(400, "You must select " + IntToString(shape.numberOfUsers - 1) + " users"))
      else Ok((shape, ownerPosition.value, otherPositions))
  }

  /**
   * One iteration of the invitee loop: 404 for an unknown user, the
   * friendship lookup's own error, 400 when not friends, 400 when no
   * remaining position is named `position.toUpperCase()`; otherwise the
   * draft row and the pool with the matched position spliced out.
   */
  function AssignOne(c: Catalog, creatorId: nat, inv: Invitee, pool: seq<ShapePosition>): (r: Result<(MemberDraft, seq<ShapePosition>)>)
    ensures inv.id !in c.users ==> r == Err(HttpException(404, "User not found."))
    ensures inv.id in c.users && AreFriends(c.friendships, creatorId, c.users[inv.id].id).Err? ==>
              r == Err(AreFriends(c.friendships, creatorId, c.users[inv.id].id).error)
    ensures inv.id in c.users && AreFriends(c.friendships, creatorId, c.users[inv.id].id) == Ok(false) ==>
              r == Err(HttpException(400, "You can't invite this user because you are not friends."))
    ensures inv.id in c.users && AreFriends(c.friendships, creatorId, c.users[inv.id].id) == Ok(true) ==>
              (r.Err? <==> forall j :: 0 <= j < |pool| ==> pool[j].name != ToUpper(inv.position))
    ensures r.Ok? ==>
              && inv.id in c.users
              && AreFriends(c.friendships, creatorId, c.users[inv.id].id) == Ok(true)
              && |r.value.1| + 1 == |pool|
              && exists k :: 0 <= k < |pool| && pool[k].name == ToUpper(inv.position)
                             && (forall j :: 0 <= j < k ==> pool[j].name != ToUpper(inv.position))
                             && r.value.0 == MemberDraft(inv.id, pool[k].id, false, false, None)
                             && r.value.1 == pool[..k] + pool[k + 1..]
    ensures r.Err? && inv.id in c.users && AreFriends(c.friendships, creatorId, c.users[inv.id].id) == Ok(true) ==>
              r == Err(HttpException(400, "Position not found."))
  {
    if inv.id !in c.users then Err(HttpException(404, "User not found."))
    else
      match AreFriends(c.friendships, creatorId, c.users[inv.id].id)
      case Err(e) => Err(e)
      case Ok(false) => Err(HttpException(400, "You can't invite this user because you are not friends."))
      case Ok(true) =>
        match FindPositionIndex(pool, ToUpper(inv.position))
        case None => Err(HttpException(400, "Position not found."))
        case Some(k) => Ok((MemberDraft(inv.id, pool[k].id, false, false, None), pool[..k] + pool[k + 1..]))
  }

  /** The whole invitee loop: the first failing invitee's error, or one draft per invitee. */
  function AssignInvitees(c: Catalog, creatorId: nat, invitees: seq<Invitee>, pool: seq<ShapePosition>): Result<seq<MemberDraft>>
    decreases |invitees|
  {
    if |invitees| == 0 then Ok([])
    else match AssignOne(c, creatorId, invitees[0], pool)
      case Err(e) => Err(e)
      case Ok((draft, rest)) =>
        match AssignInvitees(c, creatorId, invitees[1..], rest)
        case Err(e) => Err(e)
        case Ok(drafts) => Ok([draft] + drafts)
  }

  function Prepend(drafts: seq<MemberDraft>, r: Result<seq<MemberDraft>>): Result<seq<MemberDraft>> {
    if r.Ok? then Ok(drafts + r.value) else r
  }

  /** One more iteration of the invitee loop, as seen by the whole-loop definition. */
  lemma AssignInviteesStep(c: Catalog, creatorId: nat, invitees: seq<Invitee>, i: nat, pool: seq<ShapePosition>,
                           drafts: seq<MemberDraft>)
    requires i < |invitees|
    ensures AssignOne(c, creatorId, invitees[i], pool).Err? ==>
              Prepend(drafts, AssignInvitees(c, creatorId, invitees[i..], pool))
              == Err(AssignOne(c, creatorId, invitees[i], pool).error)
    ensures AssignOne(c, creatorId, invitees[i], pool).Ok? ==>
              var (draft, rest) := AssignOne(c, creatorId, invitees[i], pool).value;
              Prepend(drafts, AssignInvitees(c, creatorId, invitees[i..], pool))
              == Prepend(drafts + [draft], AssignInvitees(c, creatorId, invitees[i + 1..], rest))
  {
    assert invitees[i..][0] == invitees[i] && invitees[i..][1..] == invitees[i + 1..];
    if AssignOne(c, creatorId, invitees[i], pool).Ok? {
      var (draft, rest) := AssignOne(c, creatorId, invitees[i], pool).value;
      var tail := AssignInvitees(c, creatorId, invitees[i + 1..], rest);
      if tail.Ok? {
        assert drafts + ([draft] + tail.value) == (drafts + [draft]) + tail.value;
      }
    }
  }

  /** Everything `createSnapInstance` decides before its transaction: an error, or the owner row followed by one row per invitee. */
  function PlanCreate(c: Catalog, dto: CreateSnapInstanceDto, now: nat): Result<seq<MemberDraft>> {
    match Precheck(c, dto)
    case Err(e) => Err(e)
    case Ok((shape, ownerPosition, pool)) =>
      Prepend([MemberDraft(dto.userId, ownerPosition.id, true, true, Some(now))],
              AssignInvitees(c, c.users[dto.userId].id, dto.users, pool))
  }

  predicate PositionIn(id: nat, pool: seq<ShapePosition>) {
    exists p :: p in pool && p.id == id
  }

  /** One loop iteration's outcome, with the position index it consumed. */
  lemma AssignOneStep(c: Catalog, creatorId: nat, inv: Invitee, pool: seq<ShapePosition>)
    returns (k: nat)
    requires AssignOne(c, creatorId, inv, pool).Ok?
    ensures k < |pool| && pool[k].name == ToUpper(inv.position)
    ensures AssignOne(c, creatorId, inv, pool).value
            == (MemberDraft(inv.id, pool[k].id, false, false, None), pool[..k] + pool[k + 1..])
  {
    k := FindPositionIndex(pool, ToUpper(inv.position)).value;
  }

  /** What is left of the pool after a splice is drawn from the pool, and with distinct ids no longer holds the spliced one. */
  lemma SpliceSub(pool: seq<ShapePosition>, k: nat)
    requires k < |pool|
    ensures forall p :: p in pool[..k] + pool[k + 1..] ==> p in pool
    ensures forall x :: x in PositionIds(pool[..k] + pool[k + 1..]) ==> x in PositionIds(pool)
    ensures Distinct(PositionIds(pool)) ==>
              Distinct(PositionIds(pool[..k] + pool[k + 1..])) && pool[k].id !in PositionIds(pool[..k] + pool[k + 1..])
  {
    var rest := pool[..k] + pool[k + 1..];
    var ids, restIds := PositionIds(pool), PositionIds(rest);
    forall j | 0 <= j < |rest| ensures rest[j] == pool[if j < k then j else j + 1] { }
    forall p | p in rest ensures p in pool {
      var j :| 0 <= j < |rest| && rest[j] == p;
      assert p == pool[if j < k then j else j + 1];
    }
    forall x | x in restIds ensures x in ids {
      var j :| 0 <= j < |rest| && restIds[j] == x;
      assert x == ids[if j < k then j else j + 1];
    }
    if Distinct(ids) {
      forall i, j | 0 <= i < j < |rest| ensures restIds[i] != restIds[j] {
        assert restIds[i] == ids[if i < k then i else i + 1] && restIds[j] == ids[if j < k then j else j + 1];
      }
      forall m | 0 <= m < |rest| ensures restIds[m] != ids[k] {
        assert restIds[m] == ids[if m < k then m else m + 1];
      }
    }
  }

  lemma DistinctCons(x: nat, s: seq<nat>)
    requires Distinct(s) && x !in s
    ensures Distinct([x] + s)
  {
    forall i, j | 0 <= i < j < |[x] + s| ensures ([x] + s)[i] != ([x] + s)[j] {
      if i == 0 {
        assert ([x] + s)[j] == s[j - 1];
      } else {
        assert ([x] + s)[i] == s[i - 1] && ([x] + s)[j] == s[j - 1];
      }
    }
  }

  /** The invitee rows: one per invitee in order, none an owner or joined. */
  lemma {:induction false} AssignInviteesRows(c: Catalog, creatorId: nat, invitees: seq<Invitee>, pool: seq<ShapePosition>)
    requires AssignInvitees(c, creatorId, invitees, pool).Ok?
    ensures var ds := AssignInvitees(c, creatorId, invitees, pool).value;
            && |ds| == |invitees| <= |pool|
            && forall i :: 0 <= i < |ds| ==> ds[i] == MemberDraft(invitees[i].id, ds[i].positionId, false, false, None)
    decreases |invitees|
  {
    if |invitees| > 0 {
      var k := AssignOneStep(c, creatorId, invitees[0], pool);
      var rest := pool[..k] + pool[k + 1..];
      AssignInviteesRows(c, creatorId, invitees[1..], rest);
      var tail := AssignInvitees(c, creatorId, invitees[1..], rest).value;
      assert AssignInvitees(c, creatorId, invitees, pool).value == [MemberDraft(invitees[0].id, pool[k].id, false, false, None)] + tail;
      forall i | 1 <= i < |invitees| ensures invitees[i] == invitees[1..][i - 1] { }
    }
  }

  /** Each invitee holds a position of the pool named after its upper-cased request. */
  lemma {:induction false} AssignInviteesFromPool(c: Catalog, creatorId: nat, invitees: seq<Invitee>, pool: seq<ShapePosition>)
    requires AssignInvitees(c, creatorId, invitees, pool).Ok?
    ensures var ds := AssignInvitees(c, creatorId, invitees, pool).value;
            && |ds| == |invitees|
            && forall i :: 0 <= i < |ds| ==>
                 exists p :: p in pool && p.id == ds[i].positionId && p.name == ToUpper(invitees[i].position)
    decreases |invitees|
  {
    if |invitees| > 0 {
      var k := AssignOneStep(c, creatorId, invitees[0], pool);
      var rest := pool[..k] + pool[k + 1..];
      AssignInviteesFromPool(c, creatorId, invitees[1..], rest);
      var tail := AssignInvitees(c, creatorId, invitees[1..], rest).value;
      var d := MemberDraft(invitees[0].id, pool[k].id, false, false, None);
      assert AssignInvitees(c, creatorId, invitees, pool).value == [d] + tail;
      FromPoolCons(pool, k, invitees, d, tail);
    }
  }

  /** One step of `AssignInvitees`: the head takes `pool[k]`, the tail positions of the rest. */
  lemma FromPoolCons(pool: seq<ShapePosition>, k: nat, invitees: seq<Invitee>, d: MemberDraft, tail: seq<MemberDraft>)
    requires k < |pool| && |invitees| == |tail| + 1
    requires d.positionId == pool[k].id && pool[k].name == ToUpper(invitees[0].position)
    requires forall i :: 0 <= i < |tail| ==>
               exists p :: p in pool[..k] + pool[k + 1..] && p.id == tail[i].positionId && p.name == ToUpper(invitees[1..][i].position)
    ensures var ds := [d] + tail;
            forall i :: 0 <= i < |ds| ==>
              exists p :: p in pool && p.id == ds[i].positionId && p.name == ToUpper(invitees[i].position)
  {
    var ds := [d] + tail;
    SpliceSub(pool, k);
    forall i | 0 <= i < |ds|
      ensures exists p :: p in pool && p.id == ds[i].positionId && p.name == ToUpper(invitees[i].position)
    {
      if i == 0 {
        assert pool[k] in pool;
      } else {
        assert ds[i] == tail[i - 1] && invitees[i] == invitees[1..][i - 1];
        var p :| p in pool[..k] + pool[k + 1..] && p.id == tail[i - 1].positionId && p.name == ToUpper(invitees[1..][i - 1].position);
        assert p in pool;
      }
    }
  }

  /** With distinct pool ids, no position is given to two invitees. */
  lemma {:induction false} AssignInviteesDistinct(c: Catalog, creatorId: nat, invitees: seq<Invitee>, pool: seq<ShapePosition>)
    requires AssignInvitees(c, creatorId, invitees, pool).Ok?
    requires Distinct(PositionIds(pool))
    ensures var ids := DraftPositionIds(AssignInvitees(c, creatorId, invitees, pool).value);
            && (forall x :: x in ids ==> x in PositionIds(pool))
            && Distinct(ids)
    decreases |invitees|
  {
    if |invitees| > 0 {
      var k := AssignOneStep(c, creatorId, invitees[0], pool);
      var rest := pool[..k] + pool[k + 1..];
      SpliceSub(pool, k);
      AssignInviteesDistinct(c, creatorId, invitees[1..], rest);
      var tail := AssignInvitees(c, creatorId, invitees[1..], rest).value;
      var d := MemberDraft(invitees[0].id, pool[k].id, false, false, None);
      assert AssignInvitees(c, creatorId, invitees, pool).value == [d] + tail;
      DistinctDraftCons(pool, k, d, tail);
    }
  }

  /** One step of `AssignInvitees`: the head takes `pool[k]`, the tail only positions of the rest. */
  lemma DistinctDraftCons(pool: seq<ShapePosition>, k: nat, d: MemberDraft, tail: seq<MemberDraft>)
    requires k < |pool| && d.positionId == pool[k].id && Distinct(PositionIds(pool))
    requires var restIds := PositionIds(pool[..k] + pool[k + 1..]);
             (forall x :: x in DraftPositionIds(tail) ==> x in restIds) && Distinct(DraftPositionIds(tail))
    ensures var ids := DraftPositionIds([d] + tail);
            (forall x :: x in ids ==> x in PositionIds(pool)) && Distinct(ids)
  {
    SpliceSub(pool, k);
    var tailIds := DraftPositionIds(tail);
    assert DraftPositionIds([d] + tail) == [pool[k].id] + tailIds;
    assert PositionIds(pool)[k] == pool[k].id;
    DistinctCons(pool[k].id, tailIds);
  }

  function DraftPositionIds(ds: seq<MemberDraft>): (r: seq<nat>)
    ensures |r| == |ds| && forall i :: 0 <= i < |ds| ==> r[i] == ds[i].positionId
  {
    seq(|ds|, i requires 0 <= i < |ds| => ds[i].positionId)
  }

  /**
   * The rows a successful plan produces: exactly one owner row, first and
   * already joined at `now`, holding the owner position; then one
   * non-owner, not-joined row per invitee, in order; `numberOfUsers` rows in all.
   */
  lemma PlanCreateRows(c: Catalog, dto: CreateSnapInstanceDto, now: nat)
    requires CatalogValid(c)
    requires PlanCreate(c, dto, now).Ok?
    ensures var ds := PlanCreate(c, dto, now).value;
            var shape := c.shapes[dto.snapInstanceShapeId];
            && |ds| == |dto.users| + 1 == shape.numberOfUsers
            && ds[0] == MemberDraft(dto.userId, OwnerPosition(c.positions, shape.id).value.id, true, true, Some(now))
            && (forall i :: 1 <= i < |ds| ==> !ds[i].isOwner && !ds[i].isJoined && ds[i].userId == dto.users[i - 1].id)
            && (forall i :: 0 <= i < |ds| && ds[i].isOwner ==> i == 0)
  {
    var (shape, ownerPosition, pool) := Precheck(c, dto).value;
    AssignInviteesRows(c, dto.userId, dto.users, pool);
  }

  // ---------------------------------------------------------------- participant rows

  predicate LiveMember(m: MemberRow, userId: nat, instanceId: nat) {
    !m.deleted && m.userId == userId && m.snapInstanceId == instanceId
  }

  predicate LiveJoined(m: MemberRow, instanceId: nat) {
    !m.deleted && m.snapInstanceId == instanceId && m.isJoined
  }

  /** `findOne({userId, snapInstanceId[, isJoined: true]})` on the non-deleted rows: the first match. */
  function FindMember(rows: seq<MemberRow>, userId: nat, instanceId: nat, joinedOnly: bool): (r: Option<nat>)
    ensures r.Some? ==> r.value < |rows| && LiveMember(rows[r.value], userId, instanceId)
                        && (joinedOnly ==> rows[r.value].isJoined)
                        && forall j :: 0 <= j < r.value ==> !(LiveMember(rows[j], userId, instanceId) && (joinedOnly ==> rows[j].isJoined))
    ensures r.None? ==> forall j :: 0 <= j < |rows| ==> !(LiveMember(rows[j], userId, instanceId) && (joinedOnly ==> rows[j].isJoined))
    decreases |rows|
  {
    if |rows| == 0 then None
    else if LiveMember(rows[0], userId, instanceId) && (joinedOnly ==> rows[0].isJoined) then Some(0)
    else match FindMember(rows[1..], userId, instanceId, joinedOnly)
      case None => None
      case Some(k) => Some(k + 1)
  }

  /** `findOne({hashedKey})` on the non-deleted instances. */
  function FindInstance(rows: seq<InstanceRow>, hashedKey: string): (r: Option<nat>)
    ensures r.Some? ==> r.value < |rows| && !rows[r.value].deleted && rows[r.value].hashedKey == hashedKey
                        && forall j :: 0 <= j < r.value ==> rows[j].deleted || rows[j].hashedKey != hashedKey
    ensures r.None? ==> forall j :: 0 <= j < |rows| ==> rows[j].deleted || rows[j].hashedKey != hashedKey
    decreases |rows|
  {
    if |rows| == 0 then None
    else if !rows[0].deleted && rows[0].hashedKey == hashedKey then Some(0)
    else match FindInstance(rows[1..], hashedKey)
      case None => None
      case Some(k) => Some(k + 1)
  }

  /** `where({snapInstanceId, isJoined: true}).resultSize()` on the non-deleted rows. */
  function JoinedCount(rows: seq<MemberRow>, instanceId: nat): (n: nat)
    ensures n <= |rows|
  {
    if |rows| == 0 then 0
    else JoinedCount(rows[..|rows| - 1], instanceId) + (if LiveJoined(rows[|rows| - 1], instanceId) then 1 else 0)
  }

  /** The join update: every live row of (user, instance) becomes joined at `now`. */
  function MarkJoined(rows: seq<MemberRow>, userId: nat, instanceId: nat, now: nat): (r: seq<MemberRow>)
    ensures |r| == |rows|
    ensures forall i :: 0 <= i < |rows| ==>
              r[i] == if LiveMember(rows[i], userId, instanceId) then rows[i].(isJoined := true, joinedAt := Some(now)) else rows[i]
  {
    seq(|rows|, i requires 0 <= i < |rows| =>
      if LiveMember(rows[i], userId, instanceId) then rows[i].(isJoined := true, joinedAt := Some(now)) else rows[i])
  }

  /** The cascade: every live participant row of the instance is deleted. */
  function DeleteMembers(rows: seq<MemberRow>, instanceId: nat): (r: seq<MemberRow>)
    ensures |r| == |rows|
    ensures forall i :: 0 <= i < |rows| ==>
              r[i] == if rows[i].snapInstanceId == instanceId then rows[i].(deleted := true) else rows[i]
  {
    seq(|rows|, i requires 0 <= i < |rows| =>
      if rows[i].snapInstanceId == instanceId then rows[i].(deleted := true) else rows[i])
  }

  /** A count is monotone in the rows it counts, and strictly so when one more row qualifies. */
  lemma {:induction false} JoinedCountGrows(a: seq<MemberRow>, b: seq<MemberRow>, instanceId: nat, k: nat)
    requires |a| == |b| && k < |a|
    requires forall i :: 0 <= i < |a| && LiveJoined(a[i], instanceId) ==> LiveJoined(b[i], instanceId)
    requires !LiveJoined(a[k], instanceId) && LiveJoined(b[k], instanceId)
    ensures JoinedCount(b, instanceId) > JoinedCount(a, instanceId)
  {
    var n := |a|;
    if k == n - 1 {
      JoinedCountMonotone(a[..n - 1], b[..n - 1], instanceId);
    } else {
      JoinedCountGrows(a[..n - 1], b[..n - 1], instanceId, k);
    }
  }

  lemma {:induction false} JoinedCountMonotone(a: seq<MemberRow>, b: seq<MemberRow>, instanceId: nat)
    requires |a| == |b|
    requires forall i :: 0 <= i < |a| && LiveJoined(a[i], instanceId) ==> LiveJoined(b[i], instanceId)
    ensures JoinedCount(b, instanceId) >= JoinedCount(a, instanceId)
  {
    if |a| > 0 {
      JoinedCountMonotone(a[..|a| - 1], b[..|b| - 1], instanceId);
    }
  }

  /** A successful join adds at least one to the instance's joined count. */
  lemma JoinRaisesCount(rows: seq<MemberRow>, userId: nat, instanceId: nat, now: nat)
    requires FindMember(rows, userId, instanceId, false).Some?
    requires FindMember(rows, userId, instanceId, true).None?
    ensures JoinedCount(MarkJoined(rows, userId, instanceId, now), instanceId) > JoinedCount(rows, instanceId)
  {
    var k := FindMember(rows, userId, instanceId, false).value;
    JoinedCountGrows(rows, MarkJoined(rows, userId, instanceId, now), instanceId, k);
  }

  /** After the cascade the instance has no live participant, and no other instance's rows changed. */
  lemma CascadeLeavesNoMember(rows: seq<MemberRow>, instanceId: nat)
    ensures forall i :: 0 <= i < |rows| ==>
              var r := DeleteMembers(rows, instanceId)[i];
              (r.snapInstanceId == instanceId ==> r.deleted) && (rows[i].snapInstanceId != instanceId ==> r == rows[i])
    ensures forall u :: FindMember(DeleteMembers(rows, instanceId), u, instanceId, false).None?
    ensures JoinedCount(DeleteMembers(rows, instanceId), instanceId) == 0
  {
    JoinedCountOfDeleted(DeleteMembers(rows, instanceId), instanceId);
  }

  lemma {:induction false} JoinedCountOfDeleted(rows: seq<MemberRow>, instanceId: nat)
    requires forall i :: 0 <= i < |rows| && rows[i].snapInstanceId == instanceId ==> rows[i].deleted
    ensures JoinedCount(rows, instanceId) == 0
  {
    if |rows| > 0 {
      JoinedCountOfDeleted(rows[..|rows| - 1], instanceId);
    }
  }

  function Materialize(drafts: seq<MemberDraft>, firstId: nat, instanceId: nat): (r: seq<MemberRow>)
    ensures |r| == |drafts|
    ensures forall i :: 0 <= i < |drafts| ==>
              r[i] == MemberRow(firstId + i, instanceId, drafts[i].userId, drafts[i].positionId,
                                drafts[i].isOwner, drafts[i].isJoined, drafts[i].joinedAt, false)
  {
    seq(|drafts|, i requires 0 <= i < |drafts| =>
      MemberRow(firstId + i, instanceId, drafts[i].userId, drafts[i].positionId,
                drafts[i].isOwner, drafts[i].isJoined, drafts[i].joinedAt, false))
  }

  /**
   * The rows `createSnapInstance` prepares before its transaction, drawn
   * invitee by invitee from the shape's free positions: what `PlanCreate`
   * says.
   */
  method DraftMembers(c: Catalog, dto: CreateSnapInstanceDto, now: nat) returns (r: Result<seq<MemberDraft>>)
    requires CatalogValid(c)
    ensures r == PlanCreate(c, dto, now)
  {
    var checked := Precheck(c, dto);
    if checked.Err? {
      return Err(checked.error);
    }
    var (shape, ownerPosition, otherPositions) := checked.value;
    var findUser := c.users[dto.userId];
    var usersDto := [MemberDraft(findUser.id, ownerPosition.id, true, true, Some(now))];
    ghost var pool0 := otherPositions;
    assert PlanCreate(c, dto, now) == Prepend([usersDto[0]], AssignInvitees(c, findUser.id, dto.users, pool0));
    var i := 0;
    while i < |dto.users|
      invariant 0 <= i <= |dto.users|
      invariant |usersDto| == i + 1
      invariant Prepend([usersDto[0]], AssignInvitees(c, findUser.id, dto.users, pool0))
                == Prepend(usersDto, AssignInvitees(c, findUser.id, dto.users[i..], otherPositions))
      invariant usersDto[0] == MemberDraft(findUser.id, ownerPosition.id, true, true, Some(now))
    {
      AssignInviteesStep(c, findUser.id, dto.users, i, otherPositions, usersDto);
      var step := AssignOne(c, findUser.id, dto.users[i], otherPositions);
      if step.Err? {
        return Err(step.error);
      }
      var (draft, rest) := step.value;
      usersDto := usersDto + [draft];
      otherPositions := rest;
      i := i + 1;
    }
    assert dto.users[i..] == [] && usersDto + [] == usersDto;
    r := Ok(usersDto);
  }

  class SnapInstanceService {
    const catalog: Catalog
    /** `hashSnapInstanceKey`: SHA-256 of the key, as hex. */
    const hash: string -> string
    var instances: seq<InstanceRow>
    var members: seq<MemberRow>

    ghost predicate Valid()
      reads this
    {
      && CatalogValid(catalog)
      && (forall i :: 0 <= i < |instances| ==> instances[i].id == i)
      && (forall i :: 0 <= i < |members| ==> members[i].id == i)
    }

    constructor (catalog: Catalog, hash: string -> string)
      requires CatalogValid(catalog)
      ensures Valid()
      ensures this.catalog == catalog && this.hash == hash
      ensures instances == [] && members == []
    {
      this.catalog := catalog;
      this.hash := hash;
      instances := [];
      members := [];
    }

    /**
     * `createSnapInstance`: the plan's error, or, in one transaction, the
     * instance row and its participant rows; when the transaction does not
     * commit (`commits == false`) nothing is written and the error is 500.
     */
    method CreateSnapInstance(dto: CreateSnapInstanceDto, now: nat, commits: bool) returns (r: Result<InstanceRow>)
      requires Valid()
      modifies this
      ensures Valid()
      ensures PlanCreate(catalog, dto, now).Err? ==>
                r == Err(PlanCreate(catalog, dto, now).error)
                && instances == old(instances) && members == old(members)
      ensures PlanCreate(catalog, dto, now).Ok? && !commits ==>
                r == Err(GenericFailure) && instances == old(instances) && members == old(members)
      ensures PlanCreate(catalog, dto, now).Ok? && commits ==>
                var row := InstanceRow(|old(instances)|, dto.userId, dto.snapInstanceShapeId, dto.hashedKey, false, false);
                && r == Ok(row)
                && instances == old(instances) + [row]
                && members == old(members) + Materialize(PlanCreate(catalog, dto, now).value, |old(members)|, row.id)
    {
      var drafts := DraftMembers(catalog, dto, now);
      if drafts.Err? {
        return Err(drafts.error);
      }
      if !commits {
        return Err(GenericFailure);
      }
      var created := InstanceRow(|instances|, dto.userId, dto.snapInstanceShapeId, dto.hashedKey, false, false);
      instances := instances + [created];
      members := members + Materialize(drafts.value, |members|, created.id);
      r := Ok(created);
    }

    /**
     * `joinUserToSnapInstance`: 404 user, 404 instance, 404 shape, 403
     * without a participant row, 409 when already joined; otherwise the
     * rows are marked joined, and the result, like `timerStarted`, is
     * whether the joined count now equals the shape's `numberOfUsers`.
     */
    method JoinUserToSnapInstance(userId: nat, key: string, now: nat) returns (r: Result<bool>)
      requires Valid()
      modifies this
      ensures Valid()
      ensures userId !in catalog.users ==>
                r == Err(HttpException(404, "User not found.")) && unchanged(this)
      ensures userId in catalog.users && FindInstance(old(instances), hash(key)).None? ==>
                r == Err(HttpException(404, "Snap instance not found.")) && unchanged(this)
      ensures userId in catalog.users && FindInstance(old(instances), hash(key)).Some? ==>
                var inst := old(instances)[FindInstance(old(instances), hash(key)).value];
                && (inst.snapInstanceShapeId !in catalog.shapes ==>
                      r == Err(HttpException(404, "Shape not found.")) && unchanged(this))
                && (inst.snapInstanceShapeId in catalog.shapes && FindMember(old(members), userId, inst.id, false).None? ==>
                      r == Err(HttpException(403, "You can't join this snap instance.")) && unchanged(this))
                && (inst.snapInstanceShapeId in catalog.shapes && FindMember(old(members), userId, inst.id, false).Some?
                    && FindMember(old(members), userId, inst.id, true).Some? ==>
                      r == Err(HttpException(409, "You are already joined to this snap instance.")) && unchanged(this))
                && (inst.snapInstanceShapeId in catalog.shapes && FindMember(old(members), userId, inst.id, false).Some?
                    && FindMember(old(members), userId, inst.id, true).None? ==>
                      var newMembers := MarkJoined(old(members), userId, inst.id, now);
                      var quorum := JoinedCount(newMembers, inst.id) == catalog.shapes[inst.snapInstanceShapeId].numberOfUsers;
                      && r == Ok(quorum)
                      && members == newMembers
                      && instances == (if quorum then old(instances)[inst.id := inst.(timerStarted := true)] else old(instances))
                      && JoinedCount(members, inst.id) > JoinedCount(old(members), inst.id))
    {
      if userId !in catalog.users {
        return Err(HttpException(404, "User not found."));
      }
      var findUser := catalog.users[userId];
      var hashedKey := hash(key);
      var found := FindInstance(instances, hashedKey);
      if found.None? {
        return Err(HttpException(404, "Snap instance not found."));
      }
      var findSnapInstance := instances[found.value];
      if findSnapInstance.snapInstanceShapeId !in catalog.shapes {
        return Err(HttpException(404, "Shape not found."));
      }
      var shape := catalog.shapes[findSnapInstance.snapInstanceShapeId];
      if FindMember(members, findUser.id, findSnapInstance.id, false).None? {
        return Err(HttpException(403, "You can't join this snap instance."));
      }
      if FindMember(members, findUser.id, findSnapInstance.id, true).Some? {
        return Err(HttpException(409, "You are already joined to this snap instance."));
      }
      JoinRaisesCount(members, findUser.id, findSnapInstance.id, now);
      members := MarkJoined(members, findUser.id, findSnapInstance.id, now);
      var timerStarted := false;
      var countJoinedUsers := JoinedCount(members, findSnapInstance.id);
      if countJoinedUsers == shape.numberOfUsers {
        instances := instances[findSnapInstance.id := findSnapInstance.(timerStarted := true)];
        timerStarted := true;
      }
      r := Ok(timerStarted);
    }

    /** The cascading delete both `leave` and owner delete commit: every participant row, then the instance row. */
    method Cascade(index: nat)
      requires Valid() && index < |instances|
      modifies this
      ensures Valid()
      ensures members == DeleteMembers(old(members), index)
      ensures instances == old(instances)[index := old(instances)[index].(deleted := true)]
    {
      CascadeLeavesNoMember(members, index);
      members := DeleteMembers(members, index);
      instances := instances[index := instances[index].(deleted := true)];
    }

    /**
     * `leaveUserFromSnapInstance`: 404 user, 404 instance, 403 without a
     * participant row, 400 when that row is not joined; otherwise the
     * cascade, all or nothing.
     */
    method LeaveUserFromSnapInstance(userId: nat, key: string, commits: bool) returns (r: Outcome)
      requires Valid()
      modifies this
      ensures Valid()
      ensures r.Fail? ==> unchanged(this)
      ensures userId !in catalog.users ==> r == Fail(HttpException(404, "User not found."))
      ensures userId in catalog.users && FindInstance(old(instances), hash(key)).None? ==>
                r == Fail(HttpException(404, "Snap instance not found."))
      ensures userId in catalog.users && FindInstance(old(instances), hash(key)).Some? ==>
                var index := FindInstance(old(instances), hash(key)).value;
                var row := FindMember(old(members), userId, index, false);
                && (row.None? ==> r == Fail(HttpException(403, "You can't leave this snap instance.")))
                && (row.Some? && !old(members)[row.value].isJoined ==>
                      r == Fail(HttpException(400, "Ops! You are not joined to this snap instance.")))
                && (row.Some? && old(members)[row.value].isJoined && !commits ==> r == Fail(GenericFailure))
                && (row.Some? && old(members)[row.value].isJoined && commits ==>
                      r == Pass && members == DeleteMembers(old(members), index)
                      && instances == old(instances)[index := old(instances)[index].(deleted := true)])
    {
      if userId !in catalog.users {
        return Fail(HttpException(404, "User not found."));
      }
      var findUser := catalog.users[userId];
      var found := FindInstance(instances, hash(key));
      if found.None? {
        return Fail(HttpException(404, "Snap instance not found."));
      }
      var findSnapInstance := instances[found.value];
      var snapInstanceUser := FindMember(members, findUser.id, findSnapInstance.id, false);
      if snapInstanceUser.None? {
        return Fail(HttpException(403, "You can't leave this snap instance."));
      }
      if !members[snapInstanceUser.value].isJoined {
        return Fail(HttpException(400, "Ops! You are not joined to this snap instance."));
      }
      if !commits {
        return Fail(GenericFailure);
      }
      Cascade(findSnapInstance.id);
      r := Pass;
    }

    /**
     * `deleteSnapInstanceFromKey`: 404 instance, 404 user, 403 when the
     * user is not the instance's owner; otherwise the same cascade.
     */
    method DeleteSnapInstanceFromKey(userId: nat, plainTextKey: string, commits: bool) returns (r: Outcome)
      requires Valid()
      modifies this
      ensures Valid()
      ensures r.Fail? ==> unchanged(this)
      ensures FindInstance(old(instances), hash(plainTextKey)).None? ==> r == Fail(HttpException(404, "Snap instance not found."))
      ensures FindInstance(old(instances), hash(plainTextKey)).Some? ==>
                var index := FindInstance(old(instances), hash(plainTextKey)).value;
                && (userId !in catalog.users ==> r == Fail(HttpException(404, "User not found.")))
                && (userId in catalog.users && old(instances)[index].userId != userId ==>
                      r == Fail(HttpException(403, "You are not the owner of this snap instance.")))
                && (userId in catalog.users && old(instances)[index].userId == userId && !commits ==>
                      r == Fail(GenericFailure))
                && (userId in catalog.users && old(instances)[index].userId == userId && commits ==>
                      r == Pass && members == DeleteMembers(old(members), index)
                      && instances == old(instances)[index := old(instances)[index].(deleted := true)])
    {
      var found := FindInstance(instances, hash(plainTextKey));
      if found.None? {
        return Fail(HttpException(404, "Snap instance not found."));
      }
      var findSnapInstance := instances[found.value];
      if userId !in catalog.users {
        return Fail(HttpException(404, "User not found."));
      }
      var findUser := catalog.users[userId];
      if findSnapInstance.userId != findUser.id {
        return Fail(HttpException(403, "You are not the owner of this snap instance."));
      }
      if !commits {
        return Fail(GenericFailure);
      }
      Cascade(findSnapInstance.id);
      r := Pass;
    }
  }
}
