/** `FriendService.areFriends` (src/services/friends.service.ts). */
module Friends {
  import opened Wrappers
  import opened Text
  import opened Exceptions

  /** A row of `friendship_statuses`. */
  datatype FriendshipStatus = FriendshipStatus(id: nat, name: string, deleted: bool)

  /** A row of `friends`, reduced to the columns the lookup filters on. */
  datatype Friend = Friend(friendshipHash: string, friendshipStatusId: nat, deleted: bool)

  datatype FriendTables = FriendTables(statuses: seq<FriendshipStatus>, friends: seq<Friend>)

  const AcceptedStatus: string := "Accepted"

  /** The order-independent friendship key `"<lower>_<higher>"`. */
  function FriendshipHash(userId1: nat, userId2: nat): string {
    var lowerId := if userId1 < userId2 then userId1 else userId2;
    var higherId := if userId1 > userId2 then userId1 else userId2;
    NatToString(lowerId) + "_" + NatToString(higherId)
  }

  /** `findOne` on the non-deleted statuses named "Accepted": the first such row. */
  function FindAccepted(statuses: seq<FriendshipStatus>): (r: Option<nat>)
    ensures r.Some? ==> r.value < |statuses| && !statuses[r.value].deleted
                        && statuses[r.value].name == AcceptedStatus
    ensures r.Some? ==> forall j :: 0 <= j < r.value ==>
                          statuses[j].deleted || statuses[j].name != AcceptedStatus
    ensures r.None? <==> forall j :: 0 <= j < |statuses| ==>
                           statuses[j].deleted || statuses[j].name != AcceptedStatus
  {
    if |statuses| == 0 then None
    else if !statuses[0].deleted && statuses[0].name == AcceptedStatus then Some(0)
    else match FindAccepted(statuses[1..])
      case None => None
      case Some(j) => Some(j + 1)
  }

  predicate LiveFriendRow(f: Friend, hash: string, statusId: nat) {
    !f.deleted && f.friendshipHash == hash && f.friendshipStatusId == statusId
  }

  /** Some non-deleted row of `friends` has this hash and status. */
  predicate HasFriendRow(friends: seq<Friend>, hash: string, statusId: nat) {
    exists i :: 0 <= i < |friends| && LiveFriendRow(friends[i], hash, statusId)
  }

  /**
   * `areFriends(a, b)`: a plain `Error` when no "Accepted" status exists;
   * otherwise whether some non-deleted friends row has the pair's hash and
   * that status.
   */
  function AreFriends(t: FriendTables, userId1: nat, userId2: nat): (r: Result<bool>)
    ensures r.Err? <==> FindAccepted(t.statuses).None?
    ensures r.Err? ==> r.error == PlainError("Friendship status not found.")
    ensures r.Ok? ==> (r.value <==> HasFriendRow(t.friends, FriendshipHash(userId1, userId2),
                                                 t.statuses[FindAccepted(t.statuses).value].id))
  {
    var hash := FriendshipHash(userId1, userId2);
    match FindAccepted(t.statuses)
    case None => Err(PlainError("Friendship status not found."))
    case Some(s) =>
      var statusId := t.statuses[s].id;
      Ok(HasFriendRow(t.friends, hash, statusId))
  }

  /** The key does not depend on the order of the two ids. */
  lemma FriendshipHashSymmetric(a: nat, b: nat)
    ensures FriendshipHash(a, b) == FriendshipHash(b, a)
  {
  }

  /** Equal ids give `"<id>_<id>"`; otherwise the smaller id comes first. */
  lemma FriendshipHashFormat(a: nat, b: nat)
    ensures a <= b ==> FriendshipHash(a, b) == NatToString(a) + "_" + NatToString(b)
    ensures a == b ==> FriendshipHash(a, b) == NatToString(a) + "_" + NatToString(a)
  {
  }

  /** Hence friendship is symmetric. */
  lemma AreFriendsSymmetric(t: FriendTables, a: nat, b: nat)
    ensures AreFriends(t, a, b) == AreFriends(t, b, a)
  {
    FriendshipHashSymmetric(a, b);
  }

  /** Two pairs share a key only when they are the same unordered pair. */
  lemma FriendshipHashInjective(a: nat, b: nat, c: nat, d: nat)
    requires FriendshipHash(a, b) == FriendshipHash(c, d)
    ensures (a == c && b == d) || (a == d && b == c)
  {
    var lo1, hi1 := if a < b then a else b, if a > b then a else b;
    var lo2, hi2 := if c < d then c else d, if c > d then c else d;
    var s1, s2 := NatToString(lo1), NatToString(lo2);
    assert '_' !in s1 && '_' !in s2;
    SplitAtFirst(s1, '_', NatToString(hi1));
    SplitAtFirst(s2, '_', NatToString(hi2));
    assert s1 + "_" + NatToString(hi1) == s1 + ['_'] + NatToString(hi1);
    assert s2 + "_" + NatToString(hi2) == s2 + ['_'] + NatToString(hi2);
    var h1 := NatToString(hi1);
    var h2 := NatToString(hi2);
    assert '_' !in h1 && '_' !in h2;
    ContainsChar(h1, '_');
    ContainsChar(h2, '_');
    SplitWithoutSeparator(h1, "_");
    SplitWithoutSeparator(h2, "_");
    assert [s1, h1] == [s2, h2];
    NatToStringInjective(lo1, lo2);
    NatToStringInjective(hi1, hi2);
  }
}
