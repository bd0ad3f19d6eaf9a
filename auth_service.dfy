/** The logic of the authentication service that does not call out to
    bcrypt, JWT or the document store: Bearer-header parsing and the user
    listing. The users collection is an input sequence in store order. */
module AuthService {
  import opened Wrappers
  import opened Records
  import opened Seqs
  import opened Js
  import opened Http

  /** `AuthService.extractTokenFromHeader`: the rest of the header after a
      case-sensitive `"Bearer "`, or null when the header is absent, empty or
      does not start that way. */
  function ExtractTokenFromHeader(header: Option<string>): (r: Option<string>)
    ensures r.Some? <==> header.Some? && StartsWith(header.value, BearerPrefix)
    ensures r.Some? ==> BearerPrefix + r.value == header.value
  {
    if header.None? || header.value == "" || !StartsWith(header.value, BearerPrefix) then None
    else
      assert header.value == header.value[..7] + header.value[7..];
      Some(Substring(header.value, 7))
  }

  /** Every token, spaces and the empty token included, comes back whole
      from its header. */
  lemma ExtractTokenRoundTrip(token: string)
    ensures ExtractTokenFromHeader(Some(BearerPrefix + token)) == Some(token)
  {
    var h := BearerPrefix + token;
    assert h[..|BearerPrefix|] == BearerPrefix;
  }

  lemma ExtractTokenExamples()
    ensures ExtractTokenFromHeader(None) == None
    ensures ExtractTokenFromHeader(Some("")) == None
    ensures ExtractTokenFromHeader(Some("Bearer")) == None
    ensures ExtractTokenFromHeader(Some("bearer abc")) == None
    ensures ExtractTokenFromHeader(Some("Bearer ")) == Some("")
    ensures ExtractTokenFromHeader(Some("Bearer a b")) == Some("a b")
  {
    ExtractTokenRoundTrip("");
    ExtractTokenRoundTrip("a b");
    assert "bearer abc"[..7][0] != BearerPrefix[0];
  }

  function NotCurrent(currentUserId: UserId): User -> bool
  {
    (u: User) => u.id != currentUserId
  }

  /** `getAllUsers(currentUserId)`: every other user, without the password. */
  function GetAllUsers(currentUserId: UserId, users: seq<User>): (r: seq<PublicUser>)
    ensures |r| <= |users|
    ensures forall i :: 0 <= i < |r| ==> r[i].id != currentUserId
  {
    var others := Filter(NotCurrent(currentUserId), users);
    assert forall i :: 0 <= i < |others| ==> others[i] in others;
    Map(Public, others)
  }

  /** The caller is never listed, every listed record is the public part of a
      stored user, and every other stored user is listed. */
  lemma GetAllUsersContents(currentUserId: UserId, users: seq<User>)
    ensures forall p :: p in GetAllUsers(currentUserId, users) ==> p.id != currentUserId
    ensures forall p :: p in GetAllUsers(currentUserId, users) ==> exists u :: u in users && Public(u) == p
    ensures forall u :: u in users && u.id != currentUserId ==> Public(u) in GetAllUsers(currentUserId, users)
  {
    var others := Filter(NotCurrent(currentUserId), users);
    var r := Map(Public, others);
    assert forall u :: u in others ==> u.id != currentUserId by {
      forall u | u in others ensures u.id != currentUserId {
        assert NotCurrent(currentUserId)(u);
      }
    }
    assert forall i :: 0 <= i < |others| ==> others[i] in others;
    assert forall p :: p in r ==> exists i :: 0 <= i < |others| && p == Public(others[i]);
    assert forall u :: u in others ==> exists i :: 0 <= i < |others| && u == others[i];
  }

  /** No two user documents share an id. */
  predicate DistinctIds(users: seq<User>)
  {
    forall i, j :: 0 <= i < j < |users| ==> users[i].id != users[j].id
  }

  lemma GetAllUsersCons(currentUserId: UserId, users: seq<User>)
    requires users != []
    ensures GetAllUsers(currentUserId, users) ==
      (if users[0].id != currentUserId then [Public(users[0])] else [])
      + GetAllUsers(currentUserId, users[1..])
  {
    var others := Filter(NotCurrent(currentUserId), users[1..]);
    if users[0].id != currentUserId {
      assert Filter(NotCurrent(currentUserId), users) == [users[0]] + others;
      assert ([users[0]] + others)[1..] == others;
    }
  }

  /** A user id that no stored user has is never listed. */
  lemma {:induction false} UnknownIdNotListed(currentUserId: UserId, users: seq<User>, id: UserId)
    requires forall v :: v in users ==> v.id != id
    ensures forall p :: p in GetAllUsers(currentUserId, users) ==> p.id != id
  {
    if users != [] {
      GetAllUsersCons(currentUserId, users);
      assert users[0] in users;
      assert forall v :: v in users[1..] ==> v in users;
      UnknownIdNotListed(currentUserId, users[1..], id);
    }
  }

  /** With distinct ids, each user other than the caller is listed exactly once. */
  lemma {:induction false} ListedOnce(currentUserId: UserId, users: seq<User>, u: User)
    requires DistinctIds(users)
    requires u in users && u.id != currentUserId
    ensures multiset(GetAllUsers(currentUserId, users))[Public(u)] == 1
  {
    var rest := users[1..];
    var head := if users[0].id != currentUserId then [Public(users[0])] else [];
    GetAllUsersCons(currentUserId, users);
    assert multiset(GetAllUsers(currentUserId, users))
      == multiset(head) + multiset(GetAllUsers(currentUserId, rest));
    TailDistinct(users);
    if users[0] == u {
      HeadIdUnique(users);
      UnknownIdNotListed(currentUserId, rest, u.id);
      assert Public(u) !in GetAllUsers(currentUserId, rest);
    } else {
      assert users == [users[0]] + rest;
      assert u in rest;
      HeadIdUnique(users);
      ListedOnce(currentUserId, rest, u);
    }
  }

  lemma TailDistinct(users: seq<User>)
    requires users != [] && DistinctIds(users)
    ensures DistinctIds(users[1..])
  {
    var rest := users[1..];
    forall i, j | 0 <= i < j < |rest| ensures rest[i].id != rest[j].id {
      assert rest[i] == users[i + 1] && rest[j] == users[j + 1];
    }
  }

  lemma HeadIdUnique(users: seq<User>)
    requires users != [] && DistinctIds(users)
    ensures forall v :: v in users[1..] ==> v.id != users[0].id
  {
    forall v | v in users[1..] ensures v.id != users[0].id {
      var k :| 0 <= k < |users[1..]| && users[1..][k] == v;
      assert users[k + 1] == v;
    }
  }
}
