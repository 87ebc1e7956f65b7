/** The friend-request state machine: sending, accepting and rejecting a request
    between two user documents. Each operation is given as a pure transition on
    the user collection and as a method of `UserStore` that performs it step by
    step on the stored records. */
module FriendController {
  import opened Wrappers
  import opened Lists
  import opened Models

  /** The user collection, keyed by `_id`. */
  type Users = map<UserId, User>

  datatype SendOutcome = RequestSent | UserNotFound | AlreadyRequestedOrFriends
  datatype AcceptOutcome = RequestAccepted | NoSuchRequest

  /** What an operation answers together with the collection it leaves behind. */
  datatype Step<O> = Step(outcome: O, users: Users)

  /** The response `sendRequest` gives for each outcome. */
  function SendResponse(o: SendOutcome): (r: Response)
    ensures o == RequestSent <==> r.status == 200
    ensures o == UserNotFound <==> r.status == 404
    ensures o == AlreadyRequestedOrFriends <==> r.status == 400
    ensures o == RequestSent ==> r.message == "Friend request sent"
    ensures o == UserNotFound ==> r.message == "User not found"
    ensures o == AlreadyRequestedOrFriends ==> r.message == "Already requested or friends"
  {
    match o
    case RequestSent => Response(200, "Friend request sent")
    case UserNotFound => Response(404, "User not found")
    case AlreadyRequestedOrFriends => Response(400, "Already requested or friends")
  }

  /** The response `acceptRequest` gives for each outcome. */
  function AcceptResponse(o: AcceptOutcome): (r: Response)
    ensures o == RequestAccepted <==> r.status == 200
    ensures o == NoSuchRequest <==> r.status == 400
    ensures o == RequestAccepted ==> r.message == "Friend request accepted"
    ensures o == NoSuchRequest ==> r.message == "No such request"
  {
    match o
    case RequestAccepted => Response(200, "Friend request accepted")
    case NoSuchRequest => Response(400, "No such request")
  }

  /** The schema declares `email` unique, so an email names at most one user. */
  ghost predicate EmailsUnique(users: Users) {
    forall a, b :: a in users && b in users && users[a].email == users[b].email ==> a == b
  }

  /** Friendship is mutual: A is among B's friends exactly when B is among A's. */
  ghost predicate FriendsSymmetric(users: Users) {
    forall a, b :: a in users && b in users ==> (a in users[b].friends <==> b in users[a].friends)
  }

  /** Every pending request is recorded at both ends: A is among B's inbound
      requests exactly when B is among A's outbound ones. */
  ghost predicate RequestsMirrored(users: Users) {
    forall a, b :: a in users && b in users ==> (a in users[b].friendRequests <==> b in users[a].sentRequests)
  }

  /** `sendRequest` once the receiver has been found by email. The receiver's
      record is saved before the sender's is fetched, so when both are the same
      user the second update sees the first. */
  function SendTo(users: Users, senderId: UserId, receiverId: UserId): (st: Step<SendOutcome>)
    requires senderId in users && receiverId in users
    ensures st.users.Keys == users.Keys
    ensures st.outcome != UserNotFound
    ensures st.outcome == AlreadyRequestedOrFriends <==>
              senderId in users[receiverId].friendRequests || senderId in users[receiverId].friends
    ensures st.outcome == AlreadyRequestedOrFriends ==> st.users == users
    ensures st.outcome == RequestSent ==> forall u :: u in users ==>
              && st.users[u].email == users[u].email
              && st.users[u].friends == users[u].friends
              && st.users[u].friendRequests == users[u].friendRequests + (if u == receiverId then [senderId] else [])
              && st.users[u].sentRequests == users[u].sentRequests + (if u == senderId then [receiverId] else [])
  {
    var receiver := users[receiverId];
    if senderId in receiver.friendRequests || senderId in receiver.friends then
      Step(AlreadyRequestedOrFriends, users)
    else
      var saved := users[receiverId := receiver.(friendRequests := receiver.friendRequests + [senderId])];
      var sender := saved[senderId];
      Step(RequestSent, saved[senderId := sender.(sentRequests := sender.sentRequests + [receiverId])])
  }

  /** `acceptRequest` by `receiverId` of the request from `senderId`. */
  function AcceptFrom(users: Users, receiverId: UserId, senderId: UserId): (st: Step<AcceptOutcome>)
    requires receiverId in users && senderId in users
    ensures st.users.Keys == users.Keys
    ensures st.outcome == NoSuchRequest <==> senderId !in users[receiverId].friendRequests
    ensures st.outcome == NoSuchRequest ==> st.users == users
    ensures st.outcome == RequestAccepted ==>
              && senderId in st.users[receiverId].friends
              && receiverId in st.users[senderId].friends
              && senderId !in st.users[receiverId].friendRequests
              && receiverId !in st.users[senderId].sentRequests
    ensures st.outcome == RequestAccepted ==> forall u :: u in users ==>
              && st.users[u].email == users[u].email
              && st.users[u].friends == users[u].friends
                   + (if u == receiverId then [senderId] else [])
                   + (if u == senderId then [receiverId] else [])
              && st.users[u].friendRequests ==
                   (if u == receiverId then Without(users[u].friendRequests, senderId) else users[u].friendRequests)
              && st.users[u].sentRequests ==
                   (if u == senderId then Without(users[u].sentRequests, receiverId) else users[u].sentRequests)
    ensures st.outcome == RequestAccepted ==> forall u, v :: u in users ==>
              && (v in st.users[u].friends <==>
                    v in users[u].friends || (u == receiverId && v == senderId) || (u == senderId && v == receiverId))
              && (v in st.users[u].friendRequests <==>
                    v in users[u].friendRequests && !(u == receiverId && v == senderId))
              && (v in st.users[u].sentRequests <==>
                    v in users[u].sentRequests && !(u == senderId && v == receiverId))
  {
    var receiver := users[receiverId];
    if senderId !in receiver.friendRequests then
      Step(NoSuchRequest, users)
    else
      var saved := users[receiverId := receiver.(friends := receiver.friends + [senderId],
                                                 friendRequests := Without(receiver.friendRequests, senderId))];
      var sender := saved[senderId];
      Step(RequestAccepted, saved[senderId := sender.(friends := sender.friends + [receiverId],
                                                      sentRequests := Without(sender.sentRequests, receiverId))])
  }

  /** `rejectRequest` by `receiverId` of the request from `senderId`: unconditional. */
  function RejectFrom(users: Users, receiverId: UserId, senderId: UserId): (after: Users)
    requires receiverId in users && senderId in users
    ensures after.Keys == users.Keys
    ensures senderId !in after[receiverId].friendRequests
    ensures receiverId !in after[senderId].sentRequests
    ensures forall u :: u in users ==>
              && after[u].email == users[u].email
              && after[u].friends == users[u].friends
              && (u != receiverId ==> after[u].friendRequests == users[u].friendRequests)
              && (u != senderId ==> after[u].sentRequests == users[u].sentRequests)
              && (forall v :: v in after[u].friendRequests <==> v in users[u].friendRequests && !(u == receiverId && v == senderId))
              && (forall v :: v in after[u].sentRequests <==> v in users[u].sentRequests && !(u == senderId && v == receiverId))
  {
    var receiver := users[receiverId];
    var saved := users[receiverId := receiver.(friendRequests := Without(receiver.friendRequests, senderId))];
    var sender := saved[senderId];
    saved[senderId := sender.(sentRequests := Without(sender.sentRequests, receiverId))]
  }

  /** A request that went out is refused the second time, and the refusal changes nothing. */
  lemma SendTwiceRefused(users: Users, senderId: UserId, receiverId: UserId)
    requires senderId in users && receiverId in users
    requires SendTo(users, senderId, receiverId).outcome == RequestSent
    ensures var after := SendTo(users, senderId, receiverId).users;
            SendTo(after, senderId, receiverId) == Step(AlreadyRequestedOrFriends, after)
  {
  }

  /** Sending a request keeps friendship mutual, keeps pending requests recorded at
      both ends and keeps emails unique. */
  lemma SendPreservesInvariants(users: Users, senderId: UserId, receiverId: UserId)
    requires senderId in users && receiverId in users
    ensures var after := SendTo(users, senderId, receiverId).users;
            && (FriendsSymmetric(users) ==> FriendsSymmetric(after))
            && (RequestsMirrored(users) ==> RequestsMirrored(after))
            && (EmailsUnique(users) ==> EmailsUnique(after))
  {
  }

  /** Accepting a request keeps friendship mutual, keeps pending requests recorded
      at both ends and keeps emails unique. */
  lemma AcceptPreservesInvariants(users: Users, receiverId: UserId, senderId: UserId)
    requires receiverId in users && senderId in users
    ensures var after := AcceptFrom(users, receiverId, senderId).users;
            && (FriendsSymmetric(users) ==> FriendsSymmetric(after))
            && (RequestsMirrored(users) ==> RequestsMirrored(after))
            && (EmailsUnique(users) ==> EmailsUnique(after))
  {
  }

  /** Rejecting a request keeps friendship mutual, keeps pending requests recorded
      at both ends and keeps emails unique. */
  lemma RejectPreservesInvariants(users: Users, receiverId: UserId, senderId: UserId)
    requires receiverId in users && senderId in users
    ensures var after := RejectFrom(users, receiverId, senderId);
            && (FriendsSymmetric(users) ==> FriendsSymmetric(after))
            && (RequestsMirrored(users) ==> RequestsMirrored(after))
            && (EmailsUnique(users) ==> EmailsUnique(after))
  {
  }

  /** A second identical rejection changes nothing. */
  lemma RejectIdempotent(users: Users, receiverId: UserId, senderId: UserId)
    requires receiverId in users && senderId in users
    ensures var once := RejectFrom(users, receiverId, senderId);
            RejectFrom(once, receiverId, senderId) == once
  {
  }

  /** The arrays a rejection filters keep every other id, as often as before and
      in their original relative order; these two facts determine them. */
  lemma RejectKeepsOtherIds(users: Users, receiverId: UserId, senderId: UserId)
    requires receiverId in users && senderId in users
    ensures var after := RejectFrom(users, receiverId, senderId);
            && IsSubsequence(after[receiverId].friendRequests, users[receiverId].friendRequests)
            && multiset(after[receiverId].friendRequests) == multiset(users[receiverId].friendRequests)[senderId := 0]
            && IsSubsequence(after[senderId].sentRequests, users[senderId].sentRequests)
            && multiset(after[senderId].sentRequests) == multiset(users[senderId].sentRequests)[receiverId := 0]
  {
    WithoutIsSubsequence(users[receiverId].friendRequests, senderId);
    WithoutCounts(users[receiverId].friendRequests, senderId);
    WithoutIsSubsequence(users[senderId].sentRequests, receiverId);
    WithoutCounts(users[senderId].sentRequests, receiverId);
  }

  /** The same for the two arrays an accepted request filters. */
  lemma AcceptKeepsOtherIds(users: Users, receiverId: UserId, senderId: UserId)
    requires receiverId in users && senderId in users
    requires AcceptFrom(users, receiverId, senderId).outcome == RequestAccepted
    ensures var after := AcceptFrom(users, receiverId, senderId).users;
            && IsSubsequence(after[receiverId].friendRequests, users[receiverId].friendRequests)
            && multiset(after[receiverId].friendRequests) == multiset(users[receiverId].friendRequests)[senderId := 0]
            && IsSubsequence(after[senderId].sentRequests, users[senderId].sentRequests)
            && multiset(after[senderId].sentRequests) == multiset(users[senderId].sentRequests)[receiverId := 0]
  {
    WithoutIsSubsequence(users[receiverId].friendRequests, senderId);
    WithoutCounts(users[receiverId].friendRequests, senderId);
    WithoutIsSubsequence(users[senderId].sentRequests, receiverId);
    WithoutCounts(users[senderId].sentRequests, receiverId);
  }

  /** Nothing refuses a request to oneself, and accepting it makes the user their own friend. */
  lemma SelfRequestMakesSelfFriend(users: Users, id: UserId)
    requires id in users
    requires id !in users[id].friendRequests && id !in users[id].friends
    ensures var sent := SendTo(users, id, id);
            && sent.outcome == RequestSent
            && AcceptFrom(sent.users, id, id).outcome == RequestAccepted
            && id in AcceptFrom(sent.users, id, id).users[id].friends
  {
  }

  /** Requests crossing in both directions are both recorded; accepting one leaves the
      other pending, so a user can be a friend and a pending requester at once, and
      accepting the other as well lists the same friend twice. */
  lemma CrossedRequestStaysPending(users: Users, a: UserId, b: UserId)
    requires a in users && b in users && a != b
    requires a !in users[b].friendRequests && a !in users[b].friends
    requires b !in users[a].friendRequests && b !in users[a].friends
    ensures var first := SendTo(users, a, b);
            var second := SendTo(first.users, b, a);
            var accepted := AcceptFrom(second.users, b, a);
            && first.outcome == RequestSent && second.outcome == RequestSent
            && accepted.outcome == RequestAccepted
            && b in accepted.users[a].friends
            && b in accepted.users[a].friendRequests
            && AcceptFrom(accepted.users, a, b).outcome == RequestAccepted
            && multiset(AcceptFrom(accepted.users, a, b).users[a].friends)[b] == 2
  {
  }

  /** The user collection the friend controller reads and saves. */
  class UserStore {
    var users: Users

    ghost predicate Valid()
      reads this
    {
      EmailsUnique(users)
    }

    constructor (initial: Users)
      requires EmailsUnique(initial)
      ensures Valid() && users == initial
    {
      users := initial;
    }

    /** `User.findOne({ email })`. */
    method FindByEmail(email: string) returns (found: Option<UserId>)
      ensures found.None? <==> forall u :: u in users ==> users[u].email != email
      ensures found.Some? ==> found.value in users && users[found.value].email == email
    {
      if u :| u in users && users[u].email == email {
        found := Some(u);
      } else {
        found := None;
      }
    }

    /** `sendRequest`: the signed-in user `senderId` asks the user with `email`. */
    method SendRequest(senderId: UserId, email: string) returns (outcome: SendOutcome)
      requires Valid() && senderId in users
      modifies this
      ensures Valid()
      ensures outcome == UserNotFound <==> forall u :: u in old(users) ==> old(users)[u].email != email
      ensures outcome == UserNotFound ==> users == old(users)
      ensures forall rid :: rid in old(users) && old(users)[rid].email == email ==>
                Step(outcome, users) == SendTo(old(users), senderId, rid)
      ensures FriendsSymmetric(old(users)) ==> FriendsSymmetric(users)
      ensures RequestsMirrored(old(users)) ==> RequestsMirrored(users)
    {
      ghost var before := users;
      var found := FindByEmail(email);
      if found.None? {
        return UserNotFound;
      }
      var receiverId := found.value;
      var receiver := users[receiverId];
      if senderId in receiver.friendRequests || senderId in receiver.friends {
        return AlreadyRequestedOrFriends;
      }
      receiver := receiver.(friendRequests := receiver.friendRequests + [senderId]);
      users := users[receiverId := receiver];
      var sender := users[senderId];
      sender := sender.(sentRequests := sender.sentRequests + [receiverId]);
      users := users[senderId := sender];
      outcome := RequestSent;
      SendPreservesInvariants(before, senderId, receiverId);
    }

    /** `acceptRequest`: the signed-in user `receiverId` accepts the request from `senderId`. */
    method AcceptRequest(receiverId: UserId, senderId: UserId) returns (outcome: AcceptOutcome)
      requires Valid() && receiverId in users && senderId in users
      modifies this
      ensures Valid()
      ensures Step(outcome, users) == AcceptFrom(old(users), receiverId, senderId)
      ensures FriendsSymmetric(old(users)) ==> FriendsSymmetric(users)
      ensures RequestsMirrored(old(users)) ==> RequestsMirrored(users)
    {
      ghost var before := users;
      AcceptPreservesInvariants(before, receiverId, senderId);
      var receiver := users[receiverId];
      if senderId !in receiver.friendRequests {
        return NoSuchRequest;
      }
      receiver := receiver.(friends := receiver.friends + [senderId]);
      receiver := receiver.(friendRequests := Without(receiver.friendRequests, senderId));
      users := users[receiverId := receiver];
      var sender := users[senderId];
      sender := sender.(friends := sender.friends + [receiverId]);
      sender := sender.(sentRequests := Without(sender.sentRequests, receiverId));
      users := users[senderId := sender];
      outcome := RequestAccepted;
    }

    /** `rejectRequest`: the signed-in user `receiverId` turns down the request from `senderId`.
        It always answers the same success response. */
    method RejectRequest(receiverId: UserId, senderId: UserId) returns (response: Response)
      requires Valid() && receiverId in users && senderId in users
      modifies this
      ensures Valid()
      ensures response.status == 200 && response.message == "Friend request rejected"
      ensures users == RejectFrom(old(users), receiverId, senderId)
      ensures FriendsSymmetric(old(users)) ==> FriendsSymmetric(users)
      ensures RequestsMirrored(old(users)) ==> RequestsMirrored(users)
    {
      RejectPreservesInvariants(users, receiverId, senderId);
      var receiver := users[receiverId];
      receiver := receiver.(friendRequests := Without(receiver.friendRequests, senderId));
      users := users[receiverId := receiver];
      var sender := users[senderId];
      sender := sender.(sentRequests := Without(sender.sentRequests, receiverId));
      users := users[senderId := sender];
      response := Response(200, "Friend request rejected");
    }
  }
}
