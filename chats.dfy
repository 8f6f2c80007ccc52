/**
 * The chat counters shown in the header and recomputed by the settings
 * drawer: `activeChatsList.filter(...).length`, or 0 while the list is unset.
 */
module Chats {
  import opened Wrappers

  datatype ChatStatus = Redirected | OtherStatus(name: string)

  datatype Chat = Chat(id: string, status: ChatStatus, customerSupportId: string)

  /** A chat no support agent has taken. */
  predicate IsUnanswered(c: Chat)
  {
    c.customerSupportId == ""
  }

  /** A chat redirected to the viewer; with no signed-in viewer the id is `undefined` and matches nothing. */
  predicate IsForwardedTo(c: Chat, viewerId: Option<string>)
  {
    c.status == Redirected && viewerId == Some(c.customerSupportId)
  }

  function UnansweredIn(chats: seq<Chat>): (n: nat)
    ensures n <= |chats|
  {
    if chats == [] then 0
    else UnansweredIn(chats[..|chats| - 1]) + (if IsUnanswered(chats[|chats| - 1]) then 1 else 0)
  }

  function ForwardedIn(chats: seq<Chat>, viewerId: Option<string>): (n: nat)
    ensures n <= |chats|
  {
    if chats == [] then 0
    else ForwardedIn(chats[..|chats| - 1], viewerId) + (if IsForwardedTo(chats[|chats| - 1], viewerId) then 1 else 0)
  }

  /** `unansweredChats`: the count over the list, 0 while no list has been received. */
  function UnansweredChats(list: Option<seq<Chat>>): (n: nat)
    ensures list.None? ==> n == 0
    ensures list.Some? ==> n <= |list.value|
  {
    if list.None? then 0 else UnansweredIn(list.value)
  }

  /** `forwardedChats`: the count over the list, 0 while no list has been received. */
  function ForwardedChats(list: Option<seq<Chat>>, viewerId: Option<string>): (n: nat)
    ensures list.None? ==> n == 0
    ensures list.Some? ==> n <= |list.value|
  {
    if list.None? then 0 else ForwardedIn(list.value, viewerId)
  }

  /** Positions of the unanswered chats. */
  ghost function UnansweredPositions(chats: seq<Chat>): set<nat>
  {
    set i: nat | i < |chats| && IsUnanswered(chats[i])
  }

  /** Positions of the chats forwarded to the viewer. */
  ghost function ForwardedPositions(chats: seq<Chat>, viewerId: Option<string>): set<nat>
  {
    set i: nat | i < |chats| && IsForwardedTo(chats[i], viewerId)
  }

  /** The unanswered counter is the number of chats with an empty agent id. */
  lemma {:induction false} UnansweredCountsPositions(chats: seq<Chat>)
    ensures UnansweredIn(chats) == |UnansweredPositions(chats)|
  {
    if chats != [] {
      var n := |chats| - 1;
      var prefix := chats[..n];
      UnansweredCountsPositions(prefix);
      var p := UnansweredPositions(prefix);
      if IsUnanswered(chats[n]) {
        assert UnansweredPositions(chats) == p + {n};
      } else {
        assert UnansweredPositions(chats) == p;
      }
    }
  }

  /** The forwarded counter is the number of REDIRECTED chats held by the viewer. */
  lemma {:induction false} ForwardedCountsPositions(chats: seq<Chat>, viewerId: Option<string>)
    ensures ForwardedIn(chats, viewerId) == |ForwardedPositions(chats, viewerId)|
  {
    if chats != [] {
      var n := |chats| - 1;
      var prefix := chats[..n];
      ForwardedCountsPositions(prefix, viewerId);
      var p := ForwardedPositions(prefix, viewerId);
      if IsForwardedTo(chats[n], viewerId) {
        assert ForwardedPositions(chats, viewerId) == p + {n};
      } else {
        assert ForwardedPositions(chats, viewerId) == p;
      }
    }
  }

  /** A viewer with a non-empty id never holds an unanswered chat, so the two counters never overlap. */
  lemma {:induction false} CountersWithinList(chats: seq<Chat>, viewerId: Option<string>)
    requires viewerId != Some("")
    ensures UnansweredIn(chats) + ForwardedIn(chats, viewerId) <= |chats|
  {
    if chats != [] {
      CountersWithinList(chats[..|chats| - 1], viewerId);
    }
  }
}
