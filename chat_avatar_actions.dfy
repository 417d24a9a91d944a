/**
 * The actions behind a sender's name in a chat bubble: the membership test,
 * which control is shown (remove-user for the admin, a ban marker for a
 * sender who left), removing the sender from the selected group, and
 * opening a direct conversation with the sender.
 */
module AvatarActions {
  import opened Wrappers
  import opened ChatStore

  /** `Array.prototype.includes` on ids: a scan from the front. */
  function Includes(ids: seq<Id>, x: Id): (r: bool)
    ensures r <==> x in ids
  {
    if ids == [] then false else ids[0] == x || Includes(ids[1..], x)
  }

  /** The sender is a participant of the selected conversation; false when none is selected. */
  function IsMember(selected: Option<Conversation>, sender: Id): (r: bool)
    ensures r <==> selected.Some? && sender in selected.value.participants
  {
    selected.Some? && Includes(selected.value.participants, sender)
  }

  /** The participant filter of a removal: keeps, in order, every id that differs from `x`. */
  function Without(ids: seq<Id>, x: Id): (r: seq<Id>)
    ensures forall y :: y in r <==> y in ids && y != x
    ensures |r| <= |ids|
  {
    if ids == [] then [] else (if ids[0] == x then [] else [ids[0]]) + Without(ids[1..], x)
  }

  /**
   * Filtering distributes over concatenation; with the one-element cases of
   * its definition this says the kept ids stay in their original order.
   */
  lemma {:induction false} WithoutConcat(a: seq<Id>, b: seq<Id>, x: Id)
    ensures Without(a + b, x) == Without(a, x) + Without(b, x)
    decreases |a|
  {
    if a == [] {
      assert a + b == b;
    } else {
      assert (a + b)[0] == a[0];
      assert (a + b)[1..] == a[1..] + b;
      WithoutConcat(a[1..], b, x);
    }
  }

  /** Every occurrence of the removed id goes, every other id keeps its multiplicity. */
  lemma {:induction false} WithoutCounts(ids: seq<Id>, x: Id)
    ensures multiset(Without(ids, x)) == multiset(ids)[x := 0]
    decreases |ids|
  {
    if ids != [] {
      WithoutCounts(ids[1..], x);
      assert ids == [ids[0]] + ids[1..];
    }
  }

  /** Removing an id that is not a participant changes nothing. */
  lemma {:induction false} WithoutAbsent(ids: seq<Id>, x: Id)
    requires x !in ids
    ensures Without(ids, x) == ids
    decreases |ids|
  {
    if ids != [] {
      WithoutAbsent(ids[1..], x);
      assert ids == [ids[0]] + ids[1..];
    }
  }

  /** The controls rendered next to a sender's name. */
  datatype Controls = Controls(removeUser: bool, banMarker: bool)

  /**
   * The LogOut (remove-user) icon shows for a member sender when the current
   * user is the conversation's admin; the Ban marker shows for a sender who
   * is not a member. The two never show together.
   */
  function ShownControls(selected: Option<Conversation>, sender: Id, me: Id): (c: Controls)
    ensures c.removeUser <==> IsMember(selected, sender) && selected.value.admin == Some(me)
    ensures c.banMarker <==> !IsMember(selected, sender)
    ensures !(c.removeUser && c.banMarker)
  {
    var member := IsMember(selected, sender);
    Controls(member && selected.value.admin == Some(me), !member)
  }

  /** The record `handleCreateConversation` puts in the store; it has no admin. */
  function DirectConversation(id: Id, me: User, sender: User): Conversation {
    Conversation(id, false, [me.id, sender.id], None,
                 Some(sender.name), Some(sender.isOnline), Some(sender.image))
  }

  /**
   * After the sender is removed they are no longer a member, so the Ban
   * marker replaces the remove control; every other participant keeps
   * their membership.
   */
  lemma RemovedSenderIsBanned(c: Conversation, sender: Id, me: Id)
    ensures var after := Some(c.(participants := Without(c.participants, sender)));
      && !IsMember(after, sender)
      && ShownControls(after, sender, me) == Controls(false, true)
      && forall y :: y != sender ==> (IsMember(after, y) <==> IsMember(Some(c), y))
  {
  }

  /**
   * In a freshly opened direct conversation both the current user and the
   * sender are members, and neither control is shown (it has no admin).
   */
  lemma DirectConversationControls(id: Id, me: User, sender: User)
    ensures var c := Some(DirectConversation(id, me, sender));
      && IsMember(c, me.id) && IsMember(c, sender.id)
      && ShownControls(c, sender.id, me.id) == Controls(false, false)
  {
  }

  /** A call the handlers make to the backend, with its arguments. */
  datatype BackendCall =
    | RemoveUser(conversationId: Id, userId: Id)
    | CreateConversation(isGroup: bool, participants: seq<Id>)

  const RemoveUserFailed: string := "Failed to remove user"
  const CreateConversationFailed: string := "Failed to create conversation"

  /**
   * The store's selected-conversation cell as the component sees it, with
   * ghost logs of the backend calls and of the error toasts.
   */
  class AvatarActions {
    var selectedConversation: Option<Conversation>
    ghost var calls: seq<BackendCall>
    ghost var toasts: seq<string>

    constructor (selected: Option<Conversation>)
      ensures selectedConversation == selected && calls == [] && toasts == []
    {
      selectedConversation := selected;
      calls, toasts := [], [];
    }

    /**
     * `handleRemoveUser`. With no selected conversation it returns at once.
     * Otherwise it calls `removeUser`; on success the selected conversation
     * keeps every field but `participants`, from which every occurrence of
     * the sender is filtered out; on failure it shows one toast.
     */
    method HandleRemoveUser(sender: Id, outcome: Outcome<()>)
      modifies this
      ensures old(selectedConversation).None? ==>
        selectedConversation == old(selectedConversation)
        && calls == old(calls) && toasts == old(toasts)
      ensures old(selectedConversation).Some? ==>
        var c := old(selectedConversation).value;
        && calls == old(calls) + [RemoveUser(c.id, sender)]
        && (outcome.Ok? ==>
              selectedConversation == Some(c.(participants := Without(c.participants, sender)))
              && toasts == old(toasts))
        && (outcome.Err? ==>
              selectedConversation == old(selectedConversation)
              && toasts == old(toasts) + [RemoveUserFailed])
    {
      if selectedConversation.None? {
        return;
      }
      var c := selectedConversation.value;
      calls := calls + [RemoveUser(c.id, sender)];
      if outcome.Ok? {
        selectedConversation := Some(c.(participants := Without(c.participants, sender)));
      } else {
        toasts := toasts + [RemoveUserFailed];
      }
    }

    /**
     * `handleCreateConversation`: calls `createConversation` with
     * `isGroup = false` and participants `[me, sender]`; on success selects
     * the new direct conversation under the returned id, on failure shows
     * one toast and leaves the selection as it was. Without a current user,
     * reading its id throws while the arguments are built: no call is made
     * and only the toast is shown.
     */
    method HandleCreateConversation(me: Option<User>, sender: User, outcome: Outcome<Id>)
      modifies this
      ensures me.None? ==>
        calls == old(calls) && selectedConversation == old(selectedConversation)
        && toasts == old(toasts) + [CreateConversationFailed]
      ensures me.Some? ==>
        calls == old(calls) + [CreateConversation(false, [me.value.id, sender.id])]
      ensures me.Some? && outcome.Ok? ==>
        selectedConversation
          == Some(Conversation(outcome.value, false, [me.value.id, sender.id], None,
                               Some(sender.name), Some(sender.isOnline), Some(sender.image)))
        && toasts == old(toasts)
      ensures me.Some? && outcome.Err? ==>
        selectedConversation == old(selectedConversation)
        && toasts == old(toasts) + [CreateConversationFailed]
    {
      if me.None? {
        toasts := toasts + [CreateConversationFailed];
        return;
      }
      var user := me.value;
      calls := calls + [CreateConversation(false, [user.id, sender.id])];
      if outcome.Ok? {
        selectedConversation := Some(DirectConversation(outcome.value, user, sender));
      } else {
        toasts := toasts + [CreateConversationFailed];
      }
    }
  }
}
