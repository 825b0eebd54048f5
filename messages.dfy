/** The messages page (src/app/messages/page.tsx): finding the other
    participant of a conversation, the messages of one conversation, the
    conversation search, the send guard and the unread total. The
    conversation and message fixtures are not part of this model, so their
    records hold only the fields the page reads. */
module Messages {
  import opened Wrappers
  import opened Records
  import opened Seqs
  import Text

  datatype DirectMessage = DirectMessage(id: string, conversationId: string, senderId: string, content: string)

  datatype Conversation = Conversation(id: string, participants: seq<string>, lastMessage: DirectMessage, unreadCount: int)

  /** `participants.find(id => id !== user.id)`. */
  function OtherParticipantId(c: Conversation, me: string): (r: Option<string>)
    ensures r.None? <==> forall i :: 0 <= i < |c.participants| ==> c.participants[i] == me
    ensures r.Some? ==> r.value != me && r.value in c.participants
    ensures r.Some? ==> exists i :: 0 <= i < |c.participants| && c.participants[i] == r.value &&
                                   forall k :: 0 <= k < i ==> c.participants[k] == me
  {
    Find(c.participants, (id: string) => id != me)
  }

  /** `getOtherParticipant`: that user, looked up by id; an empty id counts
      as no id. */
  function OtherParticipant(c: Conversation, me: string, users: seq<User>): (r: Option<User>)
    ensures r.Some? ==> r.value in users && r.value.id != me && r.value.id in c.participants
    ensures r.Some? ==> OtherParticipantId(c, me) == Some(r.value.id) && r.value.id != ""
    ensures r.Some? ==> exists j :: 0 <= j < |users| && users[j] == r.value &&
                                   forall k :: 0 <= k < j ==> users[k].id != r.value.id
    ensures r.None? <==> OtherParticipantId(c, me).None? || OtherParticipantId(c, me) == Some("") ||
                         forall j :: 0 <= j < |users| ==> users[j].id != OtherParticipantId(c, me).value
  {
    var other := OtherParticipantId(c, me);
    if other.Some? && other.value != "" then Find(users, (u: User) => u.id == other.value) else None
  }

  /** A conversation with only oneself in it has no other participant. */
  lemma NoOtherParticipant(c: Conversation, me: string, users: seq<User>)
    requires forall i :: 0 <= i < |c.participants| ==> c.participants[i] == me
    ensures OtherParticipant(c, me, users).None?
  {
  }

  /** With the other user listed under a non-empty id, that user is found. */
  lemma OtherParticipantFound(c: Conversation, me: string, users: seq<User>, j: nat)
    requires j < |users| && OtherParticipantId(c, me) == Some(users[j].id) && users[j].id != ""
    ensures OtherParticipant(c, me, users).Some?
  {
  }

  /** `getConversationMessages`. */
  function ConversationMessages(msgs: seq<DirectMessage>, conversationId: string): (r: seq<DirectMessage>)
    ensures forall i :: 0 <= i < |r| ==> r[i].conversationId == conversationId && r[i] in msgs
    ensures forall i :: 0 <= i < |msgs| && msgs[i].conversationId == conversationId ==> msgs[i] in r
  {
    Filter(msgs, (m: DirectMessage) => m.conversationId == conversationId)
  }

  lemma ConversationMessagesInOrder(msgs: seq<DirectMessage>, conversationId: string)
    ensures IsSubsequence(ConversationMessages(msgs, conversationId), msgs)
  {
    FilterIsSubsequence(msgs, (m: DirectMessage) => m.conversationId == conversationId);
  }

  /** The other user's name or the last message contains the term, ignoring ASCII case. */
  predicate MatchesSearch(c: Conversation, me: string, users: seq<User>, term: string)
  {
    var other := OtherParticipant(c, me, users);
    (other.Some? && Text.Contains(Text.ToLower(other.value.name), Text.ToLower(term))) ||
    Text.Contains(Text.ToLower(c.lastMessage.content), Text.ToLower(term))
  }

  /** `filteredConversations`: an empty term keeps every conversation. */
  function FilteredConversations(cs: seq<Conversation>, me: string, users: seq<User>, term: string): (r: seq<Conversation>)
    ensures term == "" ==> r == cs
    ensures term != "" ==> forall i :: 0 <= i < |r| ==> r[i] in cs && MatchesSearch(r[i], me, users, term)
    ensures term != "" ==> forall i :: 0 <= i < |cs| && MatchesSearch(cs[i], me, users, term) ==> cs[i] in r
  {
    if term == "" then cs else Filter(cs, (c: Conversation) => MatchesSearch(c, me, users, term))
  }

  lemma FilteredConversationsInOrder(cs: seq<Conversation>, me: string, users: seq<User>, term: string)
    ensures IsSubsequence(FilteredConversations(cs, me, users, term), cs)
  {
    if term == "" {
      FilterKeepsAll(cs, (c: Conversation) => true);
      FilterIsSubsequence(cs, (c: Conversation) => true);
    } else {
      FilterIsSubsequence(cs, (c: Conversation) => MatchesSearch(c, me, users, term));
    }
  }

  /** `conversations.reduce((sum, c) => sum + c.unreadCount, 0)`, folded from the left. */
  function TotalUnread(cs: seq<Conversation>): int
    decreases |cs|
  {
    if cs == [] then 0 else TotalUnread(cs[..|cs| - 1]) + cs[|cs| - 1].unreadCount
  }

  lemma {:induction false} TotalUnreadAppend(a: seq<Conversation>, b: seq<Conversation>)
    ensures TotalUnread(a + b) == TotalUnread(a) + TotalUnread(b)
    decreases |b|
  {
    if b == [] {
      assert a + b == a;
    } else {
      assert (a + b)[..|a + b| - 1] == a + b[..|b| - 1];
      TotalUnreadAppend(a, b[..|b| - 1]);
    }
  }

  /** With non-negative counts, the total is zero exactly when no conversation
      has unread messages, and it is at least each single count. */
  lemma {:induction false} TotalUnreadBounds(cs: seq<Conversation>)
    requires forall i :: 0 <= i < |cs| ==> cs[i].unreadCount >= 0
    ensures TotalUnread(cs) >= 0
    ensures TotalUnread(cs) == 0 <==> forall i :: 0 <= i < |cs| ==> cs[i].unreadCount == 0
    ensures forall i :: 0 <= i < |cs| ==> cs[i].unreadCount <= TotalUnread(cs)
    decreases |cs|
  {
    if cs != [] {
      var init := cs[..|cs| - 1];
      assert forall i :: 0 <= i < |init| ==> init[i] == cs[i];
      TotalUnreadBounds(init);
    }
  }

  /** A blank message is never sent. */
  lemma BlankNeverSent(text: string)
    requires forall i :: 0 <= i < |text| ==> Text.IsJsSpace(text[i])
    ensures Text.Trim(text) == ""
  {
  }

  class MessagesPage {
    var searchTerm: string
    /** `selectedConversation`, null before a conversation is picked. */
    var selectedConversation: Option<string>
    var newMessage: string

    constructor ()
      ensures searchTerm == "" && selectedConversation.None? && newMessage == ""
    {
      searchTerm, selectedConversation, newMessage := "", None, "";
    }

    /** Clicking a conversation in the list. */
    method SelectConversation(conversationId: string)
      modifies this
      ensures selectedConversation == Some(conversationId)
      ensures searchTerm == old(searchTerm) && newMessage == old(newMessage)
    {
      selectedConversation := Some(conversationId);
    }

    /** The guard of `handleSendMessage`: non-blank text and a selected
        conversation (an empty id counts as none). */
    predicate CanSend()
      reads this
    {
      Text.Trim(newMessage) != "" && selectedConversation.Some? && selectedConversation.value != ""
    }

    /** `handleSendMessage`: when the guard holds the input is cleared (the
        message itself is only logged); otherwise nothing happens. */
    method HandleSendMessage() returns (sent: bool)
      modifies this
      ensures sent <==> old(CanSend())
      ensures sent ==> newMessage == ""
      ensures !sent ==> newMessage == old(newMessage)
      ensures searchTerm == old(searchTerm) && selectedConversation == old(selectedConversation)
    {
      if Text.Trim(newMessage) == "" || selectedConversation.None? || selectedConversation.value == "" {
        return false;
      }
      newMessage := "";
      return true;
    }
  }
}
