/**
 * The messages page: the conversation list, the active conversation's
 * message thread fed by fetches and realtime pushes, and sending.
 */
module Messages {
  import opened Shared

  datatype Participant = Participant(id: string, fullName: string, avatarUrl: Option<string>)

  datatype Conversation = Conversation(
    id: string,
    listingId: string,
    participant1Id: string,
    participant2Id: string,
    listingTitle: string,
    participant1: Participant,
    participant2: Participant)

  datatype Message = Message(id: string, senderId: string, content: string, createdAt: string, isRead: bool)

  /** A stored message row together with the conversation it belongs to. */
  datatype MessageRow = MessageRow(conversationId: string, message: Message)

  /**
   * The update opening a conversation sends: flag as read the rows of
   * `conversationId` sent by anyone but `readerId` (the rows `MarkAsRead` selects).
   */
  datatype MarkReadRequest = MarkReadRequest(conversationId: string, readerId: string)

  /** The row `sendMessage` inserts. */
  datatype MessageInsert = MessageInsert(conversationId: string, senderId: string, content: string)

  // ---------------------------------------------------------------------
  // String.prototype.trim

  /** ECMAScript white space and line terminators, the characters `trim` strips. */
  predicate IsJsSpace(c: char) {
    || c == '\t' || c == '\n' || c == '\U{000B}' || c == '\U{000C}' || c == '\r' || c == ' '
    || c == '\U{00A0}' || c == '\U{1680}' || ('\U{2000}' <= c <= '\U{200A}')
    || c == '\U{2028}' || c == '\U{2029}' || c == '\U{202F}' || c == '\U{205F}'
    || c == '\U{3000}' || c == '\U{FEFF}'
  }

  predicate AllSpace(s: string) {
    forall i :: 0 <= i < |s| ==> IsJsSpace(s[i])
  }

  /** Drops the leading white space: what is kept is a suffix of `s`. */
  function TrimStart(s: string): (r: string)
    ensures |r| <= |s| && r == s[|s| - |r|..]
    ensures AllSpace(s[..|s| - |r|])
    ensures r == [] || !IsJsSpace(r[0])
  {
    if s != [] && IsJsSpace(s[0]) then TrimStart(s[1..]) else s
  }

  /** Drops the trailing white space: what is kept is a prefix of `s`. */
  function TrimEnd(s: string): (r: string)
    ensures |r| <= |s| && r == s[..|r|]
    ensures AllSpace(s[|r|..])
    ensures r == [] || !IsJsSpace(r[|r| - 1])
  {
    if s != [] && IsJsSpace(s[|s| - 1]) then TrimEnd(s[..|s| - 1]) else s
  }

  function Trim(s: string): (r: string)
    ensures r == [] || (!IsJsSpace(r[0]) && !IsJsSpace(r[|r| - 1]))
  {
    var t := TrimStart(s);
    var r := TrimEnd(t);
    assert r != [] ==> r[0] == t[0];
    r
  }

  /**
   * `trim` keeps a contiguous middle part of the text, and everything it
   * drops is white space.
   */
  lemma TrimIsSlice(s: string)
    ensures exists i, j :: 0 <= i <= j <= |s| && Trim(s) == s[i..j] && AllSpace(s[..i]) && AllSpace(s[j..])
  {
    var t := TrimStart(s);
    var i := |s| - |t|;
    var r := TrimEnd(t);
    var j := i + |r|;
    assert AllSpace(s[..i]);
    forall k | 0 <= k < |r|
      ensures r[k] == s[i + k]
    {
      assert r[k] == t[k] && t[k] == s[i + k];
    }
    assert r == s[i..j];
    forall k | j <= k < |s|
      ensures IsJsSpace(s[k])
    {
      assert t[k - i] == s[k];
      assert t[|r|..][k - j] == t[k - i];
    }
    assert AllSpace(s[j..]);
  }

  /** The send guard: the trimmed text is empty exactly when the text is all white space. */
  lemma TrimEmptyIffBlank(s: string)
    ensures Trim(s) == [] <==> AllSpace(s)
  {
  }

  // ---------------------------------------------------------------------
  // Conversations

  /**
   * The participant shown as the other party: participant 2 when the viewer
   * is participant 1, otherwise participant 1 (also when there is no viewer,
   * since no id equals a missing one).
   */
  function GetOtherUser(convo: Conversation, userId: Option<string>): (r: Participant)
    ensures userId == Some(convo.participant1Id) ==> r == convo.participant2
    ensures userId != Some(convo.participant1Id) ==> r == convo.participant1
  {
    if userId.Some? && convo.participant1Id == userId.value then convo.participant2 else convo.participant1
  }

  /** The embedded participant profiles are the rows the id columns point at. */
  predicate WellFormed(c: Conversation) {
    c.participant1.id == c.participant1Id && c.participant2.id == c.participant2Id && c.participant1Id != c.participant2Id
  }

  /** For a participant of a two-party conversation the other user is the counterpart, never themself. */
  lemma OtherUserIsCounterpart(c: Conversation, userId: string)
    requires WellFormed(c)
    requires userId == c.participant1Id || userId == c.participant2Id
    ensures GetOtherUser(c, Some(userId)).id != userId
    ensures GetOtherUser(c, Some(userId)).id in {c.participant1Id, c.participant2Id}
  {
  }

  /** The `?to=` match: the conversation is between `userId` and `toUserId`, in either order. */
  predicate Connects(c: Conversation, userId: string, toUserId: string)
    ensures Connects(c, userId, toUserId) ==> userId in {c.participant1Id, c.participant2Id}
    ensures Connects(c, userId, toUserId) ==> toUserId in {c.participant1Id, c.participant2Id}
    ensures Connects(c, userId, toUserId) && userId != toUserId ==> c.participant1Id != c.participant2Id
  {
    (c.participant1Id == userId && c.participant2Id == toUserId)
    || (c.participant2Id == userId && c.participant1Id == toUserId)
  }

  /** The match is exactly "the participant pair, as a set, is {user, to}". */
  lemma ConnectsIsPairMatch(c: Conversation, userId: string, toUserId: string)
    ensures Connects(c, userId, toUserId) <==> {c.participant1Id, c.participant2Id} == {userId, toUserId}
  {
  }

  /** The index of the first conversation in the list that connects the two users. */
  function FindConversation(cs: seq<Conversation>, userId: string, toUserId: string): (r: Option<nat>)
    ensures r.Some? ==> r.value < |cs| && Connects(cs[r.value], userId, toUserId)
    ensures r.Some? ==> forall j :: 0 <= j < r.value ==> !Connects(cs[j], userId, toUserId)
    ensures r.None? ==> forall j :: 0 <= j < |cs| ==> !Connects(cs[j], userId, toUserId)
  {
    if cs == [] then None
    else if Connects(cs[0], userId, toUserId) then Some(0)
    else match FindConversation(cs[1..], userId, toUserId)
      case Some(k) => Some(k + 1)
      case None => None
  }

  // ---------------------------------------------------------------------
  // Marking a conversation read

  /** The rows `markAsRead` updates: in the conversation, sent by someone else, still unread. */
  predicate MarkReadSelects(row: MessageRow, convoId: string, userId: string) {
    row.conversationId == convoId && row.message.senderId != userId && !row.message.isRead
  }

  /** The effect of `markAsRead` on the stored rows: selected rows are flagged read. */
  function MarkAsRead(rows: seq<MessageRow>, convoId: string, userId: string): (r: seq<MessageRow>)
    ensures |r| == |rows|
    ensures forall i :: 0 <= i < |rows| ==>
      r[i] == if MarkReadSelects(rows[i], convoId, userId) then rows[i].(message := rows[i].message.(isRead := true)) else rows[i]
  {
    if rows == [] then []
    else
      var row := rows[0];
      var row' := if MarkReadSelects(row, convoId, userId) then row.(message := row.message.(isRead := true)) else row;
      [row'] + MarkAsRead(rows[1..], convoId, userId)
  }

  /**
   * Afterwards nothing inbound in the conversation is unread; the user's own
   * messages and other conversations' messages are untouched; and only the
   * read flag ever changes.
   */
  lemma MarkAsReadEffect(rows: seq<MessageRow>, convoId: string, userId: string)
    ensures var r := MarkAsRead(rows, convoId, userId);
      && (forall i :: 0 <= i < |rows| && rows[i].conversationId == convoId && rows[i].message.senderId != userId ==> r[i].message.isRead)
      && (forall i :: 0 <= i < |rows| && (rows[i].message.senderId == userId || rows[i].conversationId != convoId) ==> r[i] == rows[i])
      && (forall i :: 0 <= i < |rows| ==> r[i].message == rows[i].message.(isRead := r[i].message.isRead))
      && MarkAsRead(r, convoId, userId) == r
  {
  }

  // ---------------------------------------------------------------------
  // The page

  class MessagesPage {
    var userId: Option<string>
    var conversations: seq<Conversation>
    var activeConvo: Option<Conversation>
    var messages: seq<Message>
    var newMessage: string
    var loading: bool

    /** A conversation is only ever opened once the user is known. */
    ghost predicate Valid()
      reads this
    {
      activeConvo.Some? ==> userId.Some?
    }

    constructor ()
      ensures Valid()
      ensures userId == None && conversations == [] && activeConvo == None
      ensures messages == [] && newMessage == "" && loading
    {
      userId := None;
      conversations := [];
      activeConvo := None;
      messages := [];
      newMessage := "";
      loading := true;
    }

    method SetUser(id: string)
      modifies this
      ensures Valid()
      ensures userId == Some(id)
      ensures conversations == old(conversations) && activeConvo == old(activeConvo)
      ensures messages == old(messages) && newMessage == old(newMessage) && loading == old(loading)
    {
      userId := Some(id);
    }

    /**
     * Stores the fetched conversation list and, given a non-empty `to`
     * parameter, opens the first conversation with that user if there is one.
     */
    method FetchConversations(data: Option<seq<Conversation>>, toParam: Option<string>)
      returns (markRead: Option<MarkReadRequest>)
      requires Valid() && userId.Some?
      modifies this
      ensures Valid()
      ensures conversations == data.GetOr([]) && !loading
      ensures userId == old(userId) && messages == old(messages) && newMessage == old(newMessage)
      ensures
        var found := if toParam.Some? && toParam.value != "" && data.Some?
                     then FindConversation(data.value, userId.value, toParam.value) else None;
        activeConvo == if found.Some? then Some(data.value[found.value]) else old(activeConvo)
      ensures markRead.Some? <==> activeConvo.Some? && activeConvo != old(activeConvo)
      ensures markRead.Some? ==> markRead.value == MarkReadRequest(activeConvo.value.id, userId.value)
    {
      conversations := data.GetOr([]);
      loading := false;
      markRead := None;
      if toParam.Some? && toParam.value != "" && data.Some? {
        var found := FindConversation(data.value, userId.value, toParam.value);
        if found.Some? {
          markRead := SelectConversation(Some(data.value[found.value]));
        }
      }
    }

    /**
     * Opening a conversation from the list, or closing it with the back
     * button. A newly opened conversation is marked read for the viewer.
     */
    method SelectConversation(c: Option<Conversation>) returns (markRead: Option<MarkReadRequest>)
      requires Valid() && userId.Some?
      modifies this
      ensures Valid()
      ensures activeConvo == c
      ensures markRead.Some? <==> c.Some? && c != old(activeConvo)
      ensures markRead.Some? ==> markRead.value == MarkReadRequest(c.value.id, userId.value)
      ensures userId == old(userId) && conversations == old(conversations)
      ensures messages == old(messages) && newMessage == old(newMessage) && loading == old(loading)
    {
      markRead := if c.Some? && c != activeConvo then Some(MarkReadRequest(c.value.id, userId.value)) else None;
      activeConvo := c;
    }

    /** The ascending snapshot of the conversation replaces the thread; no data means an empty thread. */
    method FetchMessages(data: Option<seq<Message>>)
      modifies this
      ensures messages == data.GetOr([])
      ensures userId == old(userId) && conversations == old(conversations) && activeConvo == old(activeConvo)
      ensures newMessage == old(newMessage) && loading == old(loading)
    {
      messages := data.GetOr([]);
    }

    /** A pushed insert goes to the tail; earlier messages stay as and where they were. */
    method OnMessageInsert(m: Message)
      modifies this
      ensures messages == old(messages) + [m]
      ensures |messages| == |old(messages)| + 1
      ensures userId == old(userId) && conversations == old(conversations) && activeConvo == old(activeConvo)
      ensures newMessage == old(newMessage) && loading == old(loading)
    {
      messages := messages + [m];
    }

    /** Typing into the message box. */
    method SetDraft(text: string)
      modifies this
      ensures newMessage == text
      ensures userId == old(userId) && conversations == old(conversations) && activeConvo == old(activeConvo)
      ensures messages == old(messages) && loading == old(loading)
    {
      newMessage := text;
    }

    /**
     * Sends the trimmed draft to the active conversation. A blank draft or
     * no open conversation sends nothing; the draft is cleared, and the
     * conversation's timestamp touched, only when the insert succeeds.
     */
    method SendMessage(insertSucceeds: bool) returns (insert: Option<MessageInsert>, touched: Option<string>)
      requires Valid()
      modifies this
      ensures Valid()
      ensures Trim(old(newMessage)) == [] || activeConvo.None? ==>
        insert == None && touched == None && newMessage == old(newMessage)
      ensures Trim(old(newMessage)) != [] && activeConvo.Some? ==>
        && insert == Some(MessageInsert(activeConvo.value.id, userId.value, Trim(old(newMessage))))
        && (insertSucceeds ==> newMessage == "" && touched == Some(activeConvo.value.id))
        && (!insertSucceeds ==> newMessage == old(newMessage) && touched == None)
      ensures userId == old(userId) && conversations == old(conversations) && activeConvo == old(activeConvo)
      ensures messages == old(messages) && loading == old(loading)
    {
      var content := Trim(newMessage);
      if content == [] || activeConvo.None? {
        return None, None;
      }
      insert := Some(MessageInsert(activeConvo.value.id, userId.value, content));
      touched := None;
      if insertSucceeds {
        newMessage := "";
        touched := Some(activeConvo.value.id);
      }
    }
  }
}
