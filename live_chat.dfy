/**
 * The live chat page: a list of chat sessions, the selected session and a
 * compose box whose submit ignores blank messages.
 */
module LiveChat {
  import opened Nullable
  import opened JsString

  datatype ChatSession = ChatSession(id: string, userName: string, lastMessage: string, time: string, unread: int, status: string)

  const MockSessions: seq<ChatSession> := [
    ChatSession("chat-1", "Rahul Kumar", "Is my passport ready?", "10:30 AM", 2, "online"),
    ChatSession("chat-2", "Priya Sharma", "Thank you for the help.", "10:15 AM", 0, "offline"),
    ChatSession("chat-3", "Amit Singh", "I cannot upload my document.", "09:45 AM", 0, "online")
  ]

  const InitialChatId := "chat-1"

  /** The index of the first session whose id is `id`, as `findIndex`. */
  function FindIndex(sessions: seq<ChatSession>, id: string): (r: Option<nat>)
    ensures r.Some? ==> r.value < |sessions| && sessions[r.value].id == id
    ensures r.Some? ==> forall j :: 0 <= j < r.value ==> sessions[j].id != id
    ensures r.None? <==> forall j :: 0 <= j < |sessions| ==> sessions[j].id != id
  {
    if sessions == [] then None
    else if sessions[0].id == id then Some(0)
    else match FindIndex(sessions[1..], id)
      case None => None
      case Some(k) => Some(k + 1)
  }

  /** The first session with the given id, or None (undefined) when no
      session has it. */
  function Find(sessions: seq<ChatSession>, id: string): (r: Option<ChatSession>)
    ensures r.Some? ==> r.value.id == id && r.value in sessions
    ensures r.None? <==> forall j :: 0 <= j < |sessions| ==> sessions[j].id != id
  {
    match FindIndex(sessions, id)
    case None => None
    case Some(k) => Some(sessions[k])
  }

  /** With ids unique, the session found is the one with that id. */
  lemma FindUnique(sessions: seq<ChatSession>, k: nat)
    requires k < |sessions|
    requires forall i, j :: 0 <= i < j < |sessions| ==> sessions[i].id != sessions[j].id
    ensures Find(sessions, sessions[k].id) == Some(sessions[k])
  {
  }

  /** The mock ids are distinct, so at most one row can be the active one. */
  lemma MockIdsUnique()
    ensures forall i, j :: 0 <= i < j < |MockSessions| ==> MockSessions[i].id != MockSessions[j].id
  {
  }

  /** The session selected at start exists: it is the first mock session. */
  lemma InitialSessionDefined()
    ensures Find(MockSessions, InitialChatId) == Some(MockSessions[0])
  {
  }

  /** One row of the session list. */
  datatype SessionRow = SessionRow(userName: string, time: string, lastMessage: string,
                                   highlighted: bool, onlineDot: bool, unreadBadge: Option<int>)

  function RowOf(s: ChatSession, activeChatId: string): (r: SessionRow)
    ensures r.highlighted <==> s.id == activeChatId
    ensures r.onlineDot <==> s.status == "online"
    ensures r.unreadBadge.Some? <==> s.unread > 0
    ensures r.unreadBadge.Some? ==> r.unreadBadge.value == s.unread
  {
    SessionRow(s.userName, s.time, s.lastMessage, s.id == activeChatId, s.status == "online",
               if s.unread > 0 then Some(s.unread) else None)
  }

  class ChatPage {
    var activeChatId: string
    var messageText: string

    constructor ()
      ensures activeChatId == InitialChatId && messageText == ""
      ensures ActiveSession() == Some(MockSessions[0])
      ensures HeaderInitial() == Some("R")
    {
      activeChatId := InitialChatId;
      messageText := "";
      InitialSessionDefined();
    }

    /** The session whose id is the selected one, if any. */
    function ActiveSession(): (r: Option<ChatSession>)
      reads this
      ensures r.Some? ==> r.value.id == activeChatId && r.value in MockSessions
      ensures r.None? <==> forall j :: 0 <= j < |MockSessions| ==> MockSessions[j].id != activeChatId
    {
      Find(MockSessions, activeChatId)
    }

    /** The letter in the chat header: the first character of the active
        session's user name, or None (undefined) when no session is active. */
    function HeaderInitial(): (r: Option<string>)
      reads this
      ensures r.Some? <==> ActiveSession().Some?
      ensures ActiveSession().Some? ==> r == Some(CharAt(ActiveSession().value.userName, 0))
      ensures r.Some? ==> |r.value| <= 1
    {
      match ActiveSession()
      case None => None
      case Some(s) => Some(CharAt(s.userName, 0))
    }

    /** Clicking a session row. */
    method SelectSession(session: ChatSession)
      modifies this
      ensures activeChatId == session.id && messageText == old(messageText)
    {
      activeChatId := session.id;
    }

    /** Typing in the compose box. */
    method TypeMessage(text: string)
      modifies this
      ensures messageText == text && activeChatId == old(activeChatId)
    {
      messageText := text;
    }

    /** Submitting the compose box: a blank or whitespace-only message does
        nothing; any other message is sent and the box is cleared. */
    method HandleSendMessage() returns (sent: bool)
      modifies this
      ensures sent <==> !AllWhitespace(old(messageText))
      ensures messageText == (if sent then "" else old(messageText))
      ensures activeChatId == old(activeChatId)
    {
      if IsBlank(messageText) {
        return false;
      }
      sent := true;
      messageText := "";
    }
  }

  /** Selecting any listed session makes it the active one, and exactly its
      row is highlighted. */
  method SelectListedSession(page: ChatPage, k: nat)
    requires k < |MockSessions|
    modifies page
    ensures page.ActiveSession() == Some(MockSessions[k])
    ensures forall i :: 0 <= i < |MockSessions| ==> (RowOf(MockSessions[i], page.activeChatId).highlighted <==> i == k)
  {
    page.SelectSession(MockSessions[k]);
    MockIdsUnique();
    FindUnique(MockSessions, k);
  }
}
