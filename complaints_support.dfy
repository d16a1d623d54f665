/**
 * The complaint page: a fixed ticket with its message thread and citizen
 * context, and a reply box whose submit ignores blank replies.
 */
module ComplaintsSupport {
  import opened JsString

  datatype Sender = User | Admin

  datatype Message = Message(id: string, sender: Sender, text: string, timestamp: string)

  datatype TicketStatus = Open | Resolved | Escalated

  datatype ContextUser = ContextUser(userId: string, name: string, email: string, phone: string, accountAge: string)

  datatype ContextService = ContextService(serviceId: string, serviceName: string, status: string)

  datatype TicketContext = TicketContext(user: ContextUser, relatedService: ContextService)

  datatype ComplaintTicket = ComplaintTicket(id: string, title: string, status: TicketStatus,
                                             messages: seq<Message>, context: TicketContext)

  const MockTicket := ComplaintTicket(
    "CMP-1029",
    "Delay in Passport Renewal Verification",
    Open,
    [ Message("m1", User, "Hello, I applied for my passport renewal 3 weeks ago but the status is still stuck on pending. Can you please check?", "10:30 AM"),
      Message("m2", Admin, "Dear Citizen, let me pull up your service record right away. Please give me a moment.", "10:35 AM"),
      Message("m3", User, "Thank you, I have an upcoming flight next month so it is quite urgent.", "10:38 AM") ],
    TicketContext(
      ContextUser("USR-445", "Rahul Kumar", "rahul.k@example.com", "+91-9876543210", "2 years, 4 months"),
      ContextService("SRV-99", "Passport Renewal (Tatkal)", "Pending Police Verification")))

  /** Which side of the thread a bubble sits on. */
  datatype Alignment = Left | Right

  datatype Bubble = Bubble(text: string, timestamp: string, alignment: Alignment)

  /** Admin messages go on the right, citizen messages on the left. */
  function AlignmentOf(sender: Sender): Alignment {
    if sender == Admin then Right else Left
  }

  /** The conversation view: one bubble per message, in thread order. */
  function Thread(messages: seq<Message>): (r: seq<Bubble>)
    ensures |r| == |messages|
    ensures forall i :: 0 <= i < |messages| ==>
      r[i].text == messages[i].text && r[i].timestamp == messages[i].timestamp
      && (r[i].alignment == Right <==> messages[i].sender == Admin)
  {
    if messages == [] then []
    else [Bubble(messages[0].text, messages[0].timestamp, AlignmentOf(messages[0].sender))] + Thread(messages[1..])
  }

  /** The avatar letter of the citizen card. */
  function AvatarInitial(t: ComplaintTicket): (r: string)
    ensures t.context.user.name != "" ==> r == [t.context.user.name[0]]
    ensures t.context.user.name == "" ==> r == ""
  {
    CharAt(t.context.user.name, 0)
  }

  /** The mock thread reads user, admin, user; the card shows the letter R. */
  lemma MockThread()
    ensures |Thread(MockTicket.messages)| == 3
    ensures Thread(MockTicket.messages)[1].alignment == Right
    ensures Thread(MockTicket.messages)[0].alignment == Left && Thread(MockTicket.messages)[2].alignment == Left
    ensures AvatarInitial(MockTicket) == "R"
  {
  }

  class SupportPage {
    var replyText: string
    /** `useState` without its setter: the ticket never changes. */
    const ticket: ComplaintTicket

    constructor ()
      ensures replyText == "" && ticket == MockTicket
      ensures |View()| == 3 && View()[1].alignment == Right
    {
      replyText := "";
      ticket := MockTicket;
      MockThread();
    }

    /** The conversation shown above the reply box. */
    function View(): seq<Bubble>
      reads this
    {
      Thread(ticket.messages)
    }

    method TypeReply(text: string)
      modifies this
      ensures replyText == text && View() == old(View())
    {
      replyText := text;
    }

    /** Submitting the reply box: a whitespace-only reply does nothing; any
        other reply is sent and the box is cleared. The ticket, a `const`
        field, cannot change. */
    method HandleSendReply() returns (sent: bool)
      modifies this
      ensures sent <==> !AllWhitespace(old(replyText))
      ensures replyText == (if sent then "" else old(replyText))
      ensures View() == old(View())
    {
      if IsBlank(replyText) {
        return false;
      }
      sent := true;
      replyText := "";
    }
  }
}
