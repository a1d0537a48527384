/** The health assistant chat: a message log that starts with a welcome
    message and to which sending only appends, a send action guarded against
    blank input, one bot reply per request from an outside chat service, the
    restart that cuts the log back to the welcome message, and the pure
    helpers of the screen
    (the profile text sent along with each request and the actions offered
    for an assessment outcome). The recording clock is in `Clock`. */
module Health {
  import opened Options
  import opened JsString

  datatype MessageType = UserMessage | BotMessage | OptionMessage

  /** A chat bubble; its id and timestamp come from the clock and are not
      modelled. */
  datatype Message = Message(text: string, kind: MessageType)

  datatype Outcome = SelfManage | GpVisit | Emergency

  const WELCOME_TEXT: string := "Hello! I'm your SingHealth assistant. I can provide a preliminary assessment of your symptoms. Your profile information has been loaded. How can I help you today?"

  const WELCOME: Message := Message(WELCOME_TEXT, BotMessage)

  const REQUEST_ERROR_TEXT: string := "Sorry, I encountered an error while processing your request. Please try again later."

  /** What the chat service gives back for one request: the completion's
      text, or a failure of any kind (transport error, unexpected response). */
  datatype Reply = Completion(content: string) | RequestFailed

  /** The bot bubble added for a reply: the completion's text, or the
      apology when the request failed. */
  function ReplyMessage(reply: Reply): (m: Message)
    ensures m.kind == BotMessage
    ensures reply.Completion? ==> m.text == reply.content
    ensures reply.RequestFailed? ==> m.text == REQUEST_ERROR_TEXT
  {
    match reply
    case Completion(content) => Message(content, BotMessage)
    case RequestFailed => Message(REQUEST_ERROR_TEXT, BotMessage)
  }

  /** The route the "book" option navigates to. */
  const BOOKING_ROUTE: string := "/appointments"

  class ChatSession {
    var messages: seq<Message>
    var inputText: string
    var isLoading: bool
    var assessmentCompleted: bool
    var assessmentOutcome: Option<Outcome>

    /** The log always starts with the welcome message. Nothing on this
        screen ever completes an assessment or sets an outcome. */
    ghost predicate Valid()
      reads this
    {
      |messages| >= 1 && messages[0] == WELCOME &&
      !assessmentCompleted && assessmentOutcome == None
    }

    constructor ()
      ensures Valid()
      ensures messages == [WELCOME] && inputText == "" && !isLoading
    {
      messages := [WELCOME];
      inputText := "";
      isLoading := false;
      assessmentCompleted := false;
      assessmentOutcome := None;
    }

    /** Typing in the input field. */
    method SetInput(text: string)
      requires Valid()
      modifies this
      ensures Valid()
      ensures inputText == text
      ensures messages == old(messages) && isLoading == old(isLoading)
    {
      inputText := text;
    }

    /** The send button is enabled when the input holds a non-whitespace
        character and no request is in flight. */
    function CanSend(): (r: bool)
      reads this
      ensures r <==> !isLoading && exists i :: 0 <= i < |inputText| && !IsJsWhitespace(inputText[i])
    {
      Trim(inputText) != "" && !isLoading
    }

    /** The part of sending that runs before the request: a blank input
        changes nothing; otherwise the input, untrimmed, is appended as a
        user bubble, the field is cleared and the request is in flight. */
    method BeginSend() returns (sent: bool)
      requires Valid()
      modifies this
      ensures Valid()
      ensures sent <==> Trim(old(inputText)) != ""
      ensures !sent ==> messages == old(messages) && inputText == old(inputText) && isLoading == old(isLoading)
      ensures sent ==> messages == old(messages) + [Message(old(inputText), UserMessage)]
      ensures sent ==> inputText == "" && isLoading
    {
      if Trim(inputText) == "" {
        sent := false;
        return;
      }
      sent := true;
      messages := messages + [Message(inputText, UserMessage)];
      inputText := "";
      isLoading := true;
    }

    /** The end of a request: exactly one bot bubble, for the reply or for
        the failure, is appended after everything already in the log. */
    method ReceiveReply(reply: Reply)
      requires Valid()
      modifies this
      ensures Valid()
      ensures messages == old(messages) + [ReplyMessage(reply)]
      ensures inputText == old(inputText) && isLoading == old(isLoading)
    {
      messages := messages + [ReplyMessage(reply)];
    }

    /** Whatever the reply, the request is no longer in flight. */
    method FinishSend()
      requires Valid()
      modifies this
      ensures Valid()
      ensures !isLoading
      ensures messages == old(messages) && inputText == old(inputText)
    {
      isLoading := false;
    }

    /** A whole send whose request is answered with `reply`: either nothing
        changes, or the log grows by the user bubble and then the bot bubble,
        the earlier messages untouched, and the input is cleared. */
    method SendMessage(reply: Reply) returns (sent: bool)
      requires Valid()
      modifies this
      ensures Valid()
      ensures sent <==> exists i :: 0 <= i < |old(inputText)| && !IsJsWhitespace(old(inputText)[i])
      ensures !sent ==> messages == old(messages) && inputText == old(inputText) && isLoading == old(isLoading)
      ensures sent ==> messages == old(messages) + [Message(old(inputText), UserMessage), ReplyMessage(reply)]
      ensures sent ==> inputText == "" && !isLoading
      ensures sent ==> messages[..|old(messages)|] == old(messages)
    {
      sent := BeginSend();
      if sent {
        ReceiveReply(reply);
        FinishSend();
      }
    }

    /** "Start New Assessment" and the header's refresh button: the log is
        the welcome message alone and the assessment is cleared. */
    method ResetAssessment()
      modifies this
      ensures Valid()
      ensures messages == [WELCOME] && !assessmentCompleted && assessmentOutcome == None
      ensures inputText == old(inputText) && isLoading == old(isLoading)
    {
      messages := [WELCOME];
      assessmentCompleted := false;
      assessmentOutcome := None;
    }

    /** An option of the outcome card: "book" navigates to the booking
        screen (`route`), "restart" resets the assessment, anything else is
        ignored. */
    method HandleOptionSelect(option: string) returns (route: Option<string>)
      requires Valid()
      modifies this
      ensures Valid()
      ensures route == if option == "book" then Some(BOOKING_ROUTE) else None
      ensures option == "restart" ==> messages == [WELCOME]
      ensures option != "restart" ==> messages == old(messages)
      ensures inputText == old(inputText) && isLoading == old(isLoading)
    {
      route := None;
      if option == "book" {
        route := Some(BOOKING_ROUTE);
      } else if option == "restart" {
        ResetAssessment();
      }
    }
  }

  /** The buttons of the outcome card. */
  datatype Action = BookAppointment | Call995 | StartNewAssessment

  /** The buttons rendered for an outcome: no card at all without one; a
      booking button for a GP visit, a 995 call for an emergency, and
      always, last, a restart. */
  function OutcomeActions(outcome: Option<Outcome>): (r: seq<Action>)
    ensures outcome == None <==> r == []
    ensures BookAppointment in r <==> outcome == Some(GpVisit)
    ensures Call995 in r <==> outcome == Some(Emergency)
    ensures outcome != None ==> StartNewAssessment in r && r[|r| - 1] == StartNewAssessment
    ensures outcome == Some(SelfManage) ==> r == [StartNewAssessment]
    ensures |r| <= 2
  {
    match outcome
    case None => []
    case Some(SelfManage) => [StartNewAssessment]
    case Some(GpVisit) => [BookAppointment, StartNewAssessment]
    case Some(Emergency) => [Call995, StartNewAssessment]
  }

  /** The option an outcome button hands to `HandleOptionSelect`; the 995
      button opens a confirmation dialog instead. */
  function ActionOption(a: Action): (r: Option<string>)
    ensures a == BookAppointment <==> r == Some("book")
    ensures a == StartNewAssessment <==> r == Some("restart")
    ensures a == Call995 <==> r == None
  {
    match a
    case BookAppointment => Some("book")
    case StartNewAssessment => Some("restart")
    case Call995 => None
  }

  /** The patient profile sent along with every request. */
  datatype Profile = Profile(age: nat, gender: string, allergies: seq<string>, medicalHistory: seq<string>)

  /** Each entry as a "* " bullet. */
  function Bullets(items: seq<string>): (r: seq<string>)
    ensures |r| == |items|
    ensures forall i :: 0 <= i < |items| ==> r[i] == "* " + items[i]
  {
    seq(|items|, i requires 0 <= i < |items| => "* " + items[i])
  }

  /** The profile as the Markdown block that precedes the patient's words:
      six template lines joined by line breaks, the fourth and sixth being
      the allergy and history bullets, themselves one per line. */
  function FormatUserProfile(p: Profile): string {
    Join([
      "**Age:** " + NatToString(p.age) + " years old",
      "**Gender:** " + p.gender,
      "**Allergies:**",
      Join(Bullets(p.allergies), "\n"),
      "**Medical History:**",
      Join(Bullets(p.medicalHistory), "\n")], "\n")
  }

  /** The lines a list contributes: one bullet per entry, or one empty line
      for an empty list. */
  function BulletLines(items: seq<string>): seq<string> {
    if items == [] then [""] else Bullets(items)
  }

  predicate NoNewline(s: string) {
    '\n' !in s
  }

  lemma DigitsNoNewline(s: string)
    requires IsDigits(s)
    ensures NoNewline(s)
  {
    forall i | 0 <= i < |s| ensures s[i] != '\n' {
      assert IsDigit(s[i]);
    }
  }

  /** Line by line, the profile block is the age, the gender, a heading, one
      bullet per allergy in order, a heading and one bullet per history
      entry in order, provided no entry holds a line break itself. */
  lemma ProfileLines(p: Profile)
    requires NoNewline(p.gender)
    requires forall i :: 0 <= i < |p.allergies| ==> NoNewline(p.allergies[i])
    requires forall i :: 0 <= i < |p.medicalHistory| ==> NoNewline(p.medicalHistory[i])
    ensures Split(FormatUserProfile(p), '\n') ==
      ["**Age:** " + NatToString(p.age) + " years old", "**Gender:** " + p.gender, "**Allergies:**"] +
      BulletLines(p.allergies) + ["**Medical History:**"] + BulletLines(p.medicalHistory)
  {
    var age := "**Age:** " + NatToString(p.age) + " years old";
    var gender := "**Gender:** " + p.gender;
    NatToStringDigits(p.age);
    DigitsNoNewline(NatToString(p.age));
    assert NoNewline(age) && NoNewline(gender);
    BulletBlock(p.allergies);
    BulletBlock(p.medicalHistory);
    SixLines(age, gender, "**Allergies:**", Join(Bullets(p.allergies), "\n"),
      "**Medical History:**", Join(Bullets(p.medicalHistory), "\n"));
  }

  /** Six lines joined by line breaks split back into the four plain ones and
      the pieces of the fourth and sixth. */
  lemma SixLines(l0: string, l1: string, l2: string, a: string, l4: string, h: string)
    requires NoNewline(l0) && NoNewline(l1) && NoNewline(l2) && NoNewline(l4)
    ensures Split(Join([l0, l1, l2, a, l4, h], "\n"), '\n') ==
      [l0, l1, l2] + Split(a, '\n') + [l4] + Split(h, '\n')
  {
    NewlineJoin([l0, l1, l2, a, l4, h]);
    SplitJoinPieces([l0, l1, l2, a, l4, h], '\n');
    SixNested(l0, l1, l2, a, l4, h);
    SixPieces(l0, l1, l2, a, l4, h);
    SixRegrouped(l0, l1, l2, Split(a, '\n'), l4, Split(h, '\n'));
  }

  lemma NewlineJoin(xs: seq<string>)
    ensures Join(xs, "\n") == Join(xs, ['\n'])
  {
  }

  lemma SixNested<T>(x0: T, x1: T, x2: T, x3: T, x4: T, x5: T)
    ensures [x0, x1, x2, x3, x4, x5] == [x0] + ([x1] + ([x2] + ([x3] + ([x4] + [x5]))))
  {
  }

  lemma SixRegrouped<T>(x0: T, x1: T, x2: T, a: seq<T>, x4: T, h: seq<T>)
    ensures [x0] + ([x1] + ([x2] + (a + ([x4] + h)))) == [x0, x1, x2] + a + [x4] + h
  {
  }

  /** Line by line, the split of six joined lines. */
  lemma SixPieces(l0: string, l1: string, l2: string, a: string, l4: string, h: string)
    requires NoNewline(l0) && NoNewline(l1) && NoNewline(l2) && NoNewline(l4)
    ensures SplitEach([l0] + ([l1] + ([l2] + ([a] + ([l4] + [h])))), '\n') ==
      [l0] + ([l1] + ([l2] + (Split(a, '\n') + ([l4] + Split(h, '\n')))))
  {
    PlainLine(l4, [h]);
    SplitEachCons(a, [l4] + [h], '\n');
    PlainLine(l2, [a] + ([l4] + [h]));
    PlainLine(l1, [l2] + ([a] + ([l4] + [h])));
    PlainLine(l0, [l1] + ([l2] + ([a] + ([l4] + [h]))));
    assert SplitEach([h], '\n') == Split(h, '\n');
  }

  /** A line with no line break splits off as itself. */
  lemma PlainLine(l: string, rest: seq<string>)
    requires NoNewline(l) && |rest| >= 1
    ensures SplitEach([l] + rest, '\n') == [l] + SplitEach(rest, '\n')
  {
    SplitEachCons(l, rest, '\n');
    SplitWithout(l, '\n');
  }

  /** A bullet list splits back into its bullet lines. */
  lemma BulletBlock(items: seq<string>)
    requires forall i :: 0 <= i < |items| ==> NoNewline(items[i])
    ensures Split(Join(Bullets(items), "\n"), '\n') == BulletLines(items)
  {
    BulletsWithout(items);
    SplitJoin(Bullets(items), '\n');
  }

  lemma BulletsWithout(items: seq<string>)
    requires forall i :: 0 <= i < |items| ==> NoNewline(items[i])
    ensures forall i :: 0 <= i < |items| ==> '\n' !in Bullets(items)[i]
  {
    forall i | 0 <= i < |items| ensures '\n' !in Bullets(items)[i] {
      assert Bullets(items)[i] == "* " + items[i];
    }
  }
}
