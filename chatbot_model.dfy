/** The assistant-session schema (`Chatbot`): one conversation of one user,
    its messages and its context. A reply's wording is abstracted to which
    handler produced it and which entry of that handler's table was used. */
module ChatbotModel {
  import opened Common
  import opened JsText

  datatype MessageRole = FromUser | FromAssistant

  /** The reply handlers of the intent router, in the order they are tried,
      after the three contextual follow-ups. */
  datatype Intent =
    | EquipmentRequestGuidance | FaultReportGuidance | MaintenanceGuidance
    | EquipmentIntent | FaultIntent | MaintenanceIntent | StatisticsIntent | UserIntent | ScheduleIntent
    | HelpIntent | StatusIntent | CreateIntent | ViewIntent | UpdateIntent | DeleteIntent | SearchIntent
    | ExportIntent | ImportIntent | GreetingIntent | ThanksIntent | GoodbyeIntent | QuestionIntent
    | FallbackIntent

  /** Which entry of a role-keyed reply table answered: the caller's role's
      own entry, the `default` entry, or the single reply of a handler
      without a table. */
  datatype Entry = RoleEntry(role: Role) | DefaultEntry | OnlyEntry

  datatype Content = Said(text: string) | Canned(intent: Intent, entry: Entry)

  datatype Message = Message(role: MessageRole, content: Content, timestamp: int)

  datatype ChatContext = ChatContext(currentTask: Option<string>, userRole: Option<Role>, lastAction: Option<string>)

  datatype Session = Session(
    user: Id,
    sessionId: string,
    messages: seq<Message>,
    context: ChatContext,
    isActive: bool,
    lastActivity: int)

  /** `content` is required: a user message must not be empty. Canned replies
      are never empty. */
  predicate MessageValid(m: Message) {
    m.content.Said? ==> m.content.text != ""
  }

  predicate SchemaValid(s: Session) {
    s.sessionId != "" && forall i :: 0 <= i < |s.messages| ==> MessageValid(s.messages[i])
  }

  /** `session_<user id>_<milliseconds>`, the identifier a new session gets. */
  function SessionIdFor(user: Id, now: nat): (id: string)
    ensures |id| > 8 && id[..8] == "session_"
  {
    "session_" + NatToString(user) + "_" + NatToString(now)
  }

  /** Two sessions opened by different users, or at different milliseconds,
      never share an identifier. */
  lemma {:induction false} SessionIdInjective(u1: Id, n1: nat, u2: Id, n2: nat)
    requires SessionIdFor(u1, n1) == SessionIdFor(u2, n2)
    ensures u1 == u2 && n1 == n2
  {
    var a1, b1 := NatToString(u1), NatToString(n1);
    var a2, b2 := NatToString(u2), NatToString(n2);
    var s := SessionIdFor(u1, n1);
    assert s[8..] == a1 + "_" + b1 == a2 + "_" + b2;
    var t := s[8..];
    assert t[|a1|] == '_' && t[|a2|] == '_';
    assert forall k :: 0 <= k < |a2| ==> t[k] == a2[k] != '_';
    assert forall k :: 0 <= k < |a1| ==> t[k] == a1[k] != '_';
    assert |a1| == |a2|;
    assert a1 == t[..|a1|] == a2;
    assert b1 == t[|a1| + 1..] == b2;
    NatToStringRoundTrip(u1);
    NatToStringRoundTrip(u2);
    NatToStringRoundTrip(n1);
    NatToStringRoundTrip(n2);
  }

  /** The session `getSession` creates: no messages, active, last activity
      now, and a context holding only the caller's role. */
  function NewSession(user: Id, role: Role, now: nat): (s: Session)
    ensures s.user == user && s.messages == [] && s.isActive && s.lastActivity == now
    ensures s.context == ChatContext(None, Some(role), None)
    ensures SchemaValid(s)
  {
    Session(user, SessionIdFor(user, now), [], ChatContext(None, Some(role), None), true, now)
  }
}
