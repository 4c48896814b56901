/** The assistant: a user's session is fetched or opened, and every message
    the user sends is answered by a keyword router that tries a fixed list
    of intents in order, after a follow-up check driven by the session's
    current task. Replies are identified by intent and table entry; the
    context key a reply sets is kept exactly. */
module ChatbotController {
  import opened Common
  import opened Store
  import opened JsText
  import opened ChatbotModel

  // ---------------------------------------------------------------- keywords

  const EquipmentWords: seq<string> := ["demande", "équipement", "request", "besoin", "matériel", "ordinateur",
    "caméra", "microphone", "écran", "clavier", "souris", "câble", "obtenir", "avoir", "utiliser", "prêter",
    "emprunter", "allouer"]
  const FaultWords: seq<string> := ["panne", "problème", "fault", "erreur", "bug", "dysfonctionnement",
    "ne marche pas", "cassé", "défaillant", "signalement", "rapport", "défaillance", "incident", "dysfonctionne"]
  const MaintenanceWords: seq<string> := ["maintenance", "réparation", "réparer", "intervention", "technicien",
    "corriger", "fix", "réparer", "réviser", "vérifier", "contrôler", "entretien"]
  const StatisticsWords: seq<string> := ["statistique", "rapport", "gestion", "données", "analyse", "graphique",
    "chiffre", "nombre", "total", "pourcentage", "métrique", "performance", "indicateur"]
  const UserWords: seq<string> := ["utilisateur", "user", "compte", "profil", "connexion", "mot de passe",
    "authentification", "login", "se connecter"]
  const ScheduleWords: seq<string> := ["planning", "calendrier", "horaire", "rendez-vous", "intervention",
    "planifier", "programmer", "agenda", "planification"]
  const HelpWords: seq<string> := ["aide", "help", "comment", "guide", "tutoriel", "assistance", "support",
    "que puis-je", "que peux-je", "comment faire", "guide moi"]
  const StatusWords: seq<string> := ["statut", "état", "situation", "où en est", "avancement", "progression",
    "suivi", "suivre", "vérifier"]
  const CreateWords: seq<string> := ["créer", "ajouter", "nouveau", "nouvelle", "ajout", "insérer", "enregistrer",
    "générer", "faire"]
  const ViewWords: seq<string> := ["voir", "afficher", "consulter", "lister", "montrer", "regarder", "visualiser",
    "découvrir", "trouver"]
  const UpdateWords: seq<string> := ["modifier", "changer", "mettre à jour", "éditer", "corriger", "actualiser",
    "réviser", "améliorer"]
  const DeleteWords: seq<string> := ["supprimer", "effacer", "enlever", "retirer", "détruire", "annuler", "retirer"]
  const SearchWords: seq<string> := ["chercher", "rechercher", "trouver", "localiser", "identifier", "découvrir"]
  const ExportWords: seq<string> := ["exporter", "télécharger", "sauvegarder", "imprimer", "pdf", "excel", "fichier"]
  const ImportWords: seq<string> := ["importer", "charger", "uploader", "téléverser", "ajouter en masse"]
  const GreetingWords: seq<string> := ["bonjour", "salut", "hello", "hi", "bonsoir", "bonne journée", "bonsoir",
    "coucou", "hey"]
  const ThanksWords: seq<string> := ["merci", "thanks", "thank you", "parfait", "super", "génial"]
  const GoodbyeWords: seq<string> := ["au revoir", "bye", "goodbye", "à bientôt", "à plus", "ciao"]
  const QuestionWords: seq<string> := ["?", "quoi", "comment", "pourquoi", "quand", "où", "qui", "combien"]

  /** The words that accept the guidance offered by the previous reply. */
  const AgreeWords: seq<string> := ["oui", "ok", "d'accord", "commencer"]
  /** The words that follow up on a technician's maintenance question. */
  const PlannedWorkWords: seq<string> := ["intervention", "planifiée", "tâche"]

  /** The keyword tests of the router, in the order they are tried. */
  const Routes: seq<(Intent, seq<string>)> := [
    (EquipmentIntent, EquipmentWords), (FaultIntent, FaultWords), (MaintenanceIntent, MaintenanceWords),
    (StatisticsIntent, StatisticsWords), (UserIntent, UserWords), (ScheduleIntent, ScheduleWords),
    (HelpIntent, HelpWords), (StatusIntent, StatusWords), (CreateIntent, CreateWords), (ViewIntent, ViewWords),
    (UpdateIntent, UpdateWords), (DeleteIntent, DeleteWords), (SearchIntent, SearchWords),
    (ExportIntent, ExportWords), (ImportIntent, ImportWords), (GreetingIntent, GreetingWords),
    (ThanksIntent, ThanksWords), (GoodbyeIntent, GoodbyeWords), (QuestionIntent, QuestionWords)]

  // ---------------------------------------------------------------- replies

  /** A reply: its content, and the `currentTask` its context sets, if it
      carries a context at all. */
  datatype Reply = Reply(content: Content, task: Option<string>)

  /** The roles that have their own entry in an intent's reply table; every
      other role gets the `default` entry. Intents without a table are
      answered by their single reply. */
  function RoleKeys(i: Intent): (keys: set<Role>)
    ensures Utilisateur !in keys && MediaEmployee !in keys
  {
    match i
    case MaintenanceIntent => {Technicien, TechnicalManager}
    case StatisticsIntent => {Admin, TechnicalManager}
    case UserIntent => {Admin}
    case ScheduleIntent => {TechnicalManager, Technicien}
    case HelpIntent => {Technicien, TechnicalManager, Admin}
    case CreateIntent => {Admin}
    case UpdateIntent => {Admin}
    case DeleteIntent => {Admin}
    case ExportIntent => {Admin, TechnicalManager}
    case ImportIntent => {Admin}
    case GreetingIntent => {Admin, Technicien, TechnicalManager}
    case FallbackIntent => {Admin, Technicien, TechnicalManager}
    case _ => {}
  }

  /** Whether an intent answers from a role-keyed table (`responses[role] ||
      responses.default`) rather than with a single reply. */
  predicate Keyed(i: Intent) {
    i in {EquipmentIntent, MaintenanceIntent, StatisticsIntent, UserIntent, ScheduleIntent, HelpIntent,
          CreateIntent, UpdateIntent, DeleteIntent, ExportIntent, ImportIntent, GreetingIntent, FallbackIntent}
  }

  /** The reply of one handler to a caller of the given role. Replies from a
      `default` entry of a table carry no context, except for the help,
      greeting and fallback handlers, which set their task whatever the
      entry. */
  function Answer(i: Intent, role: Role): (r: Reply)
    ensures r.content.Canned? && r.content.intent == i
    ensures Keyed(i) ==> r.content.entry == (if role in RoleKeys(i) then RoleEntry(role) else DefaultEntry)
    ensures !Keyed(i) ==> r.content.entry == OnlyEntry
  {
    var entry := if !Keyed(i) then OnlyEntry else if role in RoleKeys(i) then RoleEntry(role) else DefaultEntry;
    var own := role in RoleKeys(i);
    var task: Option<string> := match i
      case EquipmentRequestGuidance => Some("equipment_request_guidance")
      case FaultReportGuidance => Some("fault_report_guidance")
      case MaintenanceGuidance => Some("maintenance_guidance")
      case EquipmentIntent => None
      case FaultIntent => Some("fault_report")
      case MaintenanceIntent =>
        if role == Technicien then Some("maintenance")
        else if role == TechnicalManager then Some("maintenance_management") else None
      case StatisticsIntent => if own then Some("statistics") else None
      case UserIntent => if own then Some("user_management") else None
      case ScheduleIntent =>
        if role == TechnicalManager then Some("scheduling")
        else if role == Technicien then Some("technician_schedule") else None
      case HelpIntent => Some("help")
      case StatusIntent => Some("status_check")
      case CreateIntent => if own then Some("creation") else None
      case ViewIntent => Some("viewing")
      case UpdateIntent => if own then Some("updating") else None
      case DeleteIntent => if own then Some("deletion") else None
      case SearchIntent => Some("search")
      case ExportIntent => if own then Some("export") else None
      case ImportIntent => if own then Some("import") else None
      case GreetingIntent => Some("greeting")
      case ThanksIntent => Some("thanks")
      case GoodbyeIntent => Some("goodbye")
      case QuestionIntent => Some("question")
      case FallbackIntent => Some("general_assistance");
    Reply(Canned(i, entry), task)
  }

  /** Users and media employees have no entry of their own in any table. */
  lemma PlainRolesGetDefaults(i: Intent, role: Role)
    requires role == Utilisateur || role == MediaEmployee
    ensures Answer(i, role).content.entry in {DefaultEntry, OnlyEntry}
  {
  }

  /** A reply's task is one of the follow-up tasks only for the handlers
      that offer that follow-up; no reply ever sets `equipment_request`. */
  lemma AnswerTasks(i: Intent, role: Role)
    ensures Answer(i, role).task != Some("equipment_request")
    ensures Answer(i, role).task == Some("fault_report") <==> i == FaultIntent
    ensures Answer(i, role).task == Some("maintenance") <==> i == MaintenanceIntent && role == Technicien
  {
  }

  // ---------------------------------------------------------------- routing

  /** The position of the first route whose keywords occur in `lower`, or
      `|routes|` when none does. */
  function {:induction false} FirstHit(lower: string, routes: seq<(Intent, seq<string>)>): (k: nat)
    ensures k <= |routes|
    ensures k < |routes| ==> ContainsAny(lower, routes[k].1)
    ensures forall j :: 0 <= j < k ==> !ContainsAny(lower, routes[j].1)
    decreases |routes|
  {
    if routes == [] then 0
    else if ContainsAny(lower, routes[0].1) then 0
    else
      var k := 1 + FirstHit(lower, routes[1..]);
      assert forall j :: 1 <= j < k ==> routes[j] == routes[1..][j - 1];
      k
  }

  /** The keyword part of the router: the first intent whose keywords occur,
      or the fallback reply. */
  function Routed(lower: string, role: Role): Reply {
    var k := FirstHit(lower, Routes);
    if k < |Routes| then Answer(Routes[k].0, role) else Answer(FallbackIntent, role)
  }

  /** The follow-up check: a session whose task is `equipment_request` or
      `fault_report` answers an agreement with its guidance; one whose task
      is `maintenance` answers a question about planned work. Any other
      case falls through to the router. */
  function FollowUp(task: string, lower: string): (r: Option<Reply>)
    ensures r.Some? <==>
      || ((task == "equipment_request" || task == "fault_report") && ContainsAny(lower, AgreeWords))
      || (task == "maintenance" && ContainsAny(lower, PlannedWorkWords))
    ensures task == "equipment_request" && r.Some? ==> r.value == Answer(EquipmentRequestGuidance, Utilisateur)
    ensures task == "fault_report" && r.Some? ==> r.value == Answer(FaultReportGuidance, Utilisateur)
    ensures task == "maintenance" && r.Some? ==> r.value == Answer(MaintenanceGuidance, Utilisateur)
  {
    if task == "equipment_request" && ContainsAny(lower, AgreeWords) then
      Some(Reply(Canned(EquipmentRequestGuidance, OnlyEntry), Some("equipment_request_guidance")))
    else if task == "fault_report" && ContainsAny(lower, AgreeWords) then
      Some(Reply(Canned(FaultReportGuidance, OnlyEntry), Some("fault_report_guidance")))
    else if task == "maintenance" && ContainsAny(lower, PlannedWorkWords) then
      Some(Reply(Canned(MaintenanceGuidance, OnlyEntry), Some("maintenance_guidance")))
    else None
  }

  /** `generateBotResponse`: a follow-up, when the session has a task and
      the follow-up check answers, wins over every keyword test; otherwise
      the router answers. */
  function BotReply(message: string, role: Role, ctx: ChatContext): (r: Reply)
    ensures r.content.Canned?
    ensures Truthy(ctx.currentTask) && FollowUp(ctx.currentTask.value, ToLower(message)).Some? ==>
      r == FollowUp(ctx.currentTask.value, ToLower(message)).value
    ensures !(Truthy(ctx.currentTask) && FollowUp(ctx.currentTask.value, ToLower(message)).Some?) ==>
      r == Routed(ToLower(message), role)
  {
    var lower := ToLower(message);
    if Truthy(ctx.currentTask) && FollowUp(ctx.currentTask.value, lower).Some? then
      FollowUp(ctx.currentTask.value, lower).value
    else Routed(lower, role)
  }

  /** The router answers with intent `Routes[k]` exactly when `k` is the
      first route whose keywords occur, and with the fallback exactly when
      none occurs. */
  lemma RoutedIsFirstMatch(lower: string, role: Role, k: nat)
    requires k < |Routes|
    ensures Routed(lower, role).content.intent == Routes[k].0 <==>
      ContainsAny(lower, Routes[k].1) && forall j :: 0 <= j < k ==> !ContainsAny(lower, Routes[j].1)
  {
    RouteOrderNumbersRoutes();
    FirstHitIsUnique(lower, Routes, k);
    if FirstHit(lower, Routes) == |Routes| {
      assert RouteOrder(FallbackIntent) == |Routes|;
      assert RouteOrder(Routes[k].0) == k;
    }
  }

  /** Over routes whose intents are numbered by their positions, the first
      hit names route `k`'s intent exactly when `k` is the first hit. */
  lemma FirstHitIsUnique(lower: string, routes: seq<(Intent, seq<string>)>, k: nat)
    requires k < |routes|
    requires forall i :: 0 <= i < |routes| ==> RouteOrder(routes[i].0) == i
    ensures var h := FirstHit(lower, routes);
      (h < |routes| && routes[h].0 == routes[k].0) <==>
      ContainsAny(lower, routes[k].1) && forall j :: 0 <= j < k ==> !ContainsAny(lower, routes[j].1)
  {
    var h := FirstHit(lower, routes);
    if h < |routes| && routes[h].0 == routes[k].0 {
      assert RouteOrder(routes[h].0) == h;
    }
  }

  /** The position of an intent among the routes; the follow-ups and the
      fallback come after them. */
  function RouteOrder(i: Intent): nat {
    match i
    case EquipmentIntent => 0
    case FaultIntent => 1
    case MaintenanceIntent => 2
    case StatisticsIntent => 3
    case UserIntent => 4
    case ScheduleIntent => 5
    case HelpIntent => 6
    case StatusIntent => 7
    case CreateIntent => 8
    case ViewIntent => 9
    case UpdateIntent => 10
    case DeleteIntent => 11
    case SearchIntent => 12
    case ExportIntent => 13
    case ImportIntent => 14
    case GreetingIntent => 15
    case ThanksIntent => 16
    case GoodbyeIntent => 17
    case QuestionIntent => 18
    case _ => 19
  }

  /** Each intent appears once among the routes, at its own position. */
  lemma RouteOrderNumbersRoutes()
    ensures forall k :: 0 <= k < |Routes| ==> RouteOrder(Routes[k].0) == k
  {
  }

  lemma RoutedFallbackIff(lower: string, role: Role)
    ensures Routed(lower, role).content.intent == FallbackIntent <==>
      forall j :: 0 <= j < |Routes| ==> !ContainsAny(lower, Routes[j].1)
  {
    var h := FirstHit(lower, Routes);
    if h < |Routes| {
      assert Routes[h].0 != FallbackIntent;
    }
  }

  /** "rapport" is both a fault word and a statistics word; the fault test
      comes first, so a message with "rapport" and no equipment word is a
      fault report. */
  lemma RapportRoutesToFault(lower: string, role: Role)
    requires Contains(lower, "rapport") && !ContainsAny(lower, EquipmentWords)
    ensures Routed(lower, role).content == Canned(FaultIntent, OnlyEntry)
  {
    ContainsAnyIff(lower, FaultWords);
    assert FaultWords[10] == "rapport";
    assert Routes[0].1 == EquipmentWords && Routes[1].1 == FaultWords;
    assert Routes[1].0 == FaultIntent;
  }

  // ---------------------------------------------------------------- sessions

  /** The caller's active sessions. */
  function ActiveSessionsOf(t: Tables, user: Id): (s: set<Id>)
    ensures forall id :: id in s <==> id in t.sessions && t.sessions[id].user == user && t.sessions[id].isActive
  {
    set id | id in t.sessions && t.sessions[id].user == user && t.sessions[id].isActive
  }

  /** `getSession`: the caller's active session if there is one, otherwise a
      new one, stored. */
  function GetSessionOutcome(t: Tables, caller: Caller, now: nat): (o: Outcome<Session>)
    ensures o.result.Ok?
    ensures ActiveSessionsOf(t, caller.id) != {} ==>
      o.tables == t && o.result.value in t.sessions.Values && o.result.value.user == caller.id && o.result.value.isActive
    ensures ActiveSessionsOf(t, caller.id) == {} ==>
      && o.result.value == NewSession(caller.id, caller.role, now)
      && o.tables == t.(sessions := t.sessions[t.nextId := o.result.value], nextId := t.nextId + 1)
  {
    var active := ActiveSessionsOf(t, caller.id);
    if active != {} then Outcome(Ok(t.sessions[MinId(active)]), t)
    else
      var s := NewSession(caller.id, caller.role, now);
      Outcome(Ok(s), t.(sessions := t.sessions[t.nextId := s], nextId := t.nextId + 1))
  }

  method GetSession(db: Db, caller: Caller, now: nat) returns (r: Result<Session>)
    modifies db
    ensures Outcome(r, db.Snapshot()) == GetSessionOutcome(old(db.Snapshot()), caller, now)
  {
    var active := ActiveSessionsOf(db.Snapshot(), caller.id);
    if active != {} {
      return Ok(db.sessions[MinId(active)]);
    }
    var session := NewSession(caller.id, caller.role, now);
    var id := db.FreshId();
    db.sessions := db.sessions[id := session];
    r := Ok(session);
  }

  /** A second `getSession` returns the same session and stores nothing. */
  lemma GetSessionIdempotent(t: Tables, caller: Caller, now: nat, later: nat)
    ensures var o := GetSessionOutcome(t, caller, now);
      GetSessionOutcome(o.tables, caller, later) == o
  {
    var o := GetSessionOutcome(t, caller, now);
    if ActiveSessionsOf(t, caller.id) == {} {
      assert ActiveSessionsOf(o.tables, caller.id) == {t.nextId};
    }
  }

  /** The sessions `sendMessage` looks up: the caller's, with the given
      identifier; an absent identifier is dropped from the filter, which then
      finds every session of the caller. Whether the session is active is
      not checked. */
  function MatchingSessions(t: Tables, user: Id, sessionId: Option<string>): (s: set<Id>)
    ensures forall id :: id in s <==>
      id in t.sessions && t.sessions[id].user == user && (sessionId.Some? ==> t.sessions[id].sessionId == sessionId.value)
  {
    set id | id in t.sessions && t.sessions[id].user == user && (sessionId.Some? ==> t.sessions[id].sessionId == sessionId.value)
  }

  /** The session context after a reply: the reply's task, when it carries a
      context, replaces the current one; role and last action are kept. */
  function Merged(ctx: ChatContext, task: Option<string>): (c: ChatContext)
    ensures c.userRole == ctx.userRole && c.lastAction == ctx.lastAction
    ensures c.currentTask == (if task.Some? then task else ctx.currentTask)
  {
    if task.Some? then ctx.(currentTask := task) else ctx
  }

  /** The session after one exchange. */
  function Conversed(s: Session, message: string, reply: Reply, now: int): (s': Session)
    ensures s'.messages == s.messages + [Message(FromUser, Said(message), now), Message(FromAssistant, reply.content, now)]
    ensures s'.context == Merged(s.context, reply.task) && s'.lastActivity == now
    ensures s'.user == s.user && s'.sessionId == s.sessionId && s'.isActive == s.isActive
  {
    s.(messages := s.messages + [Message(FromUser, Said(message), now), Message(FromAssistant, reply.content, now)],
       context := Merged(s.context, reply.task), lastActivity := now)
  }

  /** A valid session stays valid after an exchange exactly when the user's
      message is not empty. */
  lemma ConversedValid(s: Session, message: string, reply: Reply, now: int)
    requires SchemaValid(s) && reply.content.Canned?
    ensures SchemaValid(Conversed(s, message, reply, now)) <==> message != ""
  {
    var s' := Conversed(s, message, reply, now);
    assert s'.messages[|s.messages|] == Message(FromUser, Said(message), now);
    if message != "" {
      forall i | 0 <= i < |s'.messages| ensures MessageValid(s'.messages[i]) {
        if i < |s.messages| {
          assert s'.messages[i] == s.messages[i];
          assert MessageValid(s.messages[i]);
        } else if i == |s.messages| {
          assert MessageValid(Message(FromUser, Said(message), now));
        } else {
          assert s'.messages[i] == Message(FromAssistant, reply.content, now);
          assert MessageValid(Message(FromAssistant, reply.content, now));
        }
      }
    }
  }

  /** `sendMessage`: a missing session is refused; an absent message fails
      when it is lower-cased; otherwise the user's message and the reply are
      appended, the context merged and the activity time refreshed, and the
      session is saved if it validates. */
  function SendOutcome(t: Tables, caller: Caller, sessionId: Option<string>, message: Option<string>, now: int): (o: Outcome<Reply>)
    ensures MatchingSessions(t, caller.id, sessionId) == {} ==> o == Outcome(Err(NotFound), t)
    ensures o.result.Err? ==> o.tables == t && o.result.error in {NotFound, ServerError}
    ensures o.result.Ok? ==>
      && message.Some?
      && var k := MinId(MatchingSessions(t, caller.id, sessionId));
      && o.result.value == BotReply(message.value, caller.role, t.sessions[k].context)
      && o.tables == t.(sessions := t.sessions[k := Conversed(t.sessions[k], message.value, o.result.value, now)])
    ensures MatchingSessions(t, caller.id, sessionId) != {} ==>
      var k := MinId(MatchingSessions(t, caller.id, sessionId));
      (o.result.Ok? <==>
        (message.Some? &&
         SchemaValid(Conversed(t.sessions[k], message.value, BotReply(message.value, caller.role, t.sessions[k].context), now))))
  {
    var matching := MatchingSessions(t, caller.id, sessionId);
    if matching == {} then Outcome(Err(NotFound), t)
    else if message.None? then Outcome(Err(ServerError), t)
    else
      var k := MinId(matching);
      var reply := BotReply(message.value, caller.role, t.sessions[k].context);
      var s := Conversed(t.sessions[k], message.value, reply, now);
      if !SchemaValid(s) then Outcome(Err(ServerError), t)
      else Outcome(Ok(reply), t.(sessions := t.sessions[k := s]))
  }

  method SendMessage(db: Db, caller: Caller, sessionId: Option<string>, message: Option<string>, now: int)
    returns (r: Result<Reply>)
    modifies db
    ensures Outcome(r, db.Snapshot()) == SendOutcome(old(db.Snapshot()), caller, sessionId, message, now)
  {
    var matching := MatchingSessions(db.Snapshot(), caller.id, sessionId);
    if matching == {} {
      return Err(NotFound);
    }
    var k := MinId(matching);
    var session := db.sessions[k];
    ghost var before := session;
    if message.None? {
      return Err(ServerError);
    }
    session := session.(messages := session.messages + [Message(FromUser, Said(message.value), now)]);
    var reply := BotReply(message.value, caller.role, session.context);
    session := session.(messages := session.messages + [Message(FromAssistant, reply.content, now)]);
    if reply.task.Some? {
      session := session.(context := session.context.(currentTask := reply.task));
    }
    session := session.(lastActivity := now);
    assert session.messages == before.messages + [Message(FromUser, Said(message.value), now), Message(FromAssistant, reply.content, now)];
    assert session == Conversed(before, message.value, reply, now);
    if !SchemaValid(session) {
      return Err(ServerError);
    }
    db.sessions := db.sessions[k := session];
    r := Ok(reply);
  }

  /** On a session that validates, a message is refused only when it is
      absent or empty, and it adds exactly two messages, the user's first. */
  lemma SendAppendsTwo(t: Tables, caller: Caller, sessionId: Option<string>, message: Option<string>, now: int)
    requires MatchingSessions(t, caller.id, sessionId) != {}
    requires SchemaValid(t.sessions[MinId(MatchingSessions(t, caller.id, sessionId))])
    ensures var o := SendOutcome(t, caller, sessionId, message, now);
      var k := MinId(MatchingSessions(t, caller.id, sessionId));
      && (o.result.Ok? <==> message.Some? && message.value != "")
      && (o.result.Ok? ==>
            && |o.tables.sessions[k].messages| == |t.sessions[k].messages| + 2
            && o.tables.sessions[k].messages[|t.sessions[k].messages|].role == FromUser
            && o.tables.sessions[k].messages[|t.sessions[k].messages| + 1].role == FromAssistant)
  {
    var k := MinId(MatchingSessions(t, caller.id, sessionId));
    if message.Some? {
      ConversedValid(t.sessions[k], message.value, BotReply(message.value, caller.role, t.sessions[k].context), now);
    }
  }

  // ---------------------------------------------------------------- the equipment follow-up

  /** No session has `equipment_request` as its task. */
  predicate NoEquipmentTask(t: Tables) {
    forall id :: id in t.sessions ==> t.sessions[id].context.currentTask != Some("equipment_request")
  }

  /** No reply sets the task `equipment_request`: the equipment handler's
      only entry carries no context. */
  lemma {:induction false} NoReplySetsEquipmentTask(message: string, role: Role, ctx: ChatContext)
    ensures BotReply(message, role, ctx).task != Some("equipment_request")
  {
    var lower := ToLower(message);
    if Truthy(ctx.currentTask) && FollowUp(ctx.currentTask.value, lower).Some? {
    } else {
      var k := FirstHit(lower, Routes);
      if k < |Routes| {
        AnswerTasks(Routes[k].0, role);
      } else {
        AnswerTasks(FallbackIntent, role);
      }
    }
  }

  /** Opening sessions and exchanging messages never give a session the
      task `equipment_request`, so from the empty store on the equipment
      follow-up never answers. */
  lemma {:induction false} SessionsKeepNoEquipmentTask(t: Tables, caller: Caller, sessionId: Option<string>, message: Option<string>, now: nat)
    requires NoEquipmentTask(t)
    ensures NoEquipmentTask(GetSessionOutcome(t, caller, now).tables)
    ensures NoEquipmentTask(SendOutcome(t, caller, sessionId, message, now).tables)
  {
    var o := SendOutcome(t, caller, sessionId, message, now);
    if o.result.Ok? {
      var k := MinId(MatchingSessions(t, caller.id, sessionId));
      NoReplySetsEquipmentTask(message.value, caller.role, t.sessions[k].context);
      assert o.tables.sessions[k].context.currentTask != Some("equipment_request");
    }
  }

  lemma EquipmentFollowUpNeverAnswers(t: Tables, k: Id, message: string, role: Role)
    requires NoEquipmentTask(t) && k in t.sessions
    ensures BotReply(message, role, t.sessions[k].context).content != Canned(EquipmentRequestGuidance, OnlyEntry)
  {
    var ctx := t.sessions[k].context;
    var lower := ToLower(message);
    if Truthy(ctx.currentTask) && FollowUp(ctx.currentTask.value, lower).Some? {
      assert ctx.currentTask.value != "equipment_request";
    } else {
      var h := FirstHit(lower, Routes);
      if h < |Routes| {
        RouteOrderNumbersRoutes();
        assert RouteOrder(Routes[h].0) == h < RouteOrder(EquipmentRequestGuidance);
      }
    }
  }

  /** The evidently intended reply: the equipment handler's reply sets the
      task `equipment_request`, as the fault handler's sets `fault_report`;
      every other reply is unchanged. */
  function BotReplyCorrected(message: string, role: Role, ctx: ChatContext): (r: Reply)
    ensures r.content == BotReply(message, role, ctx).content
    ensures r.content == Canned(EquipmentIntent, DefaultEntry) ==> r.task == Some("equipment_request")
    ensures r.content != Canned(EquipmentIntent, DefaultEntry) ==> r == BotReply(message, role, ctx)
  {
    var r := BotReply(message, role, ctx);
    if r.content == Canned(EquipmentIntent, DefaultEntry) then r.(task := Some("equipment_request")) else r
  }

  /** With the correction, an equipment question followed by an agreement
      gets the equipment guidance. */
  lemma CorrectedEquipmentFollowUpAnswers(first: string, second: string, role: Role, ctx: ChatContext)
    requires BotReply(first, role, ctx).content == Canned(EquipmentIntent, DefaultEntry)
    requires ContainsAny(ToLower(second), AgreeWords)
    ensures BotReplyCorrected(second, role, Merged(ctx, BotReplyCorrected(first, role, ctx).task)).content
      == Canned(EquipmentRequestGuidance, OnlyEntry)
  {
    var ctx2 := Merged(ctx, BotReplyCorrected(first, role, ctx).task);
    assert ctx2.currentTask == Some("equipment_request");
    assert FollowUp("equipment_request", ToLower(second)).Some?;
  }
}
