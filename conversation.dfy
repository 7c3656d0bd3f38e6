/**
 * The per-turn engine: find the session's node, have the analyzer pick the
 * next node and extract fields, fold both into the session, run the new node's
 * handler, choose the message for the user, and persist the turn.
 */
module Conversation {
  import opened Wrappers
  import opened Types
  import opened Nodes
  import opened AIService
  import opened Stores
  import DemoService
  import ProductService

  const InvalidNodeError := "Invalid node"
  const HandlerFailureText := "I'm sorry, I encountered an issue. Could you please try again?"

  /**
   * What the outside world answers during one turn: the analyzer provider, the
   * demo handler's tool call, the catalogue search and the chat completion.
   */
  datatype Oracles = Oracles(
    analysis: Result<Analysis>,
    toolCall: Result<Option<DemoService.ToolCall>>,
    search: Result<seq<ProductService.Match>>,
    complete: (string, string) -> Result<string>)

  /** What `processUserInput` hands back; the message is `undefined` when nothing supplied one. */
  datatype TurnResult = TurnResult(messageToUser: Option<string>, updatedSession: Session)

  /**
   * `updateSessionWithAnalysis`: the extracted fields override the context, the
   * analyzer's choice becomes the current node unchecked, and the transcript
   * gains the user line and the analyzer's suggestion.
   */
  function UpdateSessionWithAnalysis(session: Session, input: string, analysis: Analysis): (s: Session)
    ensures s.sessionId == session.sessionId
    ensures s.context.Keys == session.context.Keys + analysis.userInputs.Keys
    ensures forall k :: k in analysis.userInputs ==> s.context[k] == analysis.userInputs[k]
    ensures forall k :: k in session.context && k !in analysis.userInputs ==> s.context[k] == session.context[k]
    ensures s.currentNodeId == analysis.nextNodeId
    ensures |s.history| == |session.history| + 2 && s.history[..|session.history|] == session.history
    ensures s.history[|session.history|] == "User: " + input
    ensures s.history[|session.history| + 1] == "AI: " + (if analysis.suggestedResponse.Some? then analysis.suggestedResponse.value else "")
  {
    var suggestion := if analysis.suggestedResponse.Some? then analysis.suggestedResponse.value else "";
    Session(session.sessionId,
            session.context + analysis.userInputs,
            analysis.nextNodeId,
            session.history + ["User: " + input, "AI: " + suggestion])
  }

  /**
   * The message of the turn, given the node the session moved to, the
   * analyzer's suggestion and the settled handler call (ignored when the node
   * has no handler).
   */
  function SelectMessage(landing: Option<Node>, suggestion: Option<string>, outcome: Result<string>): (m: Option<string>)
    ensures (landing.None? || landing.value.handler.None?) ==> m == suggestion
    ensures landing.Some? && landing.value.handler.Some? && outcome.Err? ==> m == Some(HandlerFailureText)
    ensures landing.Some? && landing.value.handler.Some? && outcome.Ok? && landing.value.consumeNodeResponse ==>
              m == Some(outcome.value)
    ensures landing.Some? && landing.value.handler.Some? && outcome.Ok? && !landing.value.consumeNodeResponse ==>
              m == (if Truthy(suggestion) then suggestion else Some(outcome.value))
  {
    if landing.None? || landing.value.handler.None? then suggestion
    else if outcome.Err? then Some(HandlerFailureText)
    else if landing.value.consumeNodeResponse then Some(outcome.value)
    else if Truthy(suggestion) then suggestion
    else Some(outcome.value)
  }

  /**
   * The settled handler call as the engine sees it: both handlers rewrap their
   * failures into a fixed apology.
   */
  function HandlerOutcome(kind: HandlerKind, input: string, session: Session, o: Oracles,
                          eventName: string, eventsOnline: bool, customersOnline: bool): (r: Result<string>)
    ensures kind == ProductDetails ==> r == RewrapProductError(ProductService.GetProductDetails(input, o.search, o.complete))
    ensures kind == ScheduleDemo ==>
              (r.Ok? <==> DemoService.DemoSucceeds(o.toolCall, session, eventName, eventsOnline, customersOnline))
    ensures kind == ScheduleDemo && r.Ok? ==> r.value == DemoService.Confirmation(DemoService.ToolArguments(o.toolCall).value)
    ensures r.Err? ==> r.error in {ProductApology, DemoApology}
  {
    match kind
    case ProductDetails => RewrapProductError(ProductService.GetProductDetails(input, o.search, o.complete))
    case ScheduleDemo =>
      if DemoService.DemoSucceeds(o.toolCall, session, eventName, eventsOnline, customersOnline)
      then Ok(DemoService.Confirmation(DemoService.ToolArguments(o.toolCall).value))
      else Err(DemoApology)
  }

  /**
   * `processUserInput` as a function of the session, the input and the oracles'
   * answers (`eventsOnline` and `customersOnline` decide the demo handler's writes).
   */
  function ProcessTurn(session: Session, input: string, o: Oracles,
                       eventName: string, eventsOnline: bool, customersOnline: bool): (r: Result<TurnResult>)
    ensures r.Err? <==> Lookup(session.currentNodeId).None?
    ensures r.Err? ==> r.error == InvalidNodeError
    ensures r.Ok? ==> r.value.updatedSession.sessionId == session.sessionId
                      && session.context.Keys <= r.value.updatedSession.context.Keys
                      && |r.value.updatedSession.history| == |session.history| + 2
                      && r.value.updatedSession.history[..|session.history|] == session.history
  {
    match Lookup(session.currentNodeId)
    case None => Err(InvalidNodeError)
    case Some(node) =>
      var analysis := AnalyzeInput(input, node.nextNodes, o.analysis);
      var updated := UpdateSessionWithAnalysis(session, input, analysis);
      var landing := Lookup(updated.currentNodeId);
      var outcome := if landing.Some? && landing.value.handler.Some?
                     then HandlerOutcome(landing.value.handler.value, input, updated, o, eventName, eventsOnline, customersOnline)
                     else Ok("");
      Ok(TurnResult(SelectMessage(landing, analysis.suggestedResponse, outcome), updated))
  }

  /** The demo handler runs, and may write, exactly when the analyzer moved the session to the demo node. */
  predicate RunsDemo(session: Session, input: string, o: Oracles) {
    var current := Lookup(session.currentNodeId);
    current.Some? && AnalyzeInput(input, current.value.nextNodes, o.analysis).nextNodeId == Some(ScheduleDemoId)
  }

  /** The session a turn hands to the handler (meaningful when the current node exists). */
  function HandlerSession(session: Session, input: string, o: Oracles): Session {
    var current := Lookup(session.currentNodeId);
    var candidates := if current.Some? then current.value.nextNodes else [];
    UpdateSessionWithAnalysis(session, input, AnalyzeInput(input, candidates, o.analysis))
  }

  /** The event log after a turn: one demo event more exactly when the demo handler ran and its event was accepted. */
  function EventsAfterTurn(session: Session, input: string, o: Oracles, eventName: string,
                           online: bool, log: seq<Event>): (r: seq<Event>)
    ensures r != log <==> RunsDemo(session, input, o) && DemoService.ToolArguments(o.toolCall).Ok?
                          && online && session.sessionId != "" && eventName != ""
    ensures r != log ==> r == log + [DemoService.DemoEvent(HandlerSession(session, input, o), eventName,
                                                          DemoService.ToolArguments(o.toolCall).value)]
  {
    var call := DemoService.ToolArguments(o.toolCall);
    if RunsDemo(session, input, o) && call.Ok? && online && session.sessionId != "" && eventName != ""
    then log + [DemoService.DemoEvent(HandlerSession(session, input, o), eventName, call.value)]
    else log
  }

  /** The customer records after a turn's handler: the demo handler's update-only write, if it ran. */
  function RecordsAfterTurn(session: Session, input: string, o: Oracles, online: bool,
                            records: map<string, Fields>): (r: map<string, Fields>)
    ensures r.Keys == records.Keys
    ensures !RunsDemo(session, input, o) ==> r == records
  {
    var call := DemoService.ToolArguments(o.toolCall);
    if RunsDemo(session, input, o) && call.Ok? && online
    then Stores.Updated(records, session.sessionId, call.value)
    else records
  }

  /** The messages `saveMessages` leaves behind: the user's first, and the AI's only after it. */
  function SavedMessages(online: bool, sessionId: string, input: string, response: Option<string>): (r: seq<Message>)
    ensures |r| <= 2
    ensures |r| > 0 <==> online && sessionId != "" && input != ""
    ensures |r| > 0 ==> r[0] == Message(sessionId, input, User)
    ensures |r| == 2 <==> online && sessionId != "" && input != "" && Required(response)
    ensures |r| == 2 ==> r[1] == Message(sessionId, response.value, AI)
  {
    if !(online && sessionId != "" && input != "") then []
    else [Message(sessionId, input, User)] + (if Required(response) then [Message(sessionId, response.value, AI)] else [])
  }

  /** The customer record `saveCustomerIfComplete` writes: name, email and, when known, the product interest. */
  function CustomerFields(context: Context): (f: Fields)
    requires "name" in context && "email" in context
    ensures f.Keys == {"name", "email"} + (if "productInterest" in context then {"productInterest"} else {})
    ensures forall k :: k in f ==> f[k] == context[k]
  {
    var base := map["name" := context["name"], "email" := context["email"]];
    if "productInterest" in context then base["productInterest" := context["productInterest"]] else base
  }

  /** `!name || !email` on the context: both must be present and non-empty. */
  predicate HasContact(context: Context) {
    "name" in context && context["name"] != "" && "email" in context && context["email"] != ""
  }

  /** One exchange as the session records it: the user's input and the analysis of it. */
  datatype Exchange = Exchange(input: string, analysis: Analysis)

  /** The session after folding a run of exchanges into it, oldest first. */
  function Replay(session: Session, turns: seq<Exchange>): Session
    decreases |turns|
  {
    if turns == [] then session
    else Replay(UpdateSessionWithAnalysis(session, turns[0].input, turns[0].analysis), turns[1..])
  }

  /**
   * Over any run of turns the session keeps its id, never loses a context key,
   * keeps its earlier transcript as a prefix and gains exactly two lines per
   * turn, the user's line first.
   */
  lemma {:induction false} ReplayGrows(session: Session, turns: seq<Exchange>)
    ensures var s := Replay(session, turns);
      && s.sessionId == session.sessionId
      && session.context.Keys <= s.context.Keys
      && |s.history| == |session.history| + 2 * |turns|
      && s.history[..|session.history|] == session.history
      && forall i :: 0 <= i < |turns| ==> s.history[|session.history| + 2 * i] == "User: " + turns[i].input
    decreases |turns|
  {
    if turns != [] {
      var s1 := UpdateSessionWithAnalysis(session, turns[0].input, turns[0].analysis);
      ReplayGrows(s1, turns[1..]);
      var s := Replay(session, turns);
      assert s == Replay(s1, turns[1..]);
      var n := |session.history|;
      assert s.history[..n] == s.history[..n + 2][..n];
      assert s.history[..n + 2] == s1.history;
      forall i | 0 <= i < |turns|
        ensures s.history[n + 2 * i] == "User: " + turns[i].input
      {
        if i == 0 {
          assert s.history[n] == s.history[..n + 2][n];
        } else {
          assert turns[1..][i - 1] == turns[i];
          assert n + 2 * i == |s1.history| + 2 * (i - 1);
        }
      }
    }
  }

  /**
   * A missing current node fails the turn with `Invalid node` whatever the
   * oracles would have answered: nothing is asked of the analyzer.
   */
  lemma InvalidNodeFailsFirst(session: Session, input: string, o1: Oracles, o2: Oracles,
                              eventName: string, eventsOnline: bool, customersOnline: bool)
    requires session.currentNodeId.None? || session.currentNodeId.value !in NodeIds
    ensures ProcessTurn(session, input, o1, eventName, eventsOnline, customersOnline) == Err(InvalidNodeError)
    ensures ProcessTurn(session, input, o1, eventName, eventsOnline, customersOnline)
         == ProcessTurn(session, input, o2, eventName, eventsOnline, customersOnline)
  {
    if session.currentNodeId.Some? {
      LookupRegistered(session.currentNodeId.value);
    }
  }

  /**
   * When the analyzer fails at any node but the last, the session moves to the
   * node's first candidate, which is a registered node; the turn never strands it.
   */
  lemma FallbackStaysInGraph(session: Session, input: string, o: Oracles,
                             eventName: string, eventsOnline: bool, customersOnline: bool)
    requires session.currentNodeId.Some? && session.currentNodeId.value in NodeIds
    requires session.currentNodeId.value != EndId
    requires o.analysis.Err?
    ensures var r := ProcessTurn(session, input, o, eventName, eventsOnline, customersOnline);
      && r.Ok?
      && r.value.updatedSession.currentNodeId == Some(Graph()[session.currentNodeId.value].nextNodes[0])
      && Lookup(r.value.updatedSession.currentNodeId).Some?
  {
    var id := session.currentNodeId.value;
    LookupRegistered(id);
    OnlyEndIsTerminal(id);
    GraphClosed(id, Graph()[id].nextNodes[0]);
  }

  /**
   * At `end_conversation` a failed analysis leaves no node to go to, and the
   * next turn of that session fails with `Invalid node`, whatever it brings.
   */
  lemma StuckAfterEnd(session: Session, input: string, o: Oracles, next: string, o2: Oracles,
                      eventName: string, eventsOnline: bool, customersOnline: bool)
    requires session.currentNodeId == Some(EndId)
    requires o.analysis.Err?
    ensures var r := ProcessTurn(session, input, o, eventName, eventsOnline, customersOnline);
      && r.Ok?
      && r.value.updatedSession.currentNodeId.None?
      && ProcessTurn(r.value.updatedSession, next, o2, eventName, eventsOnline, customersOnline) == Err(InvalidNodeError)
  {
  }

  /**
   * The analyzer's choice is taken even when it is not among the current
   * node's candidates: from `welcome` a provider answer naming
   * `end_conversation` moves the session there.
   */
  lemma UncheckedJump(session: Session, input: string, o: Oracles, a: Analysis,
                      eventName: string, eventsOnline: bool, customersOnline: bool)
    requires session.currentNodeId == Some(WelcomeId)
    requires o.analysis == Ok(a) && a.nextNodeId == Some(EndId)
    ensures EndId !in WelcomeNode.nextNodes
    ensures var r := ProcessTurn(session, input, o, eventName, eventsOnline, customersOnline);
      r.Ok? && r.value.updatedSession.currentNodeId == Some(EndId) && r.value.messageToUser == a.suggestedResponse
  {
  }

  /**
   * The transcript keeps the analyzer's suggestion, not the message sent: on
   * the Q&A node a successful handler answer reaches the user while the
   * history records the suggestion.
   */
  lemma HistoryKeepsSuggestion(session: Session, input: string, o: Oracles, a: Analysis,
                               eventName: string, eventsOnline: bool, customersOnline: bool)
    requires Lookup(session.currentNodeId).Some?
    requires o.analysis == Ok(a) && a.nextNodeId == Some(ProductQAId) && a.suggestedResponse.Some?
    requires ProductService.GetProductDetails(input, o.search, o.complete).Ok?
    ensures var r := ProcessTurn(session, input, o, eventName, eventsOnline, customersOnline);
      && r.Ok?
      && r.value.messageToUser == Some(ProductService.GetProductDetails(input, o.search, o.complete).value)
      && r.value.updatedSession.history[|session.history| + 1] == "AI: " + a.suggestedResponse.value
  {
  }

  /**
   * A failing handler never ends the turn: the session still moves on and the
   * user gets the fixed apology instead of the handler's error.
   */
  lemma HandlerFailureIsApology(session: Session, input: string, o: Oracles,
                                eventName: string, eventsOnline: bool, customersOnline: bool)
    requires Lookup(session.currentNodeId).Some?
    requires var s := HandlerSession(session, input, o);
      var landing := Lookup(s.currentNodeId);
      && landing.Some? && landing.value.handler.Some?
      && HandlerOutcome(landing.value.handler.value, input, s, o, eventName, eventsOnline, customersOnline).Err?
    ensures var r := ProcessTurn(session, input, o, eventName, eventsOnline, customersOnline);
      r.Ok? && r.value.messageToUser == Some(HandlerFailureText) && r.value.updatedSession == HandlerSession(session, input, o)
  {
  }

  /**
   * `handleMessage` as a function: the turn, accepted only when the AI message
   * and, for a session with contact details, the customer could be saved.
   * A successful turn always answers with a non-empty message, because the
   * message schema refuses to store an empty one.
   */
  function HandleTurn(session: Session, input: string, o: Oracles, eventName: string,
                      messagesOnline: bool, eventsOnline: bool, customersOnline: bool): (r: Result<TurnResult>)
    ensures r.Ok? ==> r == ProcessTurn(session, input, o, eventName, eventsOnline, customersOnline)
    ensures r.Ok? ==> Truthy(r.value.messageToUser)
    ensures ProcessTurn(session, input, o, eventName, eventsOnline, customersOnline).Err? ==> r.Err?
    ensures !messagesOnline || input == "" || session.sessionId == "" ==> r.Err?
    ensures var t := ProcessTurn(session, input, o, eventName, eventsOnline, customersOnline);
      r.Ok? <==> (&& t.Ok?
                  && messagesOnline && session.sessionId != "" && input != ""
                  && Truthy(t.value.messageToUser)
                  && (HasContact(t.value.updatedSession.context) ==> customersOnline))
  {
    var t := ProcessTurn(session, input, o, eventName, eventsOnline, customersOnline);
    if t.Err? then t
    else if |SavedMessages(messagesOnline, session.sessionId, input, t.value.messageToUser)| == 2
            && (HasContact(t.value.updatedSession.context) ==> customersOnline)
    then t
    else Err("persistence failed")
  }

  /** The message log after `handleMessage`: the turn's two saves, none when the turn fails. */
  function MessagesAfterHandle(session: Session, input: string, o: Oracles, eventName: string, messagesOnline: bool,
                               eventsOnline: bool, customersOnline: bool, log: seq<Message>): (r: seq<Message>)
    ensures |log| <= |r| <= |log| + 2 && r[..|log|] == log
    ensures ProcessTurn(session, input, o, eventName, eventsOnline, customersOnline).Err? ==> r == log
    ensures HandleTurn(session, input, o, eventName, messagesOnline, eventsOnline, customersOnline).Ok? ==>
              r == log + [Message(session.sessionId, input, User),
                          Message(session.sessionId, HandleTurn(session, input, o, eventName, messagesOnline,
                                                                eventsOnline, customersOnline).value.messageToUser.value, AI)]
  {
    var t := ProcessTurn(session, input, o, eventName, eventsOnline, customersOnline);
    if t.Err? then log else log + SavedMessages(messagesOnline, session.sessionId, input, t.value.messageToUser)
  }

  /**
   * The customer records after `handleMessage`: the demo handler's update,
   * then the upsert of a session with contact details.
   */
  function RecordsAfterHandle(session: Session, input: string, o: Oracles, eventName: string,
                              eventsOnline: bool, customersOnline: bool,
                              records: map<string, Fields>): (r: map<string, Fields>)
    ensures records.Keys <= r.Keys <= records.Keys + {session.sessionId}
    ensures forall k :: k in records && k != session.sessionId ==> r[k] == records[k]
    ensures ProcessTurn(session, input, o, eventName, eventsOnline, customersOnline).Err? ==> r == records
  {
    var t := ProcessTurn(session, input, o, eventName, eventsOnline, customersOnline);
    if t.Err? then records
    else
      var afterTurn := RecordsAfterTurn(session, input, o, customersOnline, records);
      if HasContact(t.value.updatedSession.context) && customersOnline
      then Upserted(afterTurn, session.sessionId, CustomerFields(t.value.updatedSession.context))
      else afterTurn
  }

  class ConversationManager {
    const nodeService: NodeService
    const messages: MessageLog
    const customers: CustomerStore
    const events: EventLog
    /** The configured name of the schedule-demo event. */
    const eventName: string

    predicate Valid()
      reads nodeService
    {
      nodeService.nodes == Graph()
    }

    constructor (messages: MessageLog, customers: CustomerStore, events: EventLog, eventName: string)
      ensures Valid()
      ensures this.messages == messages && this.customers == customers && this.events == events
      ensures this.eventName == eventName
    {
      nodeService := new NodeService();
      this.messages := messages;
      this.customers := customers;
      this.events := events;
      this.eventName := eventName;
    }

    /** `executeCustomNodeHandler` for a node with a handler, rewrapped as the service layer does. */
    method ExecuteHandler(kind: HandlerKind, input: string, session: Session, o: Oracles) returns (r: Result<string>)
      modifies events`events, customers`records
      ensures r == HandlerOutcome(kind, input, session, o, eventName, events.online, customers.online)
      ensures kind == ProductDetails ==> events.events == old(events.events) && customers.records == old(customers.records)
      ensures kind == ScheduleDemo ==>
                var call := DemoService.ToolArguments(o.toolCall);
                && events.events == (if call.Ok? && events.online && session.sessionId != "" && eventName != ""
                                     then old(events.events) + [DemoService.DemoEvent(session, eventName, call.value)]
                                     else old(events.events))
                && customers.records == (if call.Ok? && customers.online
                                         then Stores.Updated(old(customers.records), session.sessionId, call.value)
                                         else old(customers.records))
    {
      match kind
      case ProductDetails =>
        r := RewrapProductError(ProductService.GetProductDetails(input, o.search, o.complete));
      case ScheduleDemo =>
        var d := DemoService.ScheduleDemo(o.toolCall, session, eventName, events, customers);
        r := RewrapDemoError(d);
    }

    /** `processUserInput`. */
    method ProcessUserInput(input: string, session: Session, o: Oracles) returns (r: Result<TurnResult>)
      requires Valid()
      modifies events`events, customers`records
      ensures r == ProcessTurn(session, input, o, eventName, events.online, customers.online)
      ensures events.events == EventsAfterTurn(session, input, o, eventName, events.online, old(events.events))
      ensures customers.records == RecordsAfterTurn(session, input, o, customers.online, old(customers.records))
    {
      var current := nodeService.GetNode(session.currentNodeId);
      if current.None? {
        return Err(InvalidNodeError);
      }
      var analysis := AnalyzeInput(input, current.value.nextNodes, o.analysis);
      var updated := UpdateSessionWithAnalysis(session, input, analysis);
      var landing := nodeService.GetNode(updated.currentNodeId);
      var outcome: Result<string> := Ok("");
      if landing.Some? && landing.value.handler.Some? {
        outcome := ExecuteHandler(landing.value.handler.value, input, updated, o);
      }
      r := Ok(TurnResult(SelectMessage(landing, analysis.suggestedResponse, outcome), updated));
    }

    /** `saveMessages`: the user message, then the AI message; the second is not attempted when the first fails. */
    method SaveMessages(sessionId: string, input: string, response: Option<string>) returns (r: Result<()>)
      modifies messages`messages
      ensures messages.messages == old(messages.messages) + SavedMessages(messages.online, sessionId, input, response)
      ensures r.Ok? <==> |SavedMessages(messages.online, sessionId, input, response)| == 2
    {
      var u := messages.Create(sessionId, Some(input), User);
      if u.Err? {
        return u;
      }
      r := messages.Create(sessionId, response, AI);
    }

    /** `saveCustomerIfComplete`: upserts the customer once the context holds a name and an email. */
    method SaveCustomerIfComplete(session: Session) returns (r: Result<()>)
      modifies customers`records
      ensures !HasContact(session.context) ==> r.Ok? && customers.records == old(customers.records)
      ensures HasContact(session.context) ==>
                (r.Ok? <==> customers.online)
                && customers.records == (if customers.online
                                         then Upserted(old(customers.records), session.sessionId, CustomerFields(session.context))
                                         else old(customers.records))
    {
      if !HasContact(session.context) {
        return Ok(());
      }
      r := customers.Save(session.sessionId, CustomerFields(session.context));
    }

    /**
     * `handleMessage`: one turn, then both saves; it fails when the turn or
     * either save fails.
     */
    method HandleMessage(input: string, session: Session, o: Oracles) returns (r: Result<TurnResult>)
      requires Valid()
      modifies events`events, customers`records, messages`messages
      ensures events.events == EventsAfterTurn(session, input, o, eventName, events.online, old(events.events))
      ensures messages.messages == MessagesAfterHandle(session, input, o, eventName, messages.online,
                                                       events.online, customers.online, old(messages.messages))
      ensures customers.records == RecordsAfterHandle(session, input, o, eventName, events.online,
                                                      customers.online, old(customers.records))
      ensures r.Ok? <==> HandleTurn(session, input, o, eventName, messages.online, events.online, customers.online).Ok?
      ensures r.Ok? ==> r == HandleTurn(session, input, o, eventName, messages.online, events.online, customers.online)
    {
      var t := ProcessUserInput(input, session, o);
      if t.Err? {
        return t;
      }
      var m := SaveMessages(session.sessionId, input, t.value.messageToUser);
      var c := SaveCustomerIfComplete(t.value.updatedSession);
      if m.Err? {
        r := Err(m.error);
      } else if c.Err? {
        r := Err(c.error);
      } else {
        r := t;
      }
    }
  }
}
