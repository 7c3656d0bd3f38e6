/**
 * The socket layer: a registry of live sessions keyed by session id, and the
 * ordered log of events emitted to each socket.
 */
module Sockets {
  import opened Wrappers
  import opened Types
  import opened Nodes
  import opened Stores
  import opened Conversation

  const ConnectedText := "Connected to sales agent"
  const ErrorText := "Error processing your message"

  /** The events a socket receives; the timestamp of a `message` event is not modelled. */
  datatype Outbound =
    | Connected(sessionId: string, message: string)
    | MessageOut(sessionId: string, content: string)
    | ErrorOut(message: string)

  datatype Emission = Emission(socket: string, event: Outbound)

  /** The greeting: the welcome node's prompt under an empty context, `H` if there were no welcome node. */
  function WelcomeText(): string {
    match Lookup(Some(WelcomeId))
    case Some(node) => node.ProcessedPrompt(map[])
    case None => "H"
  }

  /** The greeting is the welcome node's template itself: an empty context fills no placeholder. */
  lemma WelcomeTextIsTemplate()
    ensures WelcomeText() == WelcomeNode.promptTemplate
    ensures WelcomeText() != ""
  {
    EmptyContextUnchanged(WelcomeNode.promptTemplate);
  }

  /** A fresh session: empty context, at `welcome`, its transcript holding only the greeting. */
  function NewSession(sessionId: string): (s: Session)
    ensures s.sessionId == sessionId && s.context == map[] && s.currentNodeId == Some(WelcomeId)
    ensures s.history == ["AI: " + WelcomeText()]
  {
    Session(sessionId, map[], Some(WelcomeId), ["AI: " + WelcomeText()])
  }

  /**
   * What every registered session satisfies: it is stored under its own id and
   * its transcript opens with the greeting.
   */
  predicate Registered(sessions: map<string, Session>) {
    forall k :: k in sessions ==>
      sessions[k].sessionId == k && |sessions[k].history| > 0 && sessions[k].history[0] == "AI: " + WelcomeText()
  }

  class WebSocketManager {
    var sessions: map<string, Session>
    var emitted: seq<Emission>
    const manager: ConversationManager

    predicate Valid()
      reads this, manager, manager.nodeService
    {
      manager.Valid() && Registered(sessions)
    }

    constructor (manager: ConversationManager)
      requires manager.Valid()
      ensures Valid() && this.manager == manager
      ensures sessions == map[] && emitted == []
    {
      sessions := map[];
      emitted := [];
      this.manager := manager;
    }

    /**
     * `createNewSession`: saves the greeting as an AI message, and only then
     * registers the session; a failed save registers nothing.
     */
    method CreateNewSession(sessionId: string) returns (r: Result<string>)
      requires Valid()
      modifies this`sessions, manager.messages`messages
      ensures Valid()
      ensures r.Ok? <==> manager.messages.online && sessionId != ""
      ensures r.Ok? ==> r.value == WelcomeText()
                        && sessions == old(sessions)[sessionId := NewSession(sessionId)]
                        && manager.messages.messages == old(manager.messages.messages) + [Message(sessionId, WelcomeText(), AI)]
      ensures r.Err? ==> sessions == old(sessions) && manager.messages.messages == old(manager.messages.messages)
    {
      var welcome := manager.nodeService.GetNode(Some(WelcomeId));
      var text := if welcome.Some? then welcome.value.ProcessedPrompt(map[]) else "H";
      WelcomeTextIsTemplate();
      var session := Session(sessionId, map[], Some(WelcomeId), ["AI: " + text]);
      var saved := manager.messages.Create(sessionId, Some(text), AI);
      if saved.Err? {
        return Err(saved.error);
      }
      sessions := sessions[sessionId := session];
      r := Ok(text);
    }

    /**
     * The `connection` handler: create the session, then emit `connected`
     * followed by the greeting.  When the greeting cannot be saved the handler
     * rejects and the socket hears nothing.
     */
    method Connect(socket: string, sessionId: string) returns (r: Result<()>)
      requires Valid()
      modifies this`sessions, this`emitted, manager.messages`messages
      ensures Valid()
      ensures r.Ok? <==> manager.messages.online && sessionId != ""
      ensures r.Ok? ==> sessions == old(sessions)[sessionId := NewSession(sessionId)]
                        && manager.messages.messages == old(manager.messages.messages) + [Message(sessionId, WelcomeText(), AI)]
                        && emitted == old(emitted) + [Emission(socket, Connected(sessionId, ConnectedText)),
                                                      Emission(socket, MessageOut(sessionId, WelcomeText()))]
      ensures r.Err? ==> sessions == old(sessions) && emitted == old(emitted)
                         && manager.messages.messages == old(manager.messages.messages)
    {
      var created := CreateNewSession(sessionId);
      if created.Err? {
        return Err(created.error);
      }
      emitted := emitted + [Emission(socket, Connected(sessionId, ConnectedText))];
      EmitMessage(socket, sessionId, created.value);
      r := Ok(());
    }

    /** `emitMessage`. */
    method EmitMessage(socket: string, sessionId: string, content: string)
      modifies this`emitted
      ensures emitted == old(emitted) + [Emission(socket, MessageOut(sessionId, content))]
    {
      emitted := emitted + [Emission(socket, MessageOut(sessionId, content))];
    }

    /** `handleError`: one generic `error` event; the cause is only logged. */
    method HandleError(socket: string)
      modifies this`emitted
      ensures emitted == old(emitted) + [Emission(socket, ErrorOut(ErrorText))]
    {
      emitted := emitted + [Emission(socket, ErrorOut(ErrorText))];
    }

    /**
     * `handleUserMessage`: an unknown session or a failed turn emits one error
     * event and keeps the registry; a successful turn replaces the session's
     * entry and emits the response.
     */
    method HandleUserMessage(socket: string, sessionId: string, data: string, o: Oracles)
      requires Valid()
      modifies this`sessions, this`emitted, manager.messages`messages, manager.events`events, manager.customers`records
      ensures Valid()
      ensures sessionId !in old(sessions) ==>
                sessions == old(sessions) && emitted == old(emitted) + [Emission(socket, ErrorOut(ErrorText))]
                && manager.messages.messages == old(manager.messages.messages)
                && manager.events.events == old(manager.events.events)
                && manager.customers.records == old(manager.customers.records)
      ensures sessionId in old(sessions) ==>
                var t := HandleTurn(old(sessions)[sessionId], data, o, manager.eventName, manager.messages.online,
                                    manager.events.online, manager.customers.online);
                && (t.Ok? ==> sessions == old(sessions)[sessionId := t.value.updatedSession]
                              && emitted == old(emitted) + [Emission(socket, MessageOut(sessionId, t.value.messageToUser.value))])
                && (t.Err? ==> sessions == old(sessions) && emitted == old(emitted) + [Emission(socket, ErrorOut(ErrorText))])
      ensures sessionId in old(sessions) ==>
                var s := old(sessions)[sessionId];
                var m := manager.eventName;
                && manager.messages.messages
                     == MessagesAfterHandle(s, data, o, m, manager.messages.online, manager.events.online,
                                            manager.customers.online, old(manager.messages.messages))
                && manager.events.events
                     == EventsAfterTurn(s, data, o, m, manager.events.online, old(manager.events.events))
                && manager.customers.records
                     == RecordsAfterHandle(s, data, o, m, manager.events.online, manager.customers.online,
                                           old(manager.customers.records))
    {
      if sessionId !in sessions {
        HandleError(socket);
        return;
      }
      var current := sessions[sessionId];
      var t := manager.HandleMessage(data, current, o);
      if t.Err? {
        HandleError(socket);
        return;
      }
      assert t.value.updatedSession.history[..|current.history|] == current.history;
      sessions := sessions[sessionId := t.value.updatedSession];
      EmitMessage(socket, sessionId, t.value.messageToUser.value);
    }

    /** `handleDisconnect`: forgets exactly this session. */
    method HandleDisconnect(sessionId: string)
      requires Valid()
      modifies this`sessions
      ensures Valid()
      ensures sessions == old(sessions) - {sessionId}
    {
      sessions := sessions - {sessionId};
    }
  }

  /** Removing one id keeps every other registered session as it was. */
  lemma DisconnectKeepsOthers(sessions: map<string, Session>, sessionId: string, other: string)
    requires other != sessionId
    ensures sessionId !in sessions - {sessionId}
    ensures other in sessions - {sessionId} <==> other in sessions
    ensures other in sessions ==> (sessions - {sessionId})[other] == sessions[other]
  {
  }
}
