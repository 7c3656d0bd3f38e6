/**
 * The browser's saved session: one record under one local-storage key,
 * merged on every save, read back with a default when it is missing or
 * unreadable.  Storage failures are swallowed, except in `hasSession`.
 */
module SessionStorage {
  import opened Wrappers
  import opened Text
  import opened ConversationFlow

  const StorageKey := "aws-sales-agent-session"

  /**
   * A chat message as the client keeps it: the node parsed from an assistant
   * reply (with its validator), string-valued metadata, and the pending flag
   * of a message not yet acknowledged.
   */
  datatype ChatMessage = ChatMessage(
    id: string,
    content: string,
    role: string,
    timestamp: string,
    node: Option<FlowNode>,
    metadata: Option<map<string, string>>,
    pending: Option<bool>)

  datatype CustomerInfo = CustomerInfo(name: Option<string>, email: Option<string>, interests: seq<string>)

  /** A conversation state as a value; the customer fields are copied out of their shared object. */
  datatype FlowSnapshot = FlowSnapshot(
    currentNode: Option<FlowNode>,
    completedNodes: seq<NodeType>,
    pendingNodes: seq<FlowNode>,
    customer: CustomerFields)

  /** The stored record; `sessionId` is `null` before the server assigned one. */
  datatype SessionData = SessionData(
    sessionId: Option<string>,
    messages: seq<ChatMessage>,
    conversationState: FlowSnapshot,
    customerInfo: CustomerInfo,
    lastUpdated: string)

  /** A `Partial<SessionData>`: each field is either given or absent. */
  datatype SessionPatch = SessionPatch(
    sessionId: Option<Option<string>>,
    messages: Option<seq<ChatMessage>>,
    conversationState: Option<FlowSnapshot>,
    customerInfo: Option<CustomerInfo>,
    lastUpdated: Option<string>)

  /**
   * What the storage key holds: a record written by `saveSession`, or text that
   * `JSON.parse` rejects (the empty string also reads as missing).
   */
  datatype StoredEntry = Written(data: SessionData) | Unparseable(text: string)

  const InitialSnapshot := FlowSnapshot(None, [], InitialFlow, CustomerFields(None, None, None, None))

  /** `defaultSessionData`, stamped with the time the module was loaded. */
  function Default(loadedAt: string): SessionData {
    SessionData(None, [], InitialSnapshot, CustomerInfo(None, None, []), loadedAt)
  }

  /**
   * `{...current, ...patch, lastUpdated: now}`: given fields win, absent ones
   * keep their value, and the timestamp is always the fresh one.
   */
  function Merge(current: SessionData, patch: SessionPatch, now: string): (r: SessionData)
    ensures r.sessionId == (if patch.sessionId.Some? then patch.sessionId.value else current.sessionId)
    ensures r.messages == (if patch.messages.Some? then patch.messages.value else current.messages)
    ensures r.conversationState == (if patch.conversationState.Some? then patch.conversationState.value
                                    else current.conversationState)
    ensures r.customerInfo == (if patch.customerInfo.Some? then patch.customerInfo.value else current.customerInfo)
    ensures r.lastUpdated == now
  {
    SessionData(
      if patch.sessionId.Some? then patch.sessionId.value else current.sessionId,
      if patch.messages.Some? then patch.messages.value else current.messages,
      if patch.conversationState.Some? then patch.conversationState.value else current.conversationState,
      if patch.customerInfo.Some? then patch.customerInfo.value else current.customerInfo,
      now)
  }

  /** A patch that supplies nothing changes nothing but the timestamp. */
  lemma EmptyPatchOnlyStamps(current: SessionData, now: string)
    ensures Merge(current, SessionPatch(None, None, None, None, None), now) == current.(lastUpdated := now)
  {
  }

  /** Whatever timestamp a patch supplies, the merged record carries `now`. */
  lemma PatchTimestampIgnored(current: SessionData, patch: SessionPatch, stamp: string, now: string)
    ensures Merge(current, patch.(lastUpdated := Some(stamp)), now) == Merge(current, patch.(lastUpdated := None), now)
  {
  }

  /** `JSON.stringify` drops function-valued properties: a stored node loses its validator. */
  function StripNode(n: FlowNode): (r: FlowNode)
    ensures r.validation.None?
    ensures r.nodeType == n.nodeType && r.required == n.required && r.validationError == n.validationError
  {
    n.(validation := None)
  }

  function StripNodes(ns: seq<FlowNode>): (r: seq<FlowNode>)
    ensures |r| == |ns| && forall i :: 0 <= i < |ns| ==> r[i] == StripNode(ns[i])
  {
    seq(|ns|, i requires 0 <= i < |ns| => StripNode(ns[i]))
  }

  /** A message read back: its node, if any, has lost its validator; every other field is kept. */
  function StripMessage(m: ChatMessage): (r: ChatMessage)
    ensures r.node.Some? <==> m.node.Some?
    ensures r.node.Some? ==> r.node.value == StripNode(m.node.value)
    ensures r.(node := m.node) == m
  {
    if m.node.Some? then m.(node := Some(StripNode(m.node.value))) else m
  }

  function StripMessages(ms: seq<ChatMessage>): (r: seq<ChatMessage>)
    ensures |r| == |ms| && forall i :: 0 <= i < |ms| ==> r[i] == StripMessage(ms[i])
  {
    seq(|ms|, i requires 0 <= i < |ms| => StripMessage(ms[i]))
  }

  /** No node of the message carries a validator, so JSON loses nothing of it. */
  predicate PlainMessage(m: ChatMessage) {
    m.node.None? || m.node.value.validation.None?
  }

  /**
   * The record as it reads back after a JSON round trip: the validators of the
   * flow's nodes and of the messages' nodes are gone, everything else is kept.
   */
  function Jsonify(d: SessionData): (r: SessionData)
    ensures r.(messages := d.messages, conversationState := d.conversationState) == d
    ensures r.sessionId == d.sessionId && r.customerInfo == d.customerInfo
    ensures |r.messages| == |d.messages|
    ensures forall i :: 0 <= i < |d.messages| ==> r.messages[i].(node := d.messages[i].node) == d.messages[i]
    ensures forall i :: 0 <= i < |d.messages| ==>
              (r.messages[i].node.Some? <==> d.messages[i].node.Some?)
              && (r.messages[i].node.Some? ==>
                    r.messages[i].node.value.validation.None?
                    && r.messages[i].node.value.nodeType == d.messages[i].node.value.nodeType)
    ensures (forall i :: 0 <= i < |d.messages| ==> PlainMessage(d.messages[i])) ==> r.messages == d.messages
    ensures r.lastUpdated == d.lastUpdated
    ensures r.conversationState.completedNodes == d.conversationState.completedNodes
    ensures r.conversationState.customer == d.conversationState.customer
    ensures Types(r.conversationState.pendingNodes) == Types(d.conversationState.pendingNodes)
  {
    var s := d.conversationState;
    var ns := StripNodes(s.pendingNodes);
    assert Types(ns) == Types(s.pendingNodes);
    var ms := StripMessages(d.messages);
    assert (forall i :: 0 <= i < |d.messages| ==> PlainMessage(d.messages[i])) ==> ms == d.messages;
    d.(messages := ms, conversationState := s.(
      currentNode := if s.currentNode.Some? then Some(StripNode(s.currentNode.value)) else None,
      pendingNodes := ns))
  }

  /** A message's node read back no longer rejects any input, whatever validator it carried. */
  lemma RestoredMessageNodeAcceptsAll(d: SessionData, i: nat, input: string, dateIsFuture: bool)
    requires i < |d.messages| && d.messages[i].node.Some?
    ensures Jsonify(d).messages[i].node.Some?
    ensures Rejection(Jsonify(d).messages[i].node.value, input, dateIsFuture).None?
  {
  }

  /** A second round trip changes nothing: what was read back saves and reads back the same. */
  lemma JsonifyIdempotent(d: SessionData)
    ensures Jsonify(Jsonify(d)) == Jsonify(d)
  {
    assert StripNodes(StripNodes(d.conversationState.pendingNodes)) == StripNodes(d.conversationState.pendingNodes);
    assert StripMessages(StripMessages(d.messages)) == StripMessages(d.messages);
  }

  /**
   * After a round trip the initial flow's name and email nodes no longer carry
   * their validators, so a restored state no longer rejects bad input.
   */
  lemma RestoredFlowLosesValidation(d: SessionData, input: string, dateIsFuture: bool)
    requires d.conversationState.pendingNodes == InitialFlow
    ensures forall i :: 0 <= i < |InitialFlow| ==>
              Rejection(Jsonify(d).conversationState.pendingNodes[i], input, dateIsFuture).None?
    ensures Rejection(InitialFlow[1], "x", dateIsFuture).Some?
  {
    assert Utf16Length("x") == 1;
  }

  class SessionService {
    /** The value under `StorageKey`, if any. */
    var stored: Option<StoredEntry>
    /** Whether local storage can be used at all; when not, every access throws. */
    var accessible: bool
    /** Whether the storage quota is exhausted, so that `setItem` throws. */
    var full: bool
    /** When `defaultSessionData` was built. */
    const loadedAt: string

    constructor (loadedAt: string, stored: Option<StoredEntry>, accessible: bool, full: bool)
      ensures this.loadedAt == loadedAt && this.stored == stored
      ensures this.accessible == accessible && this.full == full
    {
      this.loadedAt := loadedAt;
      this.stored := stored;
      this.accessible := accessible;
      this.full := full;
    }

    /** What `getSession` returns in the current storage state. */
    function Current(): (d: SessionData)
      reads this
      ensures !accessible || stored.None? ==> d == Default(loadedAt)
      ensures accessible && stored.Some? && stored.value.Unparseable? ==> d == Default(loadedAt)
      ensures accessible && stored.Some? && stored.value.Written? ==> d == stored.value.data
    {
      if !accessible then Default(loadedAt)
      else match stored
        case None => Default(loadedAt)
        case Some(Unparseable(_)) => Default(loadedAt)
        case Some(Written(d)) => d
    }

    /** What `hasSession` answers; it throws when storage cannot be used. */
    function Present(): (r: Result<bool>)
      reads this
      ensures r.Err? <==> !accessible
      ensures r.Ok? ==> (r.value <==> stored.Some? && (stored.value.Written? || stored.value.text != ""))
    {
      if !accessible then Err("SecurityError")
      else Ok(stored.Some? && (stored.value.Written? || stored.value.text != ""))
    }

    /** `getSession`. */
    method GetSession() returns (d: SessionData)
      ensures d == Current()
    {
      if !accessible {
        return Default(loadedAt);
      }
      match stored {
        case None => d := Default(loadedAt);
        case Some(Unparseable(_)) => d := Default(loadedAt);
        case Some(Written(x)) => d := x;
      }
    }

    /** `saveSession`: read, merge, write back; a failed write is swallowed. */
    method SaveSession(patch: SessionPatch, now: string)
      modifies this`stored
      ensures accessible && !full ==> stored == Some(Written(Jsonify(Merge(old(Current()), patch, now))))
      ensures accessible && !full ==> Present() == Ok(true) && Current() == Jsonify(Merge(old(Current()), patch, now))
      ensures !(accessible && !full) ==> stored == old(stored)
    {
      var current := GetSession();
      var merged := Merge(current, patch, now);
      if accessible && !full {
        stored := Some(Written(Jsonify(merged)));
      }
    }

    /** `updateSession`: the same as `saveSession`. */
    method UpdateSession(patch: SessionPatch, now: string)
      modifies this`stored
      ensures accessible && !full ==> stored == Some(Written(Jsonify(Merge(old(Current()), patch, now))))
      ensures accessible && !full ==> Present() == Ok(true) && Current() == Jsonify(Merge(old(Current()), patch, now))
      ensures !(accessible && !full) ==> stored == old(stored)
    {
      SaveSession(patch, now);
    }

    /** `clearSession`: removes the key; a failure is swallowed. */
    method ClearSession()
      modifies this`stored
      ensures accessible ==> stored.None? && Present() == Ok(false) && Current() == Default(loadedAt)
      ensures !accessible ==> stored == old(stored)
    {
      if accessible {
        stored := None;
      }
    }

    /** `hasSession`. */
    method HasSession() returns (r: Result<bool>)
      ensures r == Present()
    {
      if !accessible {
        return Err("SecurityError");
      }
      r := Ok(stored.Some? && (stored.value.Written? || stored.value.text != ""));
    }
  }
}
