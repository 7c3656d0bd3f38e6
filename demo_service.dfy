/**
 * The demo-scheduling handler: read the model's first tool call, check it is
 * `schedule_demo`, then record a scheduling event and update the customer with
 * the call's arguments, and confirm in one sentence.
 */
module DemoService {
  import opened Wrappers
  import opened Types
  import opened Stores

  const DemoFunctionName := "schedule_demo"
  const NoCallError := "No function call response from Together AI"
  const InvalidCallError := "Failed to schedule demo - invalid function call"

  /**
   * The first tool call of the model's reply: the function's name and its
   * arguments after `JSON.parse` (an error when they do not parse).
   */
  datatype ToolCall = ToolCall(name: string, arguments: Result<Fields>)

  /**
   * The checks before any write, in the order the handler makes them: the
   * provider call itself, the presence of a tool call, the parsing of its
   * arguments and, only then, its name.
   */
  function ToolArguments(reply: Result<Option<ToolCall>>): (r: Result<Fields>)
    ensures r.Ok? <==> reply.Ok? && reply.value.Some? && reply.value.value.arguments.Ok?
                       && reply.value.value.name == DemoFunctionName
    ensures r.Ok? ==> r.value == reply.value.value.arguments.value
    ensures reply.Err? ==> r == Err(reply.error)
    ensures reply == Ok(None) ==> r == Err(NoCallError)
    ensures reply.Ok? && reply.value.Some? && reply.value.value.arguments.Err? ==>
              r == Err(reply.value.value.arguments.error)
    ensures (reply.Ok? && reply.value.Some? && reply.value.value.arguments.Ok?
             && reply.value.value.name != DemoFunctionName) ==> r == Err(InvalidCallError)
  {
    match reply
    case Err(e) => Err(e)
    case Ok(None) => Err(NoCallError)
    case Ok(Some(call)) =>
      match call.arguments
      case Err(e) => Err(e)
      case Ok(args) => if call.name == DemoFunctionName then Ok(args) else Err(InvalidCallError)
  }

  /** A template-literal interpolation: a missing argument renders as `undefined`. */
  function Show(args: Fields, key: string): string {
    if key in args then args[key] else "undefined"
  }

  function Confirmation(args: Fields): string {
    "Demo scheduled successfully for " + Show(args, "name") + " (" + Show(args, "email") + ") on " + Show(args, "date")
  }

  /** The event recorded for a scheduled demo: the arguments as data, the transcript and node as metadata. */
  function DemoEvent(session: Session, eventName: string, args: Fields): Event {
    Event(session.sessionId, eventName, args, EventMetadata(session.history, session.currentNodeId))
  }

  /**
   * Whether the handler confirms: the reply passes the checks, the event is
   * accepted by its schema and both stores are reachable.
   */
  predicate DemoSucceeds(reply: Result<Option<ToolCall>>, session: Session, eventName: string,
                         eventsOnline: bool, customersOnline: bool) {
    ToolArguments(reply).Ok? && eventsOnline && session.sessionId != "" && eventName != "" && customersOnline
  }

  /**
   * `scheduleDemo` with `handleDemoScheduling`.  `reply` is the settled
   * provider call, `eventName` the configured event type.  Both writes are
   * started together, so each happens or fails on its own and the handler
   * fails when either does.
   */
  method ScheduleDemo(reply: Result<Option<ToolCall>>, session: Session, eventName: string,
                      events: EventLog, customers: CustomerStore) returns (r: Result<string>)
    modifies events`events, customers`records
    ensures ToolArguments(reply).Err? ==>
              r == Err(ToolArguments(reply).error)
              && events.events == old(events.events) && customers.records == old(customers.records)
    ensures ToolArguments(reply).Ok? ==>
              var args := ToolArguments(reply).value;
              var eventOk := events.online && session.sessionId != "" && eventName != "";
              && events.events == (if eventOk then old(events.events) + [DemoEvent(session, eventName, args)]
                                   else old(events.events))
              && customers.records == (if customers.online then Updated(old(customers.records), session.sessionId, args)
                                       else old(customers.records))
              && (r.Ok? ==> r.value == Confirmation(args))
    ensures r.Ok? <==> DemoSucceeds(reply, session, eventName, events.online, customers.online)
  {
    var call := ToolArguments(reply);
    if call.Err? {
      return Err(call.error);
    }
    var args := call.value;
    var e := events.Create(DemoEvent(session, eventName, args));
    var c := customers.Update(session.sessionId, args);
    if e.Err? {
      r := Err(e.error);
    } else if c.Err? {
      r := Err(c.error);
    } else {
      r := Ok(Confirmation(args));
    }
  }

  /**
   * Scheduling a demo never creates a customer: a session that never gave its
   * name and email keeps no customer record, whatever the call's arguments.
   */
  lemma DemoNeverCreatesCustomer(records: map<string, Fields>, session: Session, reply: Result<Option<ToolCall>>)
    requires ToolArguments(reply).Ok?
    requires session.sessionId !in records
    ensures Updated(records, session.sessionId, ToolArguments(reply).value) == records
  {
    UpdateNeverCreates(records, session.sessionId, ToolArguments(reply).value);
  }
}
