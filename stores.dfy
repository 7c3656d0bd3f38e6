/**
 * The persistence collaborators, reduced to what the engine can observe: an
 * append-only message log, an append-only event log and a customer map keyed
 * by session id.  Each store is either reachable (`online`) or every write to
 * it fails and changes nothing.
 */
module Stores {
  import opened Wrappers

  datatype Role = User | AI

  /** A persisted utterance; the log keeps them in creation order. */
  datatype Message = Message(sessionId: string, text: string, role: Role)

  /** A flat record of string fields, as the customer and event documents carry them. */
  type Fields = map<string, string>

  datatype EventMetadata = EventMetadata(history: seq<string>, currentNodeId: Option<string>)

  /** A business event such as a scheduled demo. */
  datatype Event = Event(sessionId: string, name: string, data: Fields, metadata: EventMetadata)

  /** Mongoose's `required` check on a string path: present and not empty. */
  predicate Required(v: Option<string>) {
    v.Some? && v.value != ""
  }

  /** The paths of the customer schema other than its key; the default strict mode drops all others. */
  const CustomerPaths: set<string> := {"name", "email", "productInterest"}

  function SchemaFields(f: Fields): (r: Fields)
    ensures r.Keys == f.Keys * CustomerPaths
    ensures forall k :: k in r ==> r[k] == f[k]
  {
    map k | k in f && k in CustomerPaths :: f[k]
  }

  /** `saveCustomer`: `findOneAndUpdate` with `upsert`, so a missing record is created. */
  function Upserted(records: map<string, Fields>, sessionId: string, f: Fields): map<string, Fields> {
    var base := if sessionId in records then records[sessionId] else map[];
    records[sessionId := base + SchemaFields(f)]
  }

  /** `updateCustomer`: `findOneAndUpdate` without `upsert`, so only an existing record changes. */
  function Updated(records: map<string, Fields>, sessionId: string, f: Fields): map<string, Fields> {
    if sessionId in records then records[sessionId := records[sessionId] + SchemaFields(f)] else records
  }

  /**
   * An upsert always leaves a record under the key holding the written schema
   * fields and every earlier field they do not override; other records are untouched.
   */
  lemma UpsertWrites(records: map<string, Fields>, sessionId: string, f: Fields)
    ensures var r := Upserted(records, sessionId, f);
      && r.Keys == records.Keys + {sessionId}
      && (forall k :: k in f && k in CustomerPaths ==> r[sessionId][k] == f[k])
      && (sessionId in records ==> forall k :: k in records[sessionId] && k !in f ==> r[sessionId][k] == records[sessionId][k])
      && (forall s :: s in records && s != sessionId ==> r[s] == records[s])
  {
  }

  /** An update never creates a record: with no record under the key it changes nothing. */
  lemma UpdateNeverCreates(records: map<string, Fields>, sessionId: string, f: Fields)
    ensures Updated(records, sessionId, f).Keys == records.Keys
    ensures sessionId !in records ==> Updated(records, sessionId, f) == records
    ensures sessionId in records ==> Updated(records, sessionId, f) == Upserted(records, sessionId, f)
  {
  }

  class MessageLog {
    var messages: seq<Message>
    var online: bool

    constructor (online: bool)
      ensures messages == [] && this.online == online
    {
      messages := [];
      this.online := online;
    }

    /** `createMessage`: appends one message; the schema requires a session id and a non-empty text. */
    method Create(sessionId: string, text: Option<string>, role: Role) returns (r: Result<()>)
      modifies this`messages
      ensures r.Ok? <==> online && sessionId != "" && Required(text)
      ensures r.Ok? ==> messages == old(messages) + [Message(sessionId, text.value, role)]
      ensures r.Err? ==> messages == old(messages)
    {
      if !online {
        r := Err("message store unavailable");
      } else if sessionId == "" || !Required(text) {
        r := Err("Message validation failed");
      } else {
        messages := messages + [Message(sessionId, text.value, role)];
        r := Ok(());
      }
    }
  }

  class CustomerStore {
    var records: map<string, Fields>
    var online: bool

    constructor (online: bool)
      ensures records == map[] && this.online == online
    {
      records := map[];
      this.online := online;
    }

    /** `saveCustomer`: upserts the record of `sessionId`. */
    method Save(sessionId: string, f: Fields) returns (r: Result<()>)
      modifies this`records
      ensures r.Ok? <==> online
      ensures records == if r.Ok? then Upserted(old(records), sessionId, f) else old(records)
    {
      if online {
        records := Upserted(records, sessionId, f);
        r := Ok(());
      } else {
        r := Err("customer store unavailable");
      }
    }

    /** `updateCustomer`: updates the record of `sessionId` if there is one; a miss is not an error. */
    method Update(sessionId: string, f: Fields) returns (r: Result<()>)
      modifies this`records
      ensures r.Ok? <==> online
      ensures records == if r.Ok? then Updated(old(records), sessionId, f) else old(records)
    {
      if online {
        records := Updated(records, sessionId, f);
        r := Ok(());
      } else {
        r := Err("customer store unavailable");
      }
    }
  }

  class EventLog {
    var events: seq<Event>
    var online: bool

    constructor (online: bool)
      ensures events == [] && this.online == online
    {
      events := [];
      this.online := online;
    }

    /** `createEvent`: appends one event; the schema requires a session id and a name. */
    method Create(e: Event) returns (r: Result<()>)
      modifies this`events
      ensures r.Ok? <==> online && e.sessionId != "" && e.name != ""
      ensures events == if r.Ok? then old(events) + [e] else old(events)
    {
      if !online {
        r := Err("event store unavailable");
      } else if e.sessionId == "" || e.name == "" {
        r := Err("Event validation failed");
      } else {
        events := events + [e];
        r := Ok(());
      }
    }
  }
}
