/**
 * The browser's own model of the conversation: a linear queue of nodes with
 * per-node input validation, the customer fields captured on the way, a
 * parser that recognises the node an AI reply is about, and the rule that
 * picks the next node.
 */
module ConversationFlow {
  import opened Wrappers
  import opened Text

  datatype NodeType = Welcome | CollectName | CollectEmail | GetProducts | ProductQA | ScheduleDemo | EndConversation

  /** The node type as the backend and the fallback table spell it. */
  function TypeName(t: NodeType): string {
    match t
    case Welcome => "welcome"
    case CollectName => "collect_name"
    case CollectEmail => "collect_email"
    case GetProducts => "get_products"
    case ProductQA => "question_and_answer_node_for_product_details"
    case ScheduleDemo => "schedule_demo"
    case EndConversation => "end_conversation"
  }

  /** Distinct types have distinct names. */
  lemma TypeNameInjective(s: NodeType, t: NodeType)
    requires TypeName(s) == TypeName(t)
    ensures s == t
  {
  }

  datatype Validator = NameRule | EmailRule | DateRule

  /** A node of the flow; `validationError` is the `data.validationError` a failed input leaves on it. */
  datatype FlowNode = FlowNode(nodeType: NodeType, required: bool, validation: Option<Validator>,
                               validationError: Option<string>)

  const WelcomeFlow := FlowNode(Welcome, false, None, None)
  const NameFlow := FlowNode(CollectName, true, Some(NameRule), None)
  const EmailFlow := FlowNode(CollectEmail, true, Some(EmailRule), None)
  const ProductsFlow := FlowNode(GetProducts, true, None, None)
  const QAFlow := FlowNode(ProductQA, false, None, None)
  const DemoFlow := FlowNode(ScheduleDemo, false, Some(DateRule), None)
  const EndFlow := FlowNode(EndConversation, false, None, None)

  /** `initialConversationFlow`. */
  const InitialFlow: seq<FlowNode> := [WelcomeFlow, NameFlow, EmailFlow, ProductsFlow, QAFlow, DemoFlow, EndFlow]

  const EmailMessage := "Please enter a valid email address"
  const NameMessage := "Name must be at least 2 characters"
  const DateMessage := "Please select a future date"

  /** A run the email pattern's `[^\s@]+` accepts. */
  predicate Segment(x: string) {
    |x| > 0 && forall i :: 0 <= i < |x| ==> x[i] != '@' && !IsWhitespace(x[i])
  }

  /** `s` reads `l@d1.d2` with three `[^\s@]+` runs. */
  predicate Splits(s: string, l: string, d1: string, d2: string) {
    s == l + "@" + d1 + "." + d2 && Segment(l) && Segment(d1) && Segment(d2)
  }

  /** What `/^[^\s@]+@[^\s@]+\.[^\s@]+$/` accepts. */
  ghost predicate EmailPattern(s: string) {
    exists l, d1, d2 :: Splits(s, l, d1, d2)
  }

  /** The first index of `c` in `s`. */
  function IndexOf(s: string, c: char): (r: Option<nat>)
    ensures r.Some? ==> r.value < |s| && s[r.value] == c && forall j :: 0 <= j < r.value ==> s[j] != c
    ensures r.None? ==> forall j :: 0 <= j < |s| ==> s[j] != c
  {
    if s == [] then None
    else if s[0] == c then Some(0)
    else match IndexOf(s[1..], c)
      case None => None
      case Some(i) => Some(i + 1)
  }

  /** A domain part: one `[^\s@]+` run with a dot strictly inside it. */
  predicate ValidDomain(d: string) {
    Segment(d) && exists k :: 0 < k < |d| - 1 && d[k] == '.'
  }

  /** `validators.email`'s test: split at the `@` and check both sides. */
  predicate IsEmail(s: string) {
    match IndexOf(s, '@')
    case None => false
    case Some(a) => Segment(s[..a]) && ValidDomain(s[a + 1..])
  }

  /** Every string the email check accepts has the pattern's shape. */
  lemma EmailCheckSound(s: string)
    requires IsEmail(s)
    ensures EmailPattern(s)
  {
    var a := IndexOf(s, '@').value;
    var d := s[a + 1..];
    var k :| 0 < k < |d| - 1 && d[k] == '.';
    var l, d1, d2 := s[..a], d[..k], d[k + 1..];
    assert d == d1 + "." + d2;
    assert s == l + "@" + d;
    assert Splits(s, l, d1, d2);
  }

  /** A `[^\s@]+` run, a dot, and another run form a valid domain. */
  lemma DomainOfSplit(d1: string, d2: string)
    requires Segment(d1) && Segment(d2)
    ensures ValidDomain(d1 + "." + d2)
  {
    var d := d1 + "." + d2;
    forall i | 0 <= i < |d|
      ensures d[i] != '@' && !IsWhitespace(d[i])
    {
      if i < |d1| {
        assert d[i] == d1[i];
      } else if i > |d1| {
        assert d[i] == d2[i - |d1| - 1];
      }
    }
    assert d[|d1|] == '.';
  }

  /** Every string of the pattern's shape passes the email check. */
  lemma EmailCheckComplete(s: string, l: string, d1: string, d2: string)
    requires Splits(s, l, d1, d2)
    ensures IsEmail(s)
  {
    var d := d1 + "." + d2;
    assert s == l + ("@" + d);
    forall j | 0 <= j < |l|
      ensures s[j] != '@'
    {
      assert s[j] == l[j];
    }
    assert s[|l|] == '@';
    assert IndexOf(s, '@') == Some(|l|);
    assert s[..|l|] == l;
    assert s[|l| + 1..] == d;
    DomainOfSplit(d1, d2);
  }

  /** The email check accepts exactly the strings the anchored pattern matches. */
  lemma EmailCheckMatchesPattern(s: string)
    ensures IsEmail(s) <==> EmailPattern(s)
  {
    if IsEmail(s) {
      EmailCheckSound(s);
    }
    if EmailPattern(s) {
      var l, d1, d2 :| Splits(s, l, d1, d2);
      EmailCheckComplete(s, l, d1, d2);
    }
  }

  /**
   * The message a validator returns for a rejected input, nothing when it
   * accepts.  `dateIsFuture` is the clock's verdict on the parsed date.
   */
  function Validate(v: Validator, input: string, dateIsFuture: bool): (r: Option<string>)
    ensures v == NameRule ==> (r.None? <==> Utf16Length(input) >= 2)
    ensures v == EmailRule ==> (r.None? <==> EmailPattern(input))
    ensures r.Some? ==> r.value in {NameMessage, EmailMessage, DateMessage}
  {
    EmailCheckMatchesPattern(input);
    match v
    case NameRule => if Utf16Length(input) >= 2 then None else Some(NameMessage)
    case EmailRule => if IsEmail(input) then None else Some(EmailMessage)
    case DateRule => if dateIsFuture then None else Some(DateMessage)
  }

  /** Validation runs only on a node that has a validator and is marked required. */
  function Rejection(node: FlowNode, input: string, dateIsFuture: bool): Option<string> {
    if node.validation.Some? && node.required then Validate(node.validation.value, input, dateIsFuture) else None
  }

  /** In the initial flow only the name and email nodes can reject input; the demo date is never checked. */
  lemma OnlyNameAndEmailValidate(i: nat, input: string, dateIsFuture: bool)
    requires i < |InitialFlow|
    requires Rejection(InitialFlow[i], input, dateIsFuture).Some?
    ensures InitialFlow[i] == NameFlow || InitialFlow[i] == EmailFlow
  {
  }

  /** The products of the catalogue, in the order they are tested. */
  const Catalogue: seq<string> := ["ec2", "s3", "rds", "dynamodb", "lambda"]

  /** `ps.filter(p => text.includes(p))`. */
  function Filter(ps: seq<string>, text: string): (r: seq<string>)
    ensures |r| <= |ps|
    ensures forall p :: p in r <==> p in ps && Contains(text, p)
  {
    if ps == [] then []
    else (if Contains(text, ps[0]) then [ps[0]] else []) + Filter(ps[1..], text)
  }

  /** The filter keeps the order of its input: filtering a concatenation concatenates the filtered parts. */
  lemma {:induction false} FilterAppend(ps: seq<string>, qs: seq<string>, text: string)
    ensures Filter(ps + qs, text) == Filter(ps, text) + Filter(qs, text)
  {
    if ps != [] {
      assert (ps + qs)[1..] == ps[1..] + qs;
      FilterAppend(ps[1..], qs, text);
    } else {
      assert ps + qs == qs;
    }
  }

  /** The products named in the input, case-insensitively, in catalogue order; nothing when none is named. */
  function ProductInterests(input: string): (r: Option<seq<string>>)
    ensures r.Some? ==> |r.value| > 0 && forall p :: p in r.value <==> p in Catalogue && Contains(ToLower(input), p)
    ensures r.None? <==> forall p :: p in Catalogue ==> !Contains(ToLower(input), p)
  {
    var found := Filter(Catalogue, ToLower(input));
    if |found| > 0 then assert found[0] in found; Some(found) else None
  }

  /** The customer fields as values; `CustomerData` holds them in place. */
  datatype CustomerFields = CustomerFields(
    name: Option<string>,
    email: Option<string>,
    productInterest: Option<seq<string>>,
    demoDate: Option<string>)

  /** What accepting `input` at a node of type `t` records: at most the one field the node collects. */
  function Capture(t: NodeType, input: string, c: CustomerFields): (r: CustomerFields)
    ensures r.name == (if t == CollectName then Some(input) else c.name)
    ensures r.email == (if t == CollectEmail then Some(input) else c.email)
    ensures r.productInterest == (if t == GetProducts then ProductInterests(input) else c.productInterest)
    ensures r.demoDate == (if t == ScheduleDemo then Some(input) else c.demoDate)
  {
    match t
    case CollectName => c.(name := Some(input))
    case CollectEmail => c.(email := Some(input))
    case GetProducts => c.(productInterest := ProductInterests(input))
    case ScheduleDemo => c.(demoDate := Some(input))
    case _ => c
  }

  /** The captured customer details, shared by every copy of a state that refers to them. */
  class CustomerData {
    var name: Option<string>
    var email: Option<string>
    var productInterest: Option<seq<string>>
    var demoDate: Option<string>

    constructor ()
      ensures Fields() == CustomerFields(None, None, None, None)
    {
      name := None;
      email := None;
      productInterest := None;
      demoDate := None;
    }

    function Fields(): CustomerFields
      reads this
    {
      CustomerFields(name, email, productInterest, demoDate)
    }
  }

  datatype FlowState = FlowState(
    currentNode: Option<FlowNode>,
    completedNodes: seq<NodeType>,
    pendingNodes: seq<FlowNode>,
    customerData: CustomerData)

  function Types(nodes: seq<FlowNode>): (r: seq<NodeType>)
    ensures |r| == |nodes| && forall i :: 0 <= i < |nodes| ==> r[i] == nodes[i].nodeType
  {
    seq(|nodes|, i requires 0 <= i < |nodes| => nodes[i].nodeType)
  }

  /** The whole route of a state: what is done, what is current, what is still queued. */
  function Trail(s: FlowState): seq<NodeType> {
    s.completedNodes + (if s.currentNode.Some? then [s.currentNode.value.nodeType] else []) + Types(s.pendingNodes)
  }

  /** `initialConversationState`: no current node, the whole flow pending, nothing captured. */
  method InitialState() returns (s: FlowState)
    ensures fresh(s.customerData) && s.customerData.Fields() == CustomerFields(None, None, None, None)
    ensures s.currentNode.None? && s.completedNodes == [] && s.pendingNodes == InitialFlow
    ensures Trail(s) == Types(InitialFlow)
  {
    var data := new CustomerData();
    s := FlowState(None, [], InitialFlow, data);
  }

  /**
   * `processNodeResponse`.  The returned state is a shallow copy: it shares the
   * `customerData` object with `state`, which is why the capture is visible
   * through the caller's state as well.
   */
  method ProcessNodeResponse(state: FlowState, input: string, dateIsFuture: bool) returns (r: FlowState)
    modifies state.customerData
    ensures r.customerData == state.customerData
    ensures Trail(r) == Trail(state)
    ensures state.currentNode.None? ==> r == state && state.customerData.Fields() == old(state.customerData.Fields())
    ensures state.currentNode.Some? && Rejection(state.currentNode.value, input, dateIsFuture).Some? ==>
              r == state.(currentNode := Some(state.currentNode.value.(
                            validationError := Rejection(state.currentNode.value, input, dateIsFuture))))
              && state.customerData.Fields() == old(state.customerData.Fields())
    ensures state.currentNode.Some? && Rejection(state.currentNode.value, input, dateIsFuture).None? ==>
              && state.customerData.Fields() == Capture(state.currentNode.value.nodeType, input, old(state.customerData.Fields()))
              && r.completedNodes == state.completedNodes + [state.currentNode.value.nodeType]
              && (|state.pendingNodes| > 0 ==> r.currentNode == Some(state.pendingNodes[0])
                                               && r.pendingNodes == state.pendingNodes[1..])
              && (state.pendingNodes == [] ==> r.currentNode.None? && r.pendingNodes == [])
  {
    if state.currentNode.None? {
      return state;
    }
    var node := state.currentNode.value;
    if node.validation.Some? && node.required {
      var err := Validate(node.validation.value, input, dateIsFuture);
      if err.Some? {
        return state.(currentNode := Some(node.(validationError := err)));
      }
    }
    var data := state.customerData;
    match node.nodeType {
      case CollectName => data.name := Some(input);
      case CollectEmail => data.email := Some(input);
      case GetProducts => data.productInterest := ProductInterests(input);
      case ScheduleDemo => data.demoDate := Some(input);
      case _ =>
    }
    var completed := state.completedNodes + [node.nodeType];
    if |state.pendingNodes| > 0 {
      r := FlowState(Some(state.pendingNodes[0]), completed, state.pendingNodes[1..], data);
      assert Types(state.pendingNodes) == [state.pendingNodes[0].nodeType] + Types(state.pendingNodes[1..]);
    } else {
      r := FlowState(None, completed, state.pendingNodes, data);
    }
  }

  const ApologyMarkers: seq<string> := ["I apologize", "encountered an issue", "something went wrong"]

  /** The explicit tags in the order they are tested, and the node each announces. */
  const Tags: seq<string> :=
    ["[COLLECT_NAME]", "[COLLECT_EMAIL]", "[GET_PRODUCTS]", "[SCHEDULE_DEMO]", "[END_CONVERSATION]", "[PRODUCT_QA]"]
  const TagNodes: seq<FlowNode> := [NameFlow, EmailFlow, ProductsFlow, DemoFlow, EndFlow, QAFlow]

  predicate HasApology(response: string) {
    exists i :: 0 <= i < |ApologyMarkers| && Contains(response, ApologyMarkers[i])
  }

  /** `parseNodeFromResponse`: every node it recognises is one a tag can announce. */
  function ParseNode(response: string): (r: Option<FlowNode>)
    ensures r.Some? ==> r.value in TagNodes
  {
    if Contains(response, "I apologize") || Contains(response, "encountered an issue")
       || Contains(response, "something went wrong") then None
    else if Contains(response, "[COLLECT_NAME]") then Some(NameFlow)
    else if Contains(response, "[COLLECT_EMAIL]") then Some(EmailFlow)
    else if Contains(response, "[GET_PRODUCTS]") then Some(ProductsFlow)
    else if Contains(response, "[SCHEDULE_DEMO]") then Some(DemoFlow)
    else if Contains(response, "[END_CONVERSATION]") then Some(EndFlow)
    else if Contains(response, "[PRODUCT_QA]") then Some(QAFlow)
    else
      var lower := ToLower(response);
      if Contains(lower, "what's your name") || Contains(lower, "may i know your name") then Some(NameFlow)
      else if Contains(lower, "email address") || Contains(lower, "what's your email") then Some(EmailFlow)
      else if Contains(lower, "what product") || Contains(lower, "which aws product") then Some(ProductsFlow)
      else if Contains(lower, "schedule a demo") || Contains(lower, "when would be a good time") then Some(DemoFlow)
      else None
  }

  /** An apology marker wins over everything: no node is recognised. */
  lemma ApologyWins(response: string)
    requires HasApology(response)
    ensures ParseNode(response).None?
  {
  }

  /** Without an apology, the first tag of the fixed order that occurs decides the node. */
  lemma FirstTagWins(response: string, i: nat)
    requires !HasApology(response)
    requires i < |Tags| && Contains(response, Tags[i])
    requires forall j :: 0 <= j < i ==> !Contains(response, Tags[j])
    ensures ParseNode(response) == Some(TagNodes[i])
  {
    assert !Contains(response, ApologyMarkers[0]) && !Contains(response, ApologyMarkers[1])
           && !Contains(response, ApologyMarkers[2]);
    if i > 0 { assert !Contains(response, Tags[0]); }
    if i > 1 { assert !Contains(response, Tags[1]); }
    if i > 2 { assert !Contains(response, Tags[2]); }
    if i > 3 { assert !Contains(response, Tags[3]); }
    if i > 4 { assert !Contains(response, Tags[4]); }
  }

  /** A recognised node is one of the flow's nodes, never the welcome node, and carries no error. */
  lemma ParsedNodeInFlow(response: string)
    requires ParseNode(response).Some?
    ensures ParseNode(response).value in InitialFlow
    ensures ParseNode(response).value != WelcomeFlow
    ensures ParseNode(response).value.validationError.None?
  {
  }

  /** The lowercased phrases tested when no tag is present, in groups in the order they are tested. */
  const Phrases: seq<seq<string>> := [
    ["what's your name", "may i know your name"],
    ["email address", "what's your email"],
    ["what product", "which aws product"],
    ["schedule a demo", "when would be a good time"]]
  const PhraseNodes: seq<FlowNode> := [NameFlow, EmailFlow, ProductsFlow, DemoFlow]

  predicate HasTag(response: string) {
    exists i :: 0 <= i < |Tags| && Contains(response, Tags[i])
  }

  /** One of the phrases of group `g` occurs in the lowercased response. */
  predicate PhraseCue(response: string, g: nat)
    requires g < |Phrases|
  {
    Contains(ToLower(response), Phrases[g][0]) || Contains(ToLower(response), Phrases[g][1])
  }

  /**
   * With neither an apology marker nor a tag, the first phrase group of the
   * fixed order found in the lowercased response decides the node.
   */
  lemma FirstPhraseWins(response: string, g: nat)
    requires !HasApology(response) && !HasTag(response)
    requires g < |Phrases| && PhraseCue(response, g)
    requires forall h :: 0 <= h < g ==> !PhraseCue(response, h)
    ensures ParseNode(response) == Some(PhraseNodes[g])
  {
    assert !Contains(response, ApologyMarkers[0]) && !Contains(response, ApologyMarkers[1])
           && !Contains(response, ApologyMarkers[2]);
    assert !Contains(response, Tags[0]) && !Contains(response, Tags[1]) && !Contains(response, Tags[2])
           && !Contains(response, Tags[3]) && !Contains(response, Tags[4]) && !Contains(response, Tags[5]);
    if g > 0 { assert !PhraseCue(response, 0); }
    if g > 1 { assert !PhraseCue(response, 1); }
    if g > 2 { assert !PhraseCue(response, 2); }
  }

  /**
   * No node is recognised exactly when the response carries an apology marker,
   * or carries neither a tag nor any phrase.
   */
  lemma NoNodeExactly(response: string)
    ensures ParseNode(response).None? <==>
              HasApology(response)
              || (!HasTag(response) && forall g :: 0 <= g < |Phrases| ==> !PhraseCue(response, g))
  {
    if !HasApology(response) {
      assert !Contains(response, ApologyMarkers[0]) && !Contains(response, ApologyMarkers[1])
             && !Contains(response, ApologyMarkers[2]);
      if HasTag(response) {
        var i :| 0 <= i < |Tags| && Contains(response, Tags[i]);
        assert ParseNode(response).Some?;
      } else {
        assert !Contains(response, Tags[0]) && !Contains(response, Tags[1]) && !Contains(response, Tags[2])
               && !Contains(response, Tags[3]) && !Contains(response, Tags[4]) && !Contains(response, Tags[5]);
        if exists g :: 0 <= g < |Phrases| && PhraseCue(response, g) {
          var g :| 0 <= g < |Phrases| && PhraseCue(response, g);
          assert ParseNode(response).Some?;
        } else {
          assert !PhraseCue(response, 0) && !PhraseCue(response, 1)
                 && !PhraseCue(response, 2) && !PhraseCue(response, 3);
        }
      }
    } else {
      var i :| 0 <= i < |ApologyMarkers| && Contains(response, ApologyMarkers[i]);
    }
  }

  /** `determineNextNode` on the state's current node. */
  function NextNode(current: Option<FlowNode>, input: string): NodeType {
    if current.None? then Welcome
    else match current.value.nodeType
      case Welcome => CollectName
      case CollectName => CollectEmail
      case CollectEmail => GetProducts
      case GetProducts => ProductQA
      case ProductQA =>
        var lower := ToLower(input);
        if Contains(lower, "demo") || Contains(lower, "schedule") || Contains(lower, "appointment")
        then ScheduleDemo else ProductQA
      case ScheduleDemo => EndConversation
      case EndConversation => Welcome
  }

  /**
   * Up to the Q&A node the next node is the following entry of the initial
   * flow whatever the input; the demo node leads to the end, and the end back
   * to the welcome.
   */
  lemma NextNodeFollowsFlow(i: nat, input: string)
    requires i < 4
    ensures NextNode(Some(InitialFlow[i]), input) == InitialFlow[i + 1].nodeType
    ensures NextNode(Some(DemoFlow), input) == EndConversation
    ensures NextNode(Some(EndFlow), input) == Welcome
    ensures NextNode(None, input) == Welcome
  {
  }

  /** The Q&A node moves to the demo exactly when the input mentions a demo, a schedule or an appointment. */
  lemma QALeavesOnlyForDemo(node: FlowNode, input: string)
    requires node.nodeType == ProductQA
    ensures NextNode(Some(node), input) in {ScheduleDemo, ProductQA}
    ensures NextNode(Some(node), input) == ScheduleDemo <==>
              exists w :: w in ["demo", "schedule", "appointment"] && Contains(ToLower(input), w)
  {
    var lower := ToLower(input);
    if Contains(lower, "demo") {
      assert "demo" in ["demo", "schedule", "appointment"];
    } else if Contains(lower, "schedule") {
      assert "schedule" in ["demo", "schedule", "appointment"];
    } else if Contains(lower, "appointment") {
      assert "appointment" in ["demo", "schedule", "appointment"];
    }
  }
}
