/**
 * The conversation graph: a fixed table of seven nodes, each with a prompt
 * template, its candidate successors and, for two of them, a custom handler;
 * and the single-pass `${key}` substitution that renders a node's prompt.
 */
module Nodes {
  import opened Wrappers
  import opened Text
  import opened Types

  /** The service function a custom node calls: product Q&A or demo scheduling. */
  datatype HandlerKind = ProductDetails | ScheduleDemo

  datatype Node = Node(
    id: string,
    description: string,
    promptTemplate: string,
    requiredFields: seq<string>,
    nextNodes: seq<string>,
    consumeNodeResponse: bool,
    handler: Option<HandlerKind>)
  {
    /** The prompt with its placeholders filled from `context`. */
    function ProcessedPrompt(context: Context): string {
      Substitute(promptTemplate, context)
    }
  }

  /** The `\w` class. */
  predicate IsWordChar(c: char) {
    'a' <= c <= 'z' || 'A' <= c <= 'Z' || '0' <= c <= '9' || c == '_'
  }

  /** `p` is a whole `${key}` placeholder with a non-empty word key. */
  predicate IsPlaceholder(p: string) {
    4 <= |p| && p[0] == '$' && p[1] == '{' && p[|p| - 1] == '}'
    && forall k :: 2 <= k < |p| - 1 ==> IsWordChar(p[k])
  }

  /** Length of the placeholder that `/\${(\w+)}/` matches at the start of `u`, if any. */
  function PlaceholderLength(u: string): (n: Option<nat>)
    ensures n.Some? <==> exists m :: 4 <= m <= |u| && IsPlaceholder(u[..m])
    ensures n.Some? ==> 4 <= n.value <= |u| && IsPlaceholder(u[..n.value])
  {
    if 2 <= |u| && u[0] == '$' && u[1] == '{' then
      var e := Span(u, 2, IsWordChar);
      if 2 < e < |u| && u[e] == '}' then
        assert IsPlaceholder(u[..e + 1]);
        Some(e + 1)
      else
        assert forall m :: 4 <= m <= |u| ==> !IsPlaceholder(u[..m]) by {
          forall m | 4 <= m <= |u| && IsPlaceholder(u[..m]) ensures false {
            SpanIs(u, 2, m - 1, IsWordChar);
          }
        }
        None
    else
      None
  }

  /** A placeholder starts at index `i` of `t`. */
  predicate PlaceholderAt(t: string, i: int) {
    0 <= i <= |t| && PlaceholderLength(t[i..]).Some?
  }

  ghost predicate HasPlaceholder(t: string) {
    exists i :: PlaceholderAt(t, i)
  }

  /**
   * `template.replace(/\${(\w+)}/g, (match, key) => context[key] || match)`:
   * scanning left to right, each placeholder becomes its context value when that
   * value is set and stays as it is otherwise; the scan resumes after the
   * placeholder, so inserted text is never scanned again.
   */
  function Substitute(t: string, context: Context): string
    decreases |t|
  {
    if t == [] then []
    else match PlaceholderLength(t)
      case Some(n) =>
        var key := t[2..n - 1];
        (if key in context && context[key] != "" then context[key] else t[..n])
          + Substitute(t[n..], context)
      case None => [t[0]] + Substitute(t[1..], context)
  }

  /** A template without any placeholder is returned as it is. */
  lemma {:induction false} NoPlaceholderUnchanged(t: string, context: Context)
    requires !HasPlaceholder(t)
    ensures Substitute(t, context) == t
    decreases |t|
  {
    if t != [] {
      assert t[0..] == t;
      assert !PlaceholderAt(t, 0);
      forall i | 0 <= i <= |t[1..]| ensures !PlaceholderAt(t[1..], i) {
        assert t[1..][i..] == t[i + 1..];
        assert !PlaceholderAt(t, i + 1);
      }
      NoPlaceholderUnchanged(t[1..], context);
    }
  }

  /** Under an empty context every placeholder is left verbatim, so any template is returned as it is. */
  lemma {:induction false} EmptyContextUnchanged(t: string)
    ensures Substitute(t, map[]) == t
    decreases |t|
  {
    if t != [] {
      match PlaceholderLength(t)
      case Some(n) =>
        EmptyContextUnchanged(t[n..]);
        assert t[..n] + t[n..] == t;
      case None =>
        EmptyContextUnchanged(t[1..]);
        assert [t[0]] + t[1..] == t;
    }
  }

  /**
   * A leading `${key}` becomes `context[key]` when that value is set and stays
   * verbatim otherwise; the rest is substituted on its own, so the inserted
   * value is not rescanned.
   */
  lemma SubstitutePlaceholder(key: string, rest: string, context: Context)
    requires |key| > 0 && forall k :: 0 <= k < |key| ==> IsWordChar(key[k])
    ensures Substitute("${" + key + "}" + rest, context)
      == (if key in context && context[key] != "" then context[key] else "${" + key + "}")
         + Substitute(rest, context)
  {
    var t := "${" + key + "}" + rest;
    var n := |key| + 3;
    SpanIs(t, 2, n - 1, IsWordChar);
    assert PlaceholderLength(t) == Some(n);
    assert t[2..n - 1] == key;
    assert t[..n] == "${" + key + "}";
    assert t[n..] == rest;
  }

  /** Single pass: a value that itself looks like a placeholder is inserted literally. */
  lemma SinglePassExample()
    ensures Substitute("${a}", map["a" := "${b}", "b" := "x"]) == "${b}"
  {
    var context := map["a" := "${b}", "b" := "x"];
    SubstitutePlaceholder("a", "", context);
    assert "${" + "a" + "}" + "" == "${a}";
  }

  const WelcomeId := "welcome"
  const CollectNameId := "collect_name"
  const CollectEmailId := "collect_email"
  const GetProductsId := "get_products"
  const ProductQAId := "question_and_answer_node_for_product_details"
  const ScheduleDemoId := "schedule_demo"
  const EndId := "end_conversation"

  const WelcomeNode := Node(
    WelcomeId, "Welcome message",
    "Hello! I'm your sales assistant. May I know your name?",
    [], [CollectEmailId, GetProductsId, ProductQAId], false, None)

  const CollectNameNode := Node(
    CollectNameId, "Collect name from user",
    "Nice to meet you, ${name}! What's your email address?",
    [], [CollectEmailId, GetProductsId, ProductQAId], false, None)

  const CollectEmailNode := Node(
    CollectEmailId, "Collect email from user",
    "Nice to meet you, ${name}! What's your email address?",
    ["name"], [GetProductsId], false, None)

  const GetProductsNode := Node(
    GetProductsId, "Get product details from user",
    "\n        What product are you interested in? We offer: \n"
    + "        1. Amazon EC2 (Elastic Compute Cloud)\n"
    + "        2. Amazon S3 (Simple Storage Service)\n"
    + "        3. Amazon RDS (Relational Database Service)\n"
    + "        4. Amazon DynamoDB\n"
    + "        5. Amazon Lambda (Function as a Service)\n"
    + "        ",
    ["name", "email"], [ProductQAId, ScheduleDemoId], false, None)

  const ProductQANode := Node(
    ProductQAId, "Answers any questions about the product, using RAG",
    "",
    ["name", "email"], [ScheduleDemoId, EndId, ProductQAId], true, Some(ProductDetails))

  const ScheduleDemoNode := Node(
    ScheduleDemoId, "Schedule a demo with the user",
    "success example:  I've scheduled a demo for you on {date} at {time}. "
    + "I'll send you a confirmation email to {email} shortly for the same. \n"
    + "failure example: Please provide your name and email so I can schedule the demo.",
    ["name", "email"], [EndId, ProductQAId, CollectNameId, CollectEmailId], false, Some(ScheduleDemo))

  const EndNode := Node(
    EndId, "End the conversation",
    "Thank you for using our service. Have a great day!",
    [], [], false, None)

  const NodeIds: set<string> :=
    {WelcomeId, CollectNameId, CollectEmailId, GetProductsId, ProductQAId, ScheduleDemoId, EndId}

  /** The registered nodes, keyed by id, as the service builds them at start-up. */
  function Graph(): map<string, Node> {
    map[WelcomeId := WelcomeNode,
        CollectNameId := CollectNameNode,
        CollectEmailId := CollectEmailNode,
        GetProductsId := GetProductsNode,
        ProductQAId := ProductQANode,
        ScheduleDemoId := ScheduleDemoNode,
        EndId := EndNode]
  }

  /** `getNode` over the table; an absent id (`undefined`) finds nothing. */
  function Lookup(id: Option<string>): Option<Node> {
    if id.Some? && id.value in Graph() then Some(Graph()[id.value]) else None
  }

  /** Exactly the seven registered ids find a node, and each node is stored under its own id. */
  lemma LookupRegistered(id: string)
    ensures Lookup(Some(id)).Some? <==> id in NodeIds
    ensures Lookup(Some(id)).Some? ==> Lookup(Some(id)).value.id == id
  {
  }

  /** The graph is closed: every candidate successor is itself a registered node. */
  lemma GraphClosed(id: string, next: string)
    requires id in Graph() && next in Graph()[id].nextNodes
    ensures next in Graph()
  {
  }

  /** `end_conversation` is the only node without candidate successors. */
  lemma OnlyEndIsTerminal(id: string)
    requires id in Graph()
    ensures Graph()[id].nextNodes == [] <==> id == EndId
  {
  }

  /**
   * Only the Q&A node (whose handler result replaces the suggestion) and the
   * demo node (whose handler result is a fallback) have handlers; basic nodes
   * have neither a handler nor the flag.
   */
  lemma HandlerTable(id: string)
    requires id in Graph()
    ensures Graph()[id].handler == Some(ProductDetails) <==> id == ProductQAId
    ensures Graph()[id].handler == Some(ScheduleDemo) <==> id == ScheduleDemoId
    ensures Graph()[id].consumeNodeResponse <==> id == ProductQAId
  {
  }

  /** The registry the conversation manager owns; `nodes` is filled once by the constructor. */
  class NodeService {
    var nodes: map<string, Node>

    /** Registers the seven nodes one `set` at a time. */
    constructor ()
      ensures nodes == Graph()
    {
      var m: map<string, Node> := map[];
      m := m[WelcomeId := WelcomeNode];
      m := m[CollectNameId := CollectNameNode];
      m := m[CollectEmailId := CollectEmailNode];
      m := m[GetProductsId := GetProductsNode];
      m := m[ProductQAId := ProductQANode];
      m := m[ScheduleDemoId := ScheduleDemoNode];
      m := m[EndId := EndNode];
      nodes := m;
    }

    /** `getNode`: the node registered under `id`, if any. */
    method GetNode(id: Option<string>) returns (r: Option<Node>)
      requires nodes == Graph()
      ensures r.Some? <==> id.Some? && id.value in NodeIds
      ensures r.Some? ==> r.value.id == id.value && r == Lookup(id)
      ensures r.None? ==> r == Lookup(id)
    {
      if id.Some? && id.value in nodes {
        r := Some(nodes[id.value]);
      } else {
        r := None;
      }
    }
  }
}
