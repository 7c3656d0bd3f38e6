/**
 * The canned replies the browser shows when the AI service cannot answer:
 * one per node type, one per catalogue product on the Q&A node, a generic Q&A
 * reply and an apology for everything else.
 */
module FallbackResponses {
  import opened Wrappers

  const WelcomeReply :=
    "Hello! I'm your AWS sales assistant. I can help you find the right AWS products for your needs. What's your name?"
  const CollectNameReply :=
    "Nice to meet you! Could you please tell me your email address so I can follow up with you?"
  const CollectEmailReply :=
    "Thank you for providing your email. What AWS products are you interested in? We offer EC2, S3, RDS, DynamoDB, and Lambda."
  const GetProductsReply :=
    "Great choice! What would you like to know about these products?"
  const ScheduleDemoReply :=
    "I'd be happy to schedule a demo for you. When would be a good time? Please provide a date and time that works for you."
  const ErrorReply :=
    "I apologize, but I encountered an issue. Please try again or ask a different question."
  const GenericQAReply :=
    "I'd be happy to answer your questions about AWS products. What specific information are you looking for?"

  const Ec2Reply :=
    "Amazon EC2 (Elastic Compute Cloud) provides resizable compute capacity in the cloud. EC2 pricing is based on several factors:\n\n1. Instance type (CPU, memory, storage)\n2. Region\n3. Operating system\n4. Purchase option (On-Demand, Reserved, Spot)\n5. Data transfer\n\nOn-Demand instances are billed by the second with no long-term commitments. Reserved Instances offer significant discounts (up to 72%) for 1 or 3-year terms. Spot Instances allow you to bid on unused EC2 capacity for up to 90% off the On-Demand price."
  const S3Reply :=
    "Amazon S3 (Simple Storage Service) is object storage built to store and retrieve any amount of data. S3 offers a range of storage classes designed for different use cases:\n\n1. S3 Standard - for frequently accessed data\n2. S3 Intelligent-Tiering - for data with unknown or changing access patterns\n3. S3 Standard-IA - for infrequently accessed data\n4. S3 One Zone-IA - for infrequently accessed data that doesn't require multiple Availability Zone resilience\n5. S3 Glacier - for long-term archive and digital preservation\n6. S3 Glacier Deep Archive - for long-term archive and digital preservation at the lowest cost"
  const RdsReply :=
    "Amazon RDS (Relational Database Service) makes it easy to set up, operate, and scale a relational database in the cloud. RDS supports multiple database engines including MySQL, PostgreSQL, MariaDB, Oracle, and SQL Server.\n\nRDS Multi-AZ deployments provide enhanced availability and durability by automatically provisioning and maintaining a synchronous standby replica in a different Availability Zone. In case of infrastructure failure, RDS automatically fails over to the standby without manual intervention."
  const DynamoDbReply :=
    "Amazon DynamoDB is a fully managed NoSQL database service that provides fast and predictable performance with seamless scalability. Unlike traditional SQL databases, DynamoDB uses a key-value data model with optional document support.\n\nIn DynamoDB, partition keys are used to distribute data across partitions for scalability, while sort keys allow you to sort data within a partition. This combination enables efficient queries and helps organize related data together."
  const LambdaReply :=
    "AWS Lambda is a serverless compute service that lets you run code without provisioning or managing servers. Lambda supports multiple programming languages including Node.js, Python, Java, Go, Ruby, and .NET.\n\nTo handle Lambda cold starts (the latency that occurs when a new execution environment is created), you can use provisioned concurrency, which keeps functions initialized and ready to respond. You can also optimize your code by minimizing dependencies and using efficient programming practices."

  /** The per-product replies of the Q&A node, by product id. */
  const ProductReplies: map<string, string> :=
    map["ec2" := Ec2Reply, "s3" := S3Reply, "rds" := RdsReply, "dynamodb" := DynamoDbReply, "lambda" := LambdaReply]

  /** The node types with a reply of their own, other than the Q&A node. */
  const NodeReplies: map<string, string> :=
    map["welcome" := WelcomeReply, "collect_name" := CollectNameReply, "collect_email" := CollectEmailReply,
        "get_products" := GetProductsReply, "schedule_demo" := ScheduleDemoReply]

  const QANodeType := "question_and_answer_node_for_product_details"

  /** The property names every object literal inherits from `Object.prototype`; `in` reports them too. */
  const InheritedKeys: set<string> :=
    {"constructor", "__proto__", "toString", "toLocaleString", "valueOf", "hasOwnProperty",
     "isPrototypeOf", "propertyIsEnumerable", "__defineGetter__", "__defineSetter__",
     "__lookupGetter__", "__lookupSetter__"}

  /** What a property read returns: one of the table's strings, or an inherited function or object. */
  datatype JsValue = Str(text: string) | Inherited(key: string)

  /**
   * `getFallbackResponse` as written: on the Q&A node, `productId in table`
   * also holds for inherited names, and the read then yields a function (or,
   * for `__proto__`, the prototype object) instead of a string.
   */
  function GetFallbackResponseAsWritten(nodeType: Option<string>, productId: Option<string>): JsValue {
    if nodeType.Some? && nodeType.value in NodeReplies then Str(NodeReplies[nodeType.value])
    else if nodeType == Some(QANodeType) then
      if Truthy(productId) && productId.value in ProductReplies then Str(ProductReplies[productId.value])
      else if Truthy(productId) && productId.value in InheritedKeys then Inherited(productId.value)
      else Str(GenericQAReply)
    else Str(ErrorReply)
  }

  /** A product id such as `toString` makes the as-written lookup return a non-string. */
  lemma InheritedKeyLeaks()
    ensures GetFallbackResponseAsWritten(Some(QANodeType), Some("toString")) == Inherited("toString")
    ensures !GetFallbackResponseAsWritten(Some(QANodeType), Some("toString")).Str?
  {
  }

  /**
   * `getFallbackResponse` reading only the table's own products: every node
   * type gets its own reply, the Q&A node its product's reply or the generic
   * one, anything else (including no node, and `end_conversation`) the apology.
   */
  function GetFallbackResponse(nodeType: Option<string>, productId: Option<string>): (r: string)
    ensures |r| > 0
    ensures nodeType.Some? && nodeType.value in NodeReplies ==> r == NodeReplies[nodeType.value]
    ensures nodeType == Some(QANodeType) ==>
              r == (if productId.Some? && productId.value in ProductReplies then ProductReplies[productId.value]
                    else GenericQAReply)
    ensures (nodeType.None? || (nodeType.value !in NodeReplies && nodeType.value != QANodeType)) ==> r == ErrorReply
  {
    if nodeType.Some? && nodeType.value in NodeReplies then NodeReplies[nodeType.value]
    else if nodeType == Some(QANodeType) then
      if productId.Some? && productId.value in ProductReplies then ProductReplies[productId.value]
      else GenericQAReply
    else ErrorReply
  }

  /**
   * The corrected lookup agrees with the code as written on every input except
   * an inherited property name as product id on the Q&A node.
   */
  lemma CorrectionOnlyChangesInheritedKeys(nodeType: Option<string>, productId: Option<string>)
    ensures GetFallbackResponseAsWritten(nodeType, productId).Str? ==>
              GetFallbackResponseAsWritten(nodeType, productId) == Str(GetFallbackResponse(nodeType, productId))
    ensures GetFallbackResponseAsWritten(nodeType, productId).Inherited? <==>
              nodeType == Some(QANodeType) && productId.Some? && productId.value in InheritedKeys
  {
    assert "end_conversation" !in NodeReplies;
  }

  /** `end_conversation` has no reply of its own: it falls to the apology. */
  lemma EndGetsApology(productId: Option<string>)
    ensures GetFallbackResponse(Some("end_conversation"), productId) == ErrorReply
  {
    assert "end_conversation" !in NodeReplies;
  }
}
