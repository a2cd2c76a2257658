/** The stored workflow graph: nodes, port-qualified connections, and the node-type enumeration. */
module Graph {
  import opened Json

  /** The node types the engine knows (the generated database enumeration). */
  datatype NodeType =
    | INITIAL | MANUAL_TRIGGER | HTTP_REQUEST | GOOGLE_FORM_TRIGGER | STRIPE_TRIGGER
    | GEMINI | ANTHROPIC | OPENAI | DISCORD | SLACK
    | WHATSAPP | WHATSAPP_TRIGGER | TELEGRAM | TELEGRAM_TRIGGER | GITHUB | GITHUB_TRIGGER
    | CONDITION | EMAIL | CRON_TRIGGER | WEBHOOK | EMAIL_TRIGGER
  {
    /** The enumeration literal as it appears in error messages. */
    function Name(): string {
      match this
      case INITIAL => "INITIAL"
      case MANUAL_TRIGGER => "MANUAL_TRIGGER"
      case HTTP_REQUEST => "HTTP_REQUEST"
      case GOOGLE_FORM_TRIGGER => "GOOGLE_FORM_TRIGGER"
      case STRIPE_TRIGGER => "STRIPE_TRIGGER"
      case GEMINI => "GEMINI"
      case ANTHROPIC => "ANTHROPIC"
      case OPENAI => "OPENAI"
      case DISCORD => "DISCORD"
      case SLACK => "SLACK"
      case WHATSAPP => "WHATSAPP"
      case WHATSAPP_TRIGGER => "WHATSAPP_TRIGGER"
      case TELEGRAM => "TELEGRAM"
      case TELEGRAM_TRIGGER => "TELEGRAM_TRIGGER"
      case GITHUB => "GITHUB"
      case GITHUB_TRIGGER => "GITHUB_TRIGGER"
      case CONDITION => "CONDITION"
      case EMAIL => "EMAIL"
      case CRON_TRIGGER => "CRON_TRIGGER"
      case WEBHOOK => "WEBHOOK"
      case EMAIL_TRIGGER => "EMAIL_TRIGGER"
    }
  }

  datatype Node = Node(id: string, nodeType: NodeType, data: Value)

  /** An edge from an output port (`fromOutput`) of one node to another node. */
  datatype Connection = Connection(fromNodeId: string, toNodeId: string, fromOutput: string)

  datatype Workflow = Workflow(id: string, userId: string, nodes: seq<Node>, connections: seq<Connection>)

  /** The set of ids of a node list. */
  function NodeIds(nodes: seq<Node>): set<string> {
    set n | n in nodes :: n.id
  }

  /** The ids of a node list, in order. */
  function IdSeq(nodes: seq<Node>): (ids: seq<string>)
    ensures |ids| == |nodes|
    ensures forall k | 0 <= k < |nodes| :: ids[k] == nodes[k].id
  {
    seq(|nodes|, k requires 0 <= k < |nodes| => nodes[k].id)
  }

  /** No element occurs twice. */
  predicate Distinct<T(==)>(xs: seq<T>) {
    forall i, j | 0 <= i < j < |xs| :: xs[i] != xs[j]
  }
}
