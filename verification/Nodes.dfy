/** The nodes of the conversation tree (core/node.go, core/callrecord.go). */
module Nodes {
  import opened Wrappers
  import opened Messages
  import StreamStrings

  /** Where a node lives: the model's stand-in for the pointer to it. */
  type Ref = nat

  type Field = StreamStrings.Field

  function Finished(value: string): Field {
    StreamStrings.Finished(value)
  }

  /** `blob` is the base64 a blob reference reads back as, when there is one that reads. */
  datatype Content =
    | TextContent(text: string)
    | ImageContent(mediaType: string, src: string, inline: string, blob: Option<string>)

  datatype Dialect = Auto | OpenAI | Anthropic | Responses | Completions

  /** The call a result answers: a node of the tree, or a node a flat tool message brought along. */
  datatype CallLink = Linked(ref: Ref, linkedId: string) | Detached(detachedId: string) | NoCall

  /** An opaque reasoning payload is its exact wire text; "" stands for the nil one. */
  datatype Body =
    | UserBody(content: seq<Content>)
    | SystemBody(content: seq<Content>)
    | AssistantBody(text: Field)
    | ThinkingBody(thought: Field, signature: string, encrypted: string, redacted: string, itemId: string,
                   details: string, raw: bool, dialect: Dialect)
    | ToolCallBody(callId: string, name: string, arguments: Field)
    | ToolResultBody(answers: CallLink, content: seq<Content>, isError: bool, omitted: string)
    | CompactionBody(summary: Field, previous: Option<Ref>)
    | RawBlockBody(blockType: string, json: string)
    | ExtensionBody

  /** `call` is the record number, where there is one. */
  datatype Node = Node(ref: Ref, id: string, generatedId: bool, kind: string, call: Option<nat>, superseded: bool, body: Body) {
    function HostId(): string {
      if generatedId then "" else id
    }

    predicate ModelOutput() {
      body.AssistantBody? || body.ThinkingBody? || body.ToolCallBody? || body.RawBlockBody?
    }

    /** A call that requests still carry. */
    predicate LiveCall() {
      body.ToolCallBody? && !superseded
    }

    predicate LinkedResult() {
      body.ToolResultBody? && body.answers.Linked?
    }
  }

  /** A node that has no place yet. */
  function Fresh(id: string, kind: string, call: Option<nat>, body: Body): Node {
    Node(0, id, false, kind, call, false, body)
  }

  /** The nodes read alike in a request: they differ at most in where they live and in an id the tree made up. */
  predicate Alike(a: Node, b: Node) {
    a.HostId() == b.HostId() && a.kind == b.kind && a.call == b.call && a.superseded == b.superseded && a.body == b.body
  }

  predicate AllAlike(p: seq<Node>, q: seq<Node>) {
    |p| == |q| && forall i :: 0 <= i < |p| ==> Alike(p[i], q[i])
  }

  const CompactionKind := "compaction"
}
