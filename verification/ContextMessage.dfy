/** Messages, budgets and collapse records of contextkit. */
module ContextMessage {
  import opened Wrappers

  datatype Role = RoleSystem | RoleUser | RoleAssistant | RoleTool | RoleOther(name: string)

  /** Metadata keys: the reserved `contextkit.*` keys and any other. */
  datatype Key =
    | KindKey            // contextkit.kind
    | CollapseIDKey      // contextkit.collapse_id
    | DroppedTotalKey    // contextkit.dropped_total
    | DroppedImagesKey   // contextkit.dropped_images
    | ToolProjectedKey   // contextkit.tool_projected
    | ToolOriginalKey    // contextkit.tool_original_chars
    | OtherKey(name: string)

  /** A metadata value: the two reserved kind texts, other text, a count, a number that went through JSON, a flag. */
  datatype Value = WindowSummary | CollapseSummary | Text(text: string) | Int(n: int) | Float(r: real) | Flag(b: bool)

  datatype Message = Message(id: string, role: Role, content: string, images: seq<string>,
                             toolName: string, toolCallID: string, status: string, ref: string,
                             metadata: map<Key, Value>)

  predicate IsSummary(m: Message) {
    KindKey in m.metadata && (m.metadata[KindKey] == WindowSummary || m.metadata[KindKey] == CollapseSummary)
  }

  function CollapseID(m: Message): Option<string> {
    if CollapseIDKey in m.metadata && m.metadata[CollapseIDKey].Text? && m.metadata[CollapseIDKey].text != ""
    then Some(m.metadata[CollapseIDKey].text) else None
  }

  /** Reads a count a summary carries; a float is truncated towards zero. */
  function MetadataInt(m: Message, key: Key): int {
    if key !in m.metadata then 0
    else match m.metadata[key]
      case Int(n) => n
      case Float(r) => if r >= 0.0 then r.Floor else -((-r).Floor)
      case _ => 0
  }

  datatype Collapse = Collapse(id: string, startIndex: int, endIndex: int, summary: Message,
                               originalIDs: seq<string>, originals: seq<Message>)

  datatype Budget = Budget(maxChars: int, maxTokens: int) {
    predicate Bounded() {
      maxChars > 0 || maxTokens > 0
    }

    predicate Fits(c: Cost) {
      (maxChars <= 0 || c.chars <= maxChars) && (maxTokens <= 0 || c.tokens <= maxTokens)
    }
  }

  datatype Cost = Cost(chars: int, tokens: int) {
    function Add(o: Cost): Cost {
      Cost(chars + o.chars, tokens + o.tokens)
    }
  }

  const NO_COST := Cost(0, 0)
}
