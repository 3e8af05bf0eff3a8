/** The normalised messages of an imported conversation (agents/asset-import.ts:786-803). */
module ImportModel {
  import opened JsText
  import opened JsValue

  /** A role string; the import only distinguishes these. Other("") is the empty role. */
  datatype Role = User | Assistant | ToolCall | ToolResult | Other(name: Text)

  /** Absent string fields are empty: the source only tests them for truth. */
  datatype ImportMessage = ImportMessage(
    role: Role,
    content: Text,
    sourceKey: Option<Text>,
    ts: Option<JsNumber>,
    hasToolUse: bool,
    toolCallId: Text,
    toolName: Text,
    recIdx: Option<nat>,
    memRole: Option<Role>)

  /** An assistant message without tool use closes a round of dialogue. */
  predicate IsFinalAnswer(m: ImportMessage) {
    m.role == Assistant && !m.hasToolUse
  }

  /** The roles that make a round worth submitting. */
  predicate IsAgentSide(m: ImportMessage) {
    m.role in {Assistant, ToolCall, ToolResult}
  }

  predicate Spoken(r: Role) {
    r in {User, Assistant}
  }
}
