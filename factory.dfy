/** The choice of agent: `create_agent` picks a workflow variant from its argument and the environment. */
module Factory {
  import opened Wrappers
  import opened PyStr
  import opened Workflows

  /** Which workflow `create_agent` builds. */
  datatype Variant =
    | RagVariant           // RAGWorkflow(chat_history=...)
    | AgenticVariant       // build_agentic_workflow(RAGWorkflow(chat_history=...))
    | DefaultAgentVariant  // AgentWorkflow(chat_history=...)

  /** The variant together with the chat history it is built with. */
  datatype AgentChoice = AgentChoice(variant: Variant, chatHistory: Option<seq<ChatMessage>>)

  const RagWorkflowType: string := "rag"
  const DefaultWorkflowType: string := "agent"
  const AgenticExampleType: string := "agentic"

  /** `os.getenv("EXAMPLE_TYPE", "").lower()`, with `exampleTypeEnv` the variable's value when set. */
  function AgentType(exampleTypeEnv: Option<string>): (r: string)
    ensures exampleTypeEnv == None ==> r == ""
    ensures exampleTypeEnv.Some? ==> |r| == |exampleTypeEnv.value| && forall i :: 0 <= i < |r| ==> !('A' <= r[i] <= 'Z')
  {
    Lower(exampleTypeEnv.GetOr(""))
  }

  /** `create_agent`: `"rag"` wins; otherwise `agentic` in the environment selects the composition. */
  function CreateAgent(chatHistory: Option<seq<ChatMessage>>, workflowType: string, exampleTypeEnv: Option<string>): (r: AgentChoice)
    ensures r.chatHistory == chatHistory
    ensures workflowType == RagWorkflowType ==> r.variant == RagVariant
    ensures r.variant == AgenticVariant <==> workflowType != RagWorkflowType && AgentType(exampleTypeEnv) == AgenticExampleType
    ensures r.variant == DefaultAgentVariant <==> workflowType != RagWorkflowType && AgentType(exampleTypeEnv) != AgenticExampleType
  {
    var agentType := AgentType(exampleTypeEnv);
    if workflowType == RagWorkflowType then AgentChoice(RagVariant, chatHistory)
    else if agentType == AgenticExampleType then AgentChoice(AgenticVariant, chatHistory)
    else AgentChoice(DefaultAgentVariant, chatHistory)
  }

  /** `EXAMPLE_TYPE` is matched case-insensitively: any casing of `agentic` and nothing else. */
  lemma AgenticAnyCasing(history: Option<seq<ChatMessage>>, workflowType: string, env: string)
    requires workflowType != RagWorkflowType
    ensures CreateAgent(history, workflowType, Some(env)).variant == AgenticVariant <==> IsCasingOf(env, AgenticExampleType)
  {
    LowerEqualsIffCasing(env, AgenticExampleType);
  }

  /** An unset `EXAMPLE_TYPE` selects the default agent unless `"rag"` is asked for. */
  lemma UnsetExampleTypeSelectsDefault(history: Option<seq<ChatMessage>>, workflowType: string)
    requires workflowType != RagWorkflowType
    ensures CreateAgent(history, workflowType, None).variant == DefaultAgentVariant
  {
  }

  /** Every workflow type other than `"rag"` makes the same choice as the default `"agent"`. */
  lemma NonRagDefersToEnvironment(history: Option<seq<ChatMessage>>, workflowType: string, env: Option<string>)
    requires workflowType != RagWorkflowType
    ensures CreateAgent(history, workflowType, env) == CreateAgent(history, DefaultWorkflowType, env)
  {
  }
}
