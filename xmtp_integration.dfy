/** The group listener: every message of the conversation's stream goes to the handler, in order. */
module XmtpIntegration {
  import opened Workflows

  /**
   * `listen_to_group_chat` over a finite stream: `await message_handler(sender, content)`
   * for each message in arrival order.
   */
  method ListenToGroupChat(workflow: AgentWorkflow, stream: seq<InboundMessage>)
    requires workflow.hasXmtpClient
    modifies workflow`sent
    ensures workflow.sent == old(workflow.sent)
      + Replies(workflow.agentAddress, workflow.groupId, workflow.rag, stream)
  {
    var i := 0;
    while i < |stream|
      invariant 0 <= i <= |stream|
      invariant workflow.sent == old(workflow.sent)
        + Replies(workflow.agentAddress, workflow.groupId, workflow.rag, stream[..i])
    {
      var message := stream[i];
      workflow.HandleGroupMessage(message.sender, message.content);
      assert stream[..i + 1][..i] == stream[..i];
      i := i + 1;
    }
    assert stream[..i] == stream;
  }
}
