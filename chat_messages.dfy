/**
 * The client-local chat session (client/src/hooks/useChatMessages.ts): a
 * message list that only grows at its end, the sending/error flags, and the
 * keyword reply the hook answers with.
 */
module ChatMessages {
  import opened Wrappers
  import opened Text

  /** A message of the local session; `createdAt` is an ISO timestamp supplied by the caller. */
  datatype SessionMessage = SessionMessage(role: string, content: string, createdAt: string, sessionId: string)

  const GreetingReply: string := "Hello! How can I assist you with your document today?"
  const ImpactReply: string := "I can help analyze the impact of your document. Please upload or describe your document."
  const ThanksReply: string := "You're welcome! Let me know if you have more questions."
  const HelpReply: string := "I'm here to help! Please provide more details or ask a specific question."

  predicate Greets(lower: string) {
    Contains(lower, "hello") || Contains(lower, "hi")
  }

  predicate Thanks(lower: string) {
    Contains(lower, "thanks") || Contains(lower, "thank you")
  }

  /** The four replies differ from one another. */
  lemma RepliesDistinct()
    ensures GreetingReply != ImpactReply && GreetingReply != ThanksReply && GreetingReply != HelpReply
    ensures ImpactReply != ThanksReply && ImpactReply != HelpReply && ThanksReply != HelpReply
  {
    assert GreetingReply[|GreetingReply| - 1] == '?';
    assert ImpactReply[|ImpactReply| - 2] == 't';
    assert ThanksReply[|ThanksReply| - 2] == 's';
    assert HelpReply[|HelpReply| - 2] == 'n';
  }

  /**
   * `getAIResponse`: on the lower-cased message, a greeting wins over
   * "impact", which wins over thanks; with none of them, the help text.
   */
  function GetAIResponse(userMessage: string): (r: string)
    ensures var lower := ToLower(userMessage);
            && (r == GreetingReply <==> Greets(lower))
            && (r == ImpactReply <==> !Greets(lower) && Contains(lower, "impact"))
            && (r == ThanksReply <==> !Greets(lower) && !Contains(lower, "impact") && Thanks(lower))
            && (r == HelpReply <==> !Greets(lower) && !Contains(lower, "impact") && !Thanks(lower))
  {
    var lower := ToLower(userMessage);
    RepliesDistinct();
    if Greets(lower) then GreetingReply
    else if Contains(lower, "impact") then ImpactReply
    else if Thanks(lower) then ThanksReply
    else HelpReply
  }

  /** The reply does not depend on the message's letter case. */
  lemma GetAIResponseIgnoresCase(userMessage: string)
    ensures GetAIResponse(ToLower(userMessage)) == GetAIResponse(userMessage)
  {
    ToLowerIdempotent(userMessage);
  }

  /**
   * The greeting test is a substring test, so "hi" inside another word
   * ("this", "think") answers a question about impact with the greeting.
   */
  lemma GreetingInsideWordShadowsImpact()
    ensures GetAIResponse("Think about the impact") == GreetingReply
  {
    var message := "Think about the impact";
    var lower := ToLower(message);
    assert lower[1] == LowerChar(message[1]) == 'h';
    assert lower[2] == LowerChar(message[2]) == 'i';
    assert lower[1..3] == "hi";
    assert OccursAt(lower, "hi", 1);
  }

  class ChatSession {
    const sessionId: string
    var messages: seq<SessionMessage>
    var isSending: bool
    var isLoading: bool
    var error: Option<string>

    constructor (sessionId: string)
      ensures this.sessionId == sessionId
      ensures messages == [] && !isSending && !isLoading && error == None
    {
      this.sessionId := sessionId;
      messages := [];
      isSending := false;
      isLoading := false;
      error := None;
    }

    /** The first half of `sendMessage`: mark sending, clear the error, append the user's message. */
    method BeginSend(content: string, sentAt: string)
      modifies this
      ensures messages == old(messages) + [SessionMessage("user", content, sentAt, sessionId)]
      ensures isSending && error == None && isLoading == old(isLoading)
    {
      isSending := true;
      error := None;
      var userMsg := SessionMessage("user", content, sentAt, sessionId);
      messages := messages + [userMsg];
    }

    /** The second half of `sendMessage`: append the reply to `content` and clear the sending flag. */
    method FinishSend(content: string, repliedAt: string)
      modifies this
      ensures messages == old(messages) + [SessionMessage("assistant", GetAIResponse(content), repliedAt, sessionId)]
      ensures !isSending && error == old(error) && isLoading == old(isLoading)
    {
      var aiResponse := SessionMessage("assistant", GetAIResponse(content), repliedAt, sessionId);
      messages := messages + [aiResponse];
      isSending := false;
    }

    /**
     * `sendMessage(content)`: exactly two messages are appended, the user's
     * and then the reply, earlier messages stay as they were, and the
     * session ends not sending and without an error.
     */
    method SendMessage(content: string, sentAt: string, repliedAt: string)
      modifies this
      ensures messages == old(messages) + [SessionMessage("user", content, sentAt, sessionId),
                                          SessionMessage("assistant", GetAIResponse(content), repliedAt, sessionId)]
      ensures messages[..|old(messages)|] == old(messages)
      ensures !isSending && error == None && isLoading == old(isLoading)
    {
      BeginSend(content, sentAt);
      FinishSend(content, repliedAt);
    }
  }
}
