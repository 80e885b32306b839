/**
 * Event sequences driven through the `Chatbot` model, as the browser would
 * deliver them, with what the widget shows at the end.
 */
module ChatbotScenarios {
  import opened Wrappers
  import JsText
  import opened ChatbotWidget

  /** A failed POST (network error, non-OK status or a body that is not
      JSON): after the fixed two seconds the connection apology is typed
      out in full in a new bubble, and the lock is released when the
      typewriter clears itself. */
  method ConnectionFailure(c: Chatbot)
    requires c.Valid() && c.request.Awaiting? && c.typewriter == Stopped
    modifies c
    ensures c.Valid()
    ensures c.transcript == old(c.transcript) + [Message(ConnectionTrouble, Bot)]
    ensures !c.isTyping && c.request == NoRequest && c.typewriter == Stopped
  {
    c.ResponseFail();
    assert c.request == Delayed(ConnectionTrouble, MinTypingDurationMs);
    c.DelayElapsed();
    ghost var shown := c.transcript;
    var firings := c.TypeToEnd();
    assert c.transcript == shown[|shown| - 1 := Message(ConnectionTrouble, Bot)];
  }

  /** A reply whose `response` field is empty falls through to `message`;
      a send attempted while that reply is being typed is ignored. */
  method EmptyResponseField(c: Chatbot, reply: string, retyped: string)
    requires c.Valid() && c.request.Awaiting? && c.typewriter == Stopped && c.isTyping
    requires reply != ""
    modifies c
    ensures c.Valid()
    ensures c.transcript == old(c.transcript) + [Message(reply, Bot)]
    ensures !c.isTyping && c.typewriter == Stopped
  {
    c.ResponseOk(Some(""), Some(reply), 0);
    assert c.request == Delayed(reply, MinTypingDurationMs);
    c.DelayElapsed();
    ghost var shown := c.transcript;
    c.Tick();
    c.InputChanged(retyped);
    var again := c.Send();
    assert !again;
    var firings := c.TypeToEnd();
    assert c.transcript == shown[|shown| - 1 := Message(reply, Bot)];
  }

  /** `clearChat` while a POST is in flight: the greeting's typewriter
      releases the lock although the request has not answered, so a new
      send is accepted while the first request is still pending. */
  method ClearChatDuringRequest(c: Chatbot, text: string) returns (second: bool)
    requires c.Valid() && c.request.Awaiting? && c.isTyping
    requires !JsText.AllWhite(text)
    modifies c
    ensures second
    ensures c.transcript == [Message(Greeting, Bot), Message(JsText.Trim(text), User)]
  {
    c.ClearChat();
    var firings := c.TypeToEnd();
    assert c.transcript == [Message(Greeting, Bot)];
    assert !c.isTyping && c.request == old(c.request);
    c.InputChanged(text);
    second := c.Send();
  }

  /** Opening and closing the window leaves it as it was and touches no
      other session state. */
  method ToggleTwice(c: Chatbot)
    requires c.Valid()
    modifies c
    ensures c.Valid()
    ensures unchanged(c)
  {
    c.Toggle();
    c.Toggle();
  }

  /** A `null` response body: the timeout's callback throws, so no reply is
      shown and the lock stays held; every later send is refused until a
      `clearChat` greeting finishes typing. */
  method NullBodyKeepsLock(c: Chatbot, retyped: string, elapsedMs: int) returns (again: bool)
    requires c.Valid() && c.request.Awaiting? && c.typewriter == Stopped && c.isTyping
    modifies c
    ensures !again
    ensures c.Valid() && c.isTyping && c.sendDisabled && c.request == Abandoned
    ensures c.transcript == old(c.transcript) && c.typewriter == Stopped
  {
    c.ResponseNullBody(elapsedMs);
    c.DelayElapsed();
    c.InputChanged(retyped);
    again := c.Send();
  }
}
