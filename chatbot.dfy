/**
 * The session logic of the `Chatbot` widget class. Each point where
 * `chatbot.js` hands control to the browser (the `fetch` promise, the
 * `setTimeout` before the reveal, each `setInterval` firing) is an event
 * method here; the environment calls them in the order the browser would.
 */
module ChatbotWidget {
  import opened Wrappers
  import JsText
  import Typewriter

  datatype Sender = User | Bot

  /** One bubble in the messages container: its visible text and its sender. */
  datatype Message = Message(text: string, sender: Sender)

  /** The request pipeline started by an accepted send. */
  datatype Request =
    | NoRequest
    | Awaiting(url: string, message: string)   // the POST is in flight
    | Delayed(reply: string, delayMs: int)     // the reply waits for its timeout
    | DelayedNullBody(delayMs: int)            // the body was `null`; its timeout will throw
    | Abandoned                                // the timeout threw: nothing will release the lock

  /** The single typewriter reveal: its full text, the bubble it writes
      into, and the interval closure's progress. */
  datatype Typewriting =
    | Stopped
    | Typing(text: string, slot: nat, progress: Typewriter.Progress)

  const DefaultApiUrl: string := "http://127.0.0.1:8000/chat"
  const MinTypingDurationMs: int := 2000
  const NotUnderstood: string := "Sorry, I didn't understand that."
  const ConnectionTrouble: string := "Sorry, I'm having trouble connecting right now. Please try again later."
  const Greeting: string := "Hello! I'm CICR Assistant. How can I help you today?"

  /** JavaScript truthiness of a string-valued JSON field: present and non-empty. */
  predicate Truthy(v: Option<string>)
  {
    v.Some? && v.value != ""
  }

  /** JavaScript `a || b` where `a` is an optional string. */
  function Or(a: Option<string>, b: string): (r: string)
  {
    if Truthy(a) then a.value else b
  }

  /** The text of a successful reply: `data.response || data.message ||`
      the not-understood apology. */
  function SelectReply(response: Option<string>, message: Option<string>): (r: string)
    ensures r != ""
    ensures Truthy(response) ==> r == response.value
    ensures !Truthy(response) && Truthy(message) ==> r == message.value
    ensures !Truthy(response) && !Truthy(message) ==> r == NotUnderstood
  {
    Or(response, Or(message, NotUnderstood))
  }

  /** `Math.max(0, minTypingDuration - elapsedTime)`: never negative, tops the
      elapsed time up to the two-second floor, and adds nothing once it is met. */
  function RemainingTime(elapsedMs: int): (r: int)
    ensures 0 <= r
    ensures elapsedMs + r >= MinTypingDurationMs
    ensures r > 0 ==> elapsedMs + r == MinTypingDurationMs
    ensures elapsedMs >= 0 ==> r <= MinTypingDurationMs
  {
    if MinTypingDurationMs - elapsedMs > 0 then MinTypingDurationMs - elapsedMs else 0
  }

  /** When the reply's timeout fires, on the clock of `Date.now()`: both
      readings are taken after the response has arrived, so the reply is
      shown no earlier than two seconds after its arrival, and exactly two
      seconds after the start reading unless the clock had already passed
      that point. */
  lemma ReplyShownTwoSecondsAfterArrival(arrivalMs: int, typingStartMs: int, nowMs: int)
    requires arrivalMs <= typingStartMs <= nowMs
    ensures nowMs + RemainingTime(nowMs - typingStartMs) >= arrivalMs + MinTypingDurationMs
    ensures nowMs + RemainingTime(nowMs - typingStartMs)
         == if nowMs >= typingStartMs + MinTypingDurationMs then nowMs else typingStartMs + MinTypingDurationMs
  {
  }

  /** `handleInputChange`'s value for `sendButton.disabled`: disabled exactly
      when the input is blank after trimming or a reply is in progress. */
  function ButtonDisabled(input: string, isTyping: bool): (d: bool)
    ensures d <==> JsText.AllWhite(input) || isTyping
  {
    !(|JsText.Trim(input)| > 0) || isTyping
  }

  /** The guard of `sendMessage`: a send goes ahead exactly when the input
      holds a non-white character and no reply is in progress. */
  function SendAccepted(input: string, isTyping: bool): (ok: bool)
    ensures ok <==> !JsText.AllWhite(input) && !isTyping
    ensures ok <==> !ButtonDisabled(input, isTyping)
  {
    var message := JsText.Trim(input);
    !(message == "" || isTyping)
  }

  class Chatbot {
    var isOpen: bool
    var isTyping: bool
    var apiUrl: string
    var input: string              // messageInput.value
    var sendDisabled: bool         // sendButton.disabled
    var transcript: seq<Message>   // the bubbles of messagesContainer, in order
    var request: Request
    var typewriter: Typewriting

    /** The widget's invariant: the revealing bubble shows a prefix of its
        text, the button is disabled while the lock is held, and the lock is
        held only while a typewriter runs or a request has been started
        (one that may have been abandoned with the lock still held). */
    ghost predicate Valid()
      reads this
    {
      && (typewriter.Typing? ==>
            && typewriter.slot < |transcript|
            && Typewriter.Consistent(typewriter.text, typewriter.progress)
            && transcript[typewriter.slot] == Message(typewriter.progress.shown, Bot))
      && (isTyping ==> sendDisabled)
      && (isTyping ==> !request.NoRequest? || typewriter.Typing?)
    }

    /** The button shows what `handleInputChange` would compute from the
        current input and lock (see ButtonDisabled). */
    predicate ButtonInSync()
      reads this
    {
      sendDisabled <==> JsText.AllWhite(input) || isTyping
    }

    /** `new Chatbot()` over a page whose messages container already holds
        `page`, whose input holds `initialInput` and whose send button has
        the `disabled` state `buttonDisabled`. */
    constructor (page: seq<Message>, initialInput: string, buttonDisabled: bool)
      ensures Valid()
      ensures !isOpen && !isTyping && apiUrl == DefaultApiUrl
      ensures transcript == page && input == initialInput && sendDisabled == buttonDisabled
      ensures request == NoRequest && typewriter == Stopped
    {
      isOpen := false;
      isTyping := false;
      apiUrl := DefaultApiUrl;
      transcript := page;
      input := initialInput;
      sendDisabled := buttonDisabled;
      request := NoRequest;
      typewriter := Stopped;
    }

    /** `toggleChat`: flips whether the window is open, and nothing else. */
    method Toggle()
      requires Valid()
      modifies this`isOpen
      ensures Valid()
      ensures isOpen == !old(isOpen)
    {
      isOpen := !isOpen;
    }

    /** `handleInputChange`: the button is disabled exactly when the input
        is blank after trimming or a reply is in progress. */
    method HandleInputChange()
      modifies this`sendDisabled
      ensures ButtonInSync()
    {
      sendDisabled := ButtonDisabled(input, isTyping);
    }

    /** The `input` event: the field now holds `value`, and the button is
        recomputed from it. */
    method InputChanged(value: string)
      requires Valid()
      modifies this`input, this`sendDisabled
      ensures Valid() && ButtonInSync()
      ensures input == value
    {
      input := value;
      HandleInputChange();
    }

    /** The synchronous part of `sendMessage`, up to the `fetch` call. A
        rejected send changes nothing; an accepted one adds the trimmed text
        as a user bubble, empties the input, takes the lock, disables the
        button and posts the trimmed text to the current endpoint. */
    method Send() returns (accepted: bool)
      requires Valid()
      modifies this`transcript, this`input, this`sendDisabled, this`isTyping, this`request
      ensures Valid()
      ensures accepted <==> !JsText.AllWhite(old(input)) && !old(isTyping)
      ensures !accepted ==> unchanged(this)
      ensures accepted ==> transcript == old(transcript) + [Message(JsText.Trim(old(input)), User)]
      ensures accepted ==> input == "" && isTyping && sendDisabled && ButtonInSync()
      ensures accepted ==> request == Awaiting(apiUrl, JsText.Trim(old(input)))
    {
      accepted := SendAccepted(input, isTyping);
      if accepted {
        Post(JsText.Trim(input));
      }
    }

    /** What an accepted send does with the trimmed `message`: shows it as a
        user bubble (`addMessage`), empties the input, recomputes the button,
        shows the typing indicator and starts the POST. */
    method Post(message: string)
      requires Valid() && !isTyping
      modifies this`transcript, this`input, this`sendDisabled, this`isTyping, this`request
      ensures Valid()
      ensures transcript == old(transcript) + [Message(message, User)]
      ensures input == "" && isTyping && sendDisabled && ButtonInSync()
      ensures request == Awaiting(apiUrl, message)
    {
      transcript := transcript + [Message(message, User)];
      input := "";
      HandleInputChange();
      ShowTypingIndicator();
      request := Awaiting(apiUrl, message);
    }

    /** `showTypingIndicator`, as far as the session is concerned: takes the
        lock and disables the button. */
    method ShowTypingIndicator()
      modifies this`isTyping, this`sendDisabled
      ensures isTyping && sendDisabled && ButtonInSync()
    {
      isTyping := true;
      sendDisabled := true;
    }

    /** The POST answered with an OK status and a JSON body whose `response`
        and `message` fields are given; `elapsedMs` is the difference of the
        two clock readings taken after the body was parsed. The reply waits
        `RemainingTime(elapsedMs)` before it is shown; the lock stays held. */
    method ResponseOk(response: Option<string>, message: Option<string>, elapsedMs: int)
      requires Valid() && request.Awaiting?
      modifies this`request
      ensures Valid()
      ensures request == Delayed(SelectReply(response, message), RemainingTime(elapsedMs))
    {
      request := Delayed(SelectReply(response, message), RemainingTime(elapsedMs));
    }

    /** The POST answered with an OK status and the JSON body `null`. The
        clock readings and the timeout go ahead as for any body; reading
        `data.response` will throw when the timeout fires. */
    method ResponseNullBody(elapsedMs: int)
      requires Valid() && request.Awaiting?
      modifies this`request
      ensures Valid()
      ensures request == DelayedNullBody(RemainingTime(elapsedMs))
    {
      request := DelayedNullBody(RemainingTime(elapsedMs));
    }

    /** The POST failed: a network error, a non-OK status or a body that is
        not JSON. The connection apology waits the full two seconds. */
    method ResponseFail()
      requires Valid() && request.Awaiting?
      modifies this`request
      ensures Valid()
      ensures request == Delayed(ConnectionTrouble, MinTypingDurationMs)
    {
      request := Delayed(ConnectionTrouble, MinTypingDurationMs);
    }

    /** The timeout before the reveal fired: the indicator is hidden (which
        leaves the lock alone), an empty bot bubble is added and the
        typewriter starts on the reply. After a `null` body the callback
        throws on `data.response` outside the `try`: no bubble, no
        typewriter, and the lock stays held. */
    method DelayElapsed()
      requires Valid() && (request.Delayed? || request.DelayedNullBody?)
      modifies this`request, this`transcript, this`typewriter
      ensures Valid()
      ensures old(request).Delayed? ==>
        && request == NoRequest
        && transcript == old(transcript) + [Message("", Bot)]
        && typewriter == Typing(old(request).reply, |old(transcript)|, Typewriter.Start())
      ensures old(request).DelayedNullBody? ==>
        request == Abandoned && transcript == old(transcript) && typewriter == old(typewriter)
    {
      if request.Delayed? {
        var reply := request.reply;
        request := NoRequest;
        StartTypewriter(reply);
      } else {
        request := Abandoned;
      }
    }

    /** `addMessageWithTypewriter(text, 'bot')`: a new empty bot bubble at
        the end, and a fresh typewriter over `text` writing into it. */
    method StartTypewriter(text: string)
      modifies this`transcript, this`typewriter
      ensures transcript == old(transcript) + [Message("", Bot)]
      ensures typewriter == Typing(text, |old(transcript)|, Typewriter.Start())
    {
      typewriter := Typing(text, |transcript|, Typewriter.Start());
      transcript := transcript + [Message("", Bot)];
    }

    /** One firing of the typewriter interval. While characters remain it
        appends the next one to the bubble; on the first firing with none
        left it clears the interval, releases the lock and recomputes the
        button. */
    method Tick()
      requires Valid() && typewriter.Typing?
      modifies this`transcript, this`typewriter, this`isTyping, this`sendDisabled
      ensures Valid()
      ensures old(typewriter.progress.index) < |old(typewriter.text)| ==>
        typewriter == old(typewriter).(progress := Typewriter.Progress(old(typewriter.progress.index) + 1,
                                                              old(typewriter.text)[..old(typewriter.progress.index) + 1]))
      ensures old(typewriter.progress.index) < |old(typewriter.text)| ==>
        transcript == old(transcript)[old(typewriter.slot) := Message(old(typewriter.text)[..old(typewriter.progress.index) + 1], Bot)]
      ensures old(typewriter.progress.index) < |old(typewriter.text)| ==>
        isTyping == old(isTyping) && sendDisabled == old(sendDisabled)
      ensures old(typewriter.progress.index) >= |old(typewriter.text)| ==>
        typewriter == Stopped && transcript == old(transcript) && !isTyping && ButtonInSync()
    {
      match Typewriter.Tick(typewriter.text, typewriter.progress)
      case Typed(next) =>
        transcript := transcript[typewriter.slot := Message(next.shown, Bot)];
        typewriter := typewriter.(progress := next);
      case Finished =>
        typewriter := Stopped;
        isTyping := false;
        HandleInputChange();
    }

    /** The interval firing until it clears itself: it fires once per
        remaining character and once more, leaves the whole text in its
        bubble and releases the lock. */
    method TypeToEnd() returns (firings: nat)
      requires Valid() && typewriter.Typing?
      modifies this`transcript, this`typewriter, this`isTyping, this`sendDisabled
      ensures Valid()
      ensures firings == |old(typewriter.text)| - old(typewriter.progress.index) + 1
      ensures typewriter == Stopped && !isTyping && ButtonInSync()
      ensures transcript == old(transcript)[old(typewriter.slot) := Message(old(typewriter.text), Bot)]
      ensures old(typewriter.progress) == Typewriter.Start() ==>
        && Typewriter.Run(old(typewriter.text), firings).Finished?
        && !Typewriter.Run(old(typewriter.text), firings - 1).Finished?
    {
      ghost var text, slot, start := typewriter.text, typewriter.slot, typewriter.progress.index;
      firings := 0;
      while typewriter.Typing?
        invariant Valid()
        invariant typewriter.Typing? ==> typewriter.text == text && typewriter.slot == slot
        invariant typewriter.Typing? ==> firings == typewriter.progress.index - start
        invariant typewriter == Stopped ==> firings == |text| - start + 1 && !isTyping && ButtonInSync()
        invariant typewriter.Typing? ==>
          transcript == old(transcript)[slot := Message(text[..typewriter.progress.index], Bot)]
        invariant typewriter == Stopped ==> transcript == old(transcript)[slot := Message(text, Bot)]
        decreases if typewriter.Typing? then |typewriter.text| - typewriter.progress.index + 1 else 0
      {
        assert text[..|text|] == text;
        Tick();
        firings := firings + 1;
      }
      Typewriter.RunFinishes(text, firings);
      Typewriter.RunFinishes(text, firings - 1);
    }

    /** `clearChat`: empties the container and starts the greeting's reveal.
        It does not take the lock, yet the greeting's last firing releases it. */
    method ClearChat()
      requires Valid()
      modifies this`transcript, this`typewriter
      ensures Valid()
      ensures transcript == [Message("", Bot)]
      ensures typewriter == Typing(Greeting, 0, Typewriter.Start())
    {
      transcript := [];
      StartTypewriter(Greeting);
    }

    /** `setApiUrl`: later sends post to `url`. */
    method SetApiUrl(url: string)
      requires Valid()
      modifies this`apiUrl
      ensures Valid()
      ensures apiUrl == url
    {
      apiUrl := url;
    }

    /** `addSystemMessage`: a bot bubble shown at once, without a reveal. */
    method AddSystemMessage(text: string)
      requires Valid()
      modifies this`transcript
      ensures Valid()
      ensures transcript == old(transcript) + [Message(text, Bot)]
    {
      transcript := transcript + [Message(text, Bot)];
    }
  }
}
