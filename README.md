# Chat widget session model

A Dafny model of the `Chatbot` class in `chatbot.js`: the floating chat
widget's session logic. A user sends text, which is POSTed to a backend. The
reply is shown after a two-second delay, and a typewriter then types it into
a new bot bubble one character per interval tick. The input lock `isTyping`
is held from the send until the typewriter's last tick.

The browser's asynchronous points become event methods on the class
`ChatbotWidget.Chatbot`:

| event | source |
|---|---|
| `Send` | the synchronous part of `sendMessage`, up to `fetch` |
| `ResponseOk` / `ResponseNullBody` / `ResponseFail` | the `fetch` promise settling with an OK status and a JSON object, with an OK status and the JSON body `null`, or with an error |
| `DelayElapsed` | the `setTimeout` before the reveal |
| `Tick` | one `setInterval` firing of `typewriterEffect` |
| `Toggle`, `InputChanged`, `ClearChat`, `SetApiUrl`, `AddSystemMessage` | the other public methods and DOM events |

The environment calls these in the order the browser would. The state is:
- `isOpen`, `isTyping` and `apiUrl`;
- the input field's value and the send button's `disabled` flag;
- the transcript, as a sequence of (text, sender) bubbles;
- the request pipeline: `NoRequest`, `Awaiting(url, message)`, `Delayed(reply, delayMs)`, `DelayedNullBody(delayMs)`, or `Abandoned` once a `null` body's callback has thrown;
- the typewriter: `Stopped`, or `Typing(text, slot, progress)`, where `slot` is the bubble it writes into.

The class invariant `Valid()` says three things:
- the typing bubble always shows exactly `text[..index]`;
- the button is disabled whenever the lock is held;
- the lock is held only while a typewriter runs or a request has been started. That request may have been abandoned, with nothing left to release the lock.

Modules:
- `JsText` (`js_text.dfy`): ECMAScript `String.prototype.trim`, with the exact WhiteSpace and LineTerminator code points.
- `Typewriter` (`typewriter.dfy`): one interval firing as a pure step, and the interval after `n` firings.
- `ChatbotWidget` (`chatbot.dfy`): reply selection, the delay, the button rule, and the class.
- `ChatbotScenarios` (`scenarios.dfy`): event sequences with their outcome.
- `Wrappers` (`wrappers.dfy`): `Option`, used for a JSON field that may be absent.

Notes on what the code does:
- The code's comment at chatbot.js:77 promises that the typing indicator shows for at least 2 seconds. `typingStartTime` is read after `response.json()`, just before `elapsedTime`, so the two seconds are counted from when the response arrives: the reply is shown about two seconds after it arrives, however long the request took (`ReplyShownTwoSecondsAfterArrival`).
- The delay is in [0, 2000] ms only when the elapsed time is non-negative. A wall clock stepping backwards between the two readings gives a longer delay, and `RemainingTime` says exactly that.
- The bot's reply is typed as plain characters into `textContent`; nothing interprets markup.
- `clearChat` starts a greeting reveal without taking the lock, yet its last tick releases it (`ClearChatDuringRequest`).
- A response body that is JSON `null` passes the `try`, but reading `data.response` inside the timeout callback throws outside it. No reply is shown and the lock is never released by that request (`NullBodyKeepsLock`).
- `Typewriter` models the interval's closure on its own; the class's `Tick` performs `Typewriter.Tick`, and `TypeToEnd` proves that its firing count is the one `Typewriter.Run` predicts.

## Model

| member | source | states |
|---|---|---|
| `JsText.TrimStart` | chatbot.js:47 | the result is a suffix of the input that starts with a non-white character, and everything dropped is white space |
| `JsText.TrimEnd` | chatbot.js:47 | the result is a prefix of the input that ends with a non-white character, and everything dropped is white space |
| `JsText.Trim` | chatbot.js:42 | `trim()` is empty exactly when the string is all white space; otherwise it neither starts nor ends with white space |
| `JsText.TrimOfPadded` | chatbot.js:47 | white space around a string with non-white ends is exactly what `trim()` removes (the inverse of padding) |
| `JsText.TrimIdempotent` | chatbot.js:47 | trimming an already trimmed string changes nothing |
| `Typewriter.Start` | chatbot.js:148-149 | the typewriter starts at index 0 with an empty paragraph, which satisfies the invariant `shown == text[..index]` |
| `Typewriter.Tick` | chatbot.js:152-161 | a firing clears the interval exactly when `index == |text|`; otherwise it appends `text[index]`, raises the index by one and keeps `shown == text[..index]` |
| `Typewriter.RunShowsPrefix` | chatbot.js:147-163 | after `n <= |text|` firings the paragraph shows exactly the first `n` characters |
| `Typewriter.RunFinishes` | chatbot.js:151-162 | the interval is cleared on firing `|text| + 1` and not earlier |
| `ChatbotWidget.SelectReply` | chatbot.js:89 | the reply is `response` if it is a non-empty string, else `message` if non-empty, else the not-understood apology; it is never empty |
| `ChatbotWidget.RemainingTime` | chatbot.js:78-82 | the delay is never negative, tops the elapsed time up to 2000 ms, adds nothing once 2000 ms have passed, and is at most 2000 ms for a non-negative elapsed time |
| `ChatbotWidget.ReplyShownTwoSecondsAfterArrival` | chatbot.js:75-84 | because the clock is read after the response arrives, the reply is shown at least 2000 ms after arrival |
| `ChatbotWidget.ButtonDisabled` | chatbot.js:41-44 | the button is disabled exactly when the input is all white space or a reply is in progress |
| `ChatbotWidget.SendAccepted` | chatbot.js:47-48 | a send goes ahead exactly when the input holds a non-white character and no reply is in progress, which is exactly when the button is enabled |
| `ChatbotWidget.Chatbot.constructor` | chatbot.js:2-9 | the widget starts closed, unlocked, with the default endpoint and no request or typewriter |
| `ChatbotWidget.Chatbot.Toggle` | chatbot.js:31-34 | `isOpen` is flipped and nothing else in the session changes |
| `ChatbotWidget.Chatbot.HandleInputChange` | chatbot.js:41-44 | afterwards the button is disabled exactly when the input is blank or the lock is held |
| `ChatbotWidget.Chatbot.InputChanged` | chatbot.js:28 | the field takes the typed value and the button is recomputed from it |
| `ChatbotWidget.Chatbot.Send` | chatbot.js:46-56 | a blank input or a held lock leaves every field unchanged; otherwise one user bubble holding the trimmed text is appended, the input is emptied, the lock taken, the button disabled and the trimmed text posted to the current endpoint |
| `ChatbotWidget.Chatbot.Post` | chatbot.js:51-69 | the accepted-send steps in order: user bubble, empty input, button recomputed, indicator shown, POST started |
| `ChatbotWidget.Chatbot.ShowTypingIndicator` | chatbot.js:165-183 | the lock is taken and the button disabled |
| `ChatbotWidget.Chatbot.ResponseOk` | chatbot.js:75-91 | the selected reply waits `RemainingTime(elapsed)`; the lock stays held |
| `ChatbotWidget.Chatbot.ResponseNullBody` | chatbot.js:75-84 | a `null` body still gets its clock readings and its timeout of `RemainingTime(elapsed)`, marked to throw when it fires; the lock stays held |
| `ChatbotWidget.Chatbot.ResponseFail` | chatbot.js:71-72 | a failed request waits exactly 2000 ms and then shows the connection apology; the lock stays held |
| `ChatbotWidget.Chatbot.DelayElapsed` | chatbot.js:84-91 | the request ends, an empty bot bubble is appended and the typewriter starts on the reply; hiding the indicator does not touch the lock; after a `null` body the callback throws, so the request is abandoned with no bubble, no typewriter and the lock still held |
| `ChatbotWidget.Chatbot.StartTypewriter` | chatbot.js:123-145 | a new empty bot bubble at the end, and a typewriter over the text at index 0 writing into it |
| `ChatbotWidget.Chatbot.Tick` | chatbot.js:151-162 | while characters remain, exactly the next one is added to the bubble and nothing else changes; on the first firing with none left the typewriter stops, the lock is released and the button recomputed |
| `ChatbotWidget.Chatbot.TypeToEnd` | chatbot.js:147-163 | the interval fires once per remaining character plus once, leaves the whole text in its bubble, releases the lock and leaves every other bubble as it was; from a fresh start its firing count is the first `n` at which `Typewriter.Run` has finished |
| `ChatbotWidget.Chatbot.ClearChat` | chatbot.js:218-221 | the transcript becomes one empty bot bubble being typed with the greeting; the lock is not touched |
| `ChatbotWidget.Chatbot.SetApiUrl` | chatbot.js:224-226 | later sends post to the new endpoint |
| `ChatbotWidget.Chatbot.AddSystemMessage` | chatbot.js:213-215 | one bot bubble with the text is appended at once, without a typewriter |
| `ChatbotScenarios.ConnectionFailure` | chatbot.js:93-100 | after a failed request the transcript gains exactly the connection apology, and the lock is released |
| `ChatbotScenarios.EmptyResponseField` | chatbot.js:89 | an empty `response` field falls through to `message`, and a send during the reveal is ignored |
| `ChatbotScenarios.ClearChatDuringRequest` | chatbot.js:218-221 | a `clearChat` during a pending request releases the lock when the greeting finishes, so a second send is accepted while the first request is still pending |
| `ChatbotScenarios.ToggleTwice` | chatbot.js:31-34 | toggling twice leaves every field of the widget unchanged |
| `ChatbotScenarios.NullBodyKeepsLock` | chatbot.js:75-91 | after a `null` body no reply is shown, the lock and the disabled button stay, and a later send is refused |

## Left out

- DOM lookup, event binding, CSS class toggling, focus, the indicator element and `scrollToBottom`: UI plumbing. Only the lock and button effects of `showTypingIndicator` and `hideTypingIndicator` are kept.
- The `fetch` call, its JSON request body with its timestamp, response parsing and `console.error`: I/O. They become the `ResponseOk` and `ResponseFail` events. A non-OK status, a network error and a body that is not JSON all become `ResponseFail`, as they all reach the same `catch`.
- The real `setTimeout` and `setInterval` scheduling and the wall clock. The delay is recorded in `Delayed(reply, delayMs)`, and `ResponseOk` takes the difference of the two clock readings as a parameter.
- `escapeHtml` and the `<p>` wrapper of `addMessage`: they only make the text display literally, so a bubble holds the plain text.
- `formatTime` and the time stamp shown under each bubble: locale and clock dependent.
- The environment configuration at the end of the file: it computes a URL that is never applied to the widget.
- The backend (`chatbot_backend/main.py`, `chatbot_backend/gemini.py`): a FastAPI endpoint that forwards to an external model.
- Two typewriter intervals running at once. `clearChat` during a reveal, or a reply arriving during the greeting's reveal, can make two run in the browser. The model keeps one typewriter, and a new one replaces the old.
- Two requests in flight at once. After the `clearChat` quirk, a second send can start while the first is pending. The model keeps only the newest request.
- JSON fields that are present but not strings (numbers, objects). The model takes each field as an optional string. A body that is a number, a string or an array has no such fields and is `ResponseOk(None, None)`; only `null` throws, and it is `ResponseNullBody`.
- UTF-16: JavaScript strings are code-unit sequences, so `charAt` types a character outside the Basic Multilingual Plane in two ticks. The model's strings are sequences of Unicode scalar values.
