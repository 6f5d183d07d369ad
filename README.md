# Chat widget decision logic, modelled in Dafny

The repository is a single browser script, `static/app.js`, that signs a user in
against a hosted identity provider, shows a chat transcript, sends each
question to a `/chat` endpoint, reveals the answer with a typewriter effect and
stores each turn in a hosted document store. This project models the decision
logic inside that script and proves what it promises:

- **Credentials** (`js.dfy`, `auth_messages.dfy`): JavaScript's `trim` and
  UTF-16 `length`. Validation rejects empty fields and short passwords before
  any provider call. The ten-entry table maps provider error codes to messages,
  with a fallback for an unknown code and another for no code. The message
  shown identifies the code (`CodeOf` recovers it).
- **Sign-in form** (`auth_panel.dfy`): a class with the two buttons' `disabled`
  flags and labels, the error line and a log of provider calls. Each call is
  logged with the button state it ran under. On every outcome the buttons are
  re-enabled and the label restored.
- **Response handling** (`chat_response.dfy`): the decoded body of the `/chat`
  response is normalised (an array becomes its first element, or `{}`). The
  text shown is `answer || error || '请求失败'`. A `null` body throws and takes
  the error path.
- **Transcript and chat view** (`transcript.dfy`, `chat_page.dfy`): the
  transcript is a `seq<Entry>` field, and the render functions append to it.
  The typewriter builds an entry's text one character at a time. `saveChat`
  has guards and normalises its payload. The submit handler, the history
  replay and the session observer's sign-out branch are modelled too. Requests
  to `/chat` and documents written to the store are kept in logs, so "what was
  sent" and "what was saved" can be stated.

The provider, the `/chat` endpoint and the history query are not called. Their
outcomes are method parameters: `ProviderOutcome`, `FetchOutcome` and
`QueryOutcome`.

Two behaviours of the code worth knowing:

- A `null` response body is not treated as `{}`. Reading `body.answer` throws
  (static/app.js:243), so the transcript shows `'请求错误'`.
- History loading is guarded by the provider, the store and the current user
  being present (static/app.js:258), not by the guest flag. In guest mode the
  provider is never set up, so the effect is the same as a guest check.

## Model

| member | source | states |
|---|---|---|
| `Js.Trim` | static/app.js:136-137 | the trimmed value is no longer than the input, and it is empty exactly when the input is all white space (`Js.TrimSpec` gives the rest) |
| `Js.TrimSpec` | static/app.js:136-137 | trim keeps the infix between two runs of white space; the result neither starts nor ends with white space, and it is empty exactly when the input is all white space |
| `Js.TrimIdempotent` | static/app.js:136-137 | trimming an already trimmed value changes nothing |
| `Js.Utf16Length` | static/app.js:143 | the length the password check uses lies between the number of code points and twice that number |
| `AuthMessages.TableMessagesAreDistinctive` | static/app.js:116-127 | no table message is empty, equals the fill-in prompt, or starts with the sign-in-failed prefix |
| `AuthMessages.AuthErrorMessage` | static/app.js:115-129 | a known code gives its table message; the message is never empty; it is the fill-in prompt exactly when there is no code; it has the sign-in-failed prefix exactly when the code is unknown, and the code follows the prefix |
| `AuthMessages.CodeOfAuthErrorMessage` | static/app.js:115-129 | the code can be recovered from the message shown for it, for every code |
| `AuthMessages.AuthErrorMessageInjective` | static/app.js:116-128 | different codes never show the same message |
| `AuthMessages.Validate` | static/app.js:136-146 | rejects exactly when the trimmed email is empty or the trimmed password is shorter than 6 UTF-16 units; an empty field gives the fill-in prompt and a short password gives the weak-password message; otherwise it passes on the trimmed values |
| `AuthMessages.ProceedValuesAreTrimmed` | static/app.js:136-137 | the email and password that reach the provider are already trimmed (uses `Js.TrimIdempotent`) |
| `AuthPanel.AuthForm.constructor` | static/app.js:5-16 | the form starts idle, with the provider present or absent as given |
| `AuthPanel.AuthForm.SetLabel` | static/app.js:149 | relabels only the button of the given operation |
| `AuthPanel.AuthForm.Attempt` | static/app.js:131-160 | with no provider, or when validation rejects, no provider call is made, the buttons are unchanged and the error line says why; otherwise exactly one call is made with the trimmed values while both buttons are disabled and the pressed one is busy, and afterwards both are enabled, the pressed label is restored, the other label is unchanged, and the error line is empty on success or shows the mapped code |
| `AuthPanel.AuthForm.CallProvider` | static/app.js:147-159 | one provider call is logged with both buttons disabled and the pressed one busy; afterwards both are enabled, the pressed label is restored, the other is unchanged, and the error line is empty on success or shows the mapped code |
| `AuthPanel.AuthForm.DoSignIn` | static/app.js:131-160 | the attempt contract for sign-in; an idle form is idle again afterwards |
| `AuthPanel.AuthForm.DoSignUp` | static/app.js:162-191 | the attempt contract for sign-up; an idle form is idle again afterwards |
| `ChatResponse.Normalize` | static/app.js:242 | a non-array body is kept; an array becomes its first element when that is truthy, else `{}`, so the result is truthy; the result is `null` exactly when the body is |
| `ChatResponse.Interpret` | static/app.js:241-243 | reading the fields throws exactly for a `null` body; an object's missing or empty fields read as `''`; any body that does not normalise to an object (a number, a string, `[1]`) reads as `{answer:'', error:''}` |
| `ChatResponse.DisplayText` | static/app.js:243 | the answer takes precedence over the error, and the fallback is used only when both are empty; the text is never empty |
| `ChatResponse.WrappedObjectReadsTheSame` | static/app.js:242 | an object and the same object first in an array give the same fields and the same text |
| `ChatResponse.EmptyArrayReadsAsEmptyObject` | static/app.js:242-243 | an empty array, or one whose first element is falsy, reads as `{}` and shows the fallback text |
| `ChatResponse.AnswerShownWrappedOrNot` | static/app.js:242-243 | `{answer:"x"}` and `[{answer:"x"}]` both show "x" |
| `Transcript.TurnEntries` | static/app.js:266-270 | one stored turn gives at most two entries, none loading or empty, and none exactly when neither its question nor its answer-or-error is non-empty |
| `Transcript.Replay` | static/app.js:265-271 | replaying the stored turns in order gives at most twice as many entries as there are turns (`ReplayUserTexts`, `ReplayBotTexts` and `ReplaySettled` say which) |
| `Transcript.ReplayAppend` | static/app.js:265-271 | replaying two runs of stored turns in turn gives the same transcript as replaying them together |
| `Transcript.ReplaySnoc` | static/app.js:265-271 | one more iteration of the history loop appends exactly that turn's entries |
| `Transcript.TurnUserTexts` | static/app.js:268 | one stored turn shows its question as its only user entry, when the question is not empty |
| `Transcript.TurnBotTexts` | static/app.js:269-270 | one stored turn shows its answer-or-error as its only bot entry, when that is not empty |
| `Transcript.ReplayUserTexts` | static/app.js:268 | the replay's user entries are the non-empty stored questions, in stored order, and nothing else |
| `Transcript.ReplayBotTexts` | static/app.js:269-270 | the replay's bot entries are the non-empty answer-or-error texts, in stored order, and nothing else |
| `Transcript.ReplaySettled` | static/app.js:265-271 | no replayed entry is loading or empty |
| `ChatPage.Settled` | static/app.js:241-251 | a failed request or a `null` body saves an empty answer and `'请求错误'`; any other body saves the fields it reads as |
| `ChatPage.Answered` | static/app.js:243-250 | the final bot text is never empty, and a failed request or a `null` body shows `'请求错误'` (`ChatPage.AnsweredIsDisplayOfSettled` ties it to the saved fields) |
| `ChatPage.AnsweredIsDisplayOfSettled` | static/app.js:243-251 | the text a submission shows is the display text of the fields it saves; a failure shows and saves `'请求错误'` |
| `ChatPage.ReplayReproducesSubmission` | static/app.js:243-270 | replaying the turn a submission saved gives the same user and bot entries the live transcript got; the one exception is a reply with neither answer nor error, which shows the fallback live and no bot entry on replay |
| `ChatPage.Page.constructor` | static/app.js:5-17 | guest mode never sets up the provider or store; otherwise they are set up when the configuration was complete; the view starts empty and ready |
| `ChatPage.Page.RenderUserMsg` | static/app.js:28-44 | appends exactly one user entry |
| `ChatPage.Page.RenderBotMsg` | static/app.js:45-65 | appends exactly one finished bot entry |
| `ChatPage.Page.RenderBotLoading` | static/app.js:66-87 | appends exactly one loading placeholder and returns its position |
| `ChatPage.Page.MarkLoaded` | static/app.js:244 | clears the loading mark of that entry only |
| `ChatPage.Page.TypeText` | static/app.js:88-94 | at the end the entry holds exactly the text, also when the text is empty, and its loading mark is as it was; nothing else changes (the loop invariant states that after `i` steps the entry holds the first `i` characters) |
| `ChatPage.Page.SaveChat` | static/app.js:97-103 | writes nothing in guest mode or without a store or user; otherwise writes one document under the user's id, with the question unchanged and a falsy answer or error written as `''` |
| `ChatPage.Page.Submit` | static/app.js:225-256 | an empty trimmed question changes nothing and sends nothing; otherwise the transcript grows by the user entry and one bot entry that ends not loading, showing the reply's text or `'请求错误'`; one request is sent while the controls are disabled and the placeholder shows; the turn is saved; the input is cleared and the controls are restored |
| `ChatPage.Page.Ask` | static/app.js:229-255 | the submit steps for a non-empty trimmed question, with the same guarantees |
| `ChatPage.Page.Settle` | static/app.js:241-252 | the placeholder stops loading and ends with the reply's display text, or with `'请求错误'` on failure; nothing else in the transcript changes; the turn is saved with the reply's fields, or with `''` and `'请求错误'` |
| `ChatPage.Page.RenderTurn` | static/app.js:266-270 | one stored document appends exactly its replay entries |
| `ChatPage.Page.LoadHistory` | static/app.js:257-273 | without a store or user it changes nothing; otherwise the transcript becomes the replay of the stored turns, or stays empty when the query fails |
| `ChatPage.Page.OnAuthStateChanged` | static/app.js:207-219 | a signed-in user is labelled by email, else by id, and their history is loaded; on sign-out the label and the whole transcript are cleared |

## Left out

- Fetching `/firebase-config` and initialising the SDKs (static/app.js:1-17): network and vendor calls. Only their result is kept, as the `guest` and `configured` flags.
- The provider's sign-in, sign-up and sign-out calls, `fetch('/chat')`, `addDoc` and `getDocs`: vendor and network I/O. Their outcomes are parameters. A failed `addDoc` is swallowed by the source, so `saved` logs the writes that were issued.
- The sign-out button's handler (static/app.js:196-199) only asks the provider to sign out. Its effect reaches the page through `OnAuthStateChanged` with no user, which is modelled.
- The query's ordering by `createdAt` and its limit of 100 are done by the store. The query result is taken as given.
- Timestamps (`nowTs`, `createdAt.toDate()`): they depend on the clock and locale. Entries carry no timestamp.
- DOM details: element construction, class names, the avatar, the spinner markup, auto-scroll, and the view toggles that show or hide the two screens.
- The 8 ms delay in the typewriter, and the interleaving of `await` points. A second submission, or a history load, during a pending request or a running typewriter is not modelled.
- `ChatPage.Page.TypeText` appends one code point per step. The source appends one UTF-16 code unit per step, so for characters above U+FFFF the intermediate texts differ. The final text is the same.
- `AuthMessages.AuthErrorMessage`: the table is modelled as holding exactly its ten codes. In the source it is an object literal, so a code that names an inherited property (`constructor`, `toString`) would find that property instead.
- `ChatResponse.Interpret`: `answer` and `error` are modelled as strings or missing. A response whose fields hold numbers, booleans or objects is not modelled.
