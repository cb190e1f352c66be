# MyPaw core, modelled in Dafny

MyPaw lets a pet owner photograph a pet. A vision model identifies the pet, and the owner names it. After that the owner chats with an in-character persona of the pet, can get a weekly diet plan, and can play PawMood, a five-question quiz on reading the pet's moods. This project models the parts of the web client that decide behaviour:

- **`App`** (src/App.tsx): the screen state machine. The class `AppSession` holds the component's twelve state slots. Each event handler is a method whose `ensures` states the complete new state as `Snap() == old(Snap()).(…)`. Backend results and AI results are method parameters. The records the handler sends to the backend are out-parameters. Two invariants are preserved:
  - `Valid`: the message list and the history list have the same length.
  - `HistoryInSync`: the history is exactly the list derived from the messages. It is kept whenever the backend echoes what it was asked to store.
- **`OpenAI`** and **`Gemini`** (src/services/openai.ts, src/services/gemini.ts): how each AI call turns a raw reply into a result, including its fixed fallbacks. Supporting modules:
  - `Json`: the parsed-value model and JavaScript truthiness.
  - `JsonSpan`: the greedy `/\{[\s\S]*\}/` extraction, with a proof that first-'{'-to-last-'}' is exactly the leftmost-greedy match.
  - `JsText`: ECMAScript `trim`.
- **`PawMood`** (src/components/PawMood.tsx): the quiz as the class `PawMoodGame`. Its invariant says the score counts the correct entries of the answer log, the question counter stays in 1..5, and the log's question numbers never decrease. The options shuffle is modelled as an arbitrary permutation, proved to keep every option. The score bands are integer-exact functions.
- **`ChatInterface`** (src/components/ChatInterface.tsx): the reasoning toggle, the send guard, the Enter-key rule and the trimmed draft that is sent.
- **`PetRegistration`** (src/components/PetRegistration.tsx): the trimmed-name guard.
- **`Types`** mirrors the records of src/types/index.ts. A TypeScript optional field becomes an `Option`. `type` is renamed `petType` because `type` is a Dafny keyword.

Outside world, passed in as parameters:
- `JSON.parse` is a parameter `parse: string -> Option<Json>`, with `None` meaning it threw.
- Every HTTP exchange with an AI API is a `Reply`. `Failed` is any thrown error. `Received(content)` is the text found in the response.
- Whether an API key is configured is a boolean.
- The backend calls (Supabase) are their results: `Fetch<T>` when App wraps the call in `try`/`catch`, and the plain value otherwise.
- `Math.random`'s effect on the option order is the permutation `perm`.

Behaviour of the code worth knowing:
- There is no `landing` screen, and nothing is saved to or restored from client storage. The app starts on `auth`.
- Losing the session (the auth listener's no-user branch) goes to `auth`. Signing out itself changes no App state.
- Each pet load sets the screen without checking it: users with pets go to `dashboard`, users without go to `upload`, even mid-flow.
- The JSON extraction takes the greedy span from the first '{' to the last '}', not a brace-balanced object.
- A failed image upload falls back to the local image URL, and a failed greeting save is ignored. Neither aborts saving the pet.
- App does not mark a chat send as loading, so nothing stops a second send while one is in flight.

## Model

| member | source | states |
|---|---|---|
| Json.Get | src/services/openai.ts:115 | Reading an own key such as `response` or `reasoning` (the only keys read) off a parsed value throws exactly on `null`. An object that has the key yields that member, and only such an object yields a value. |
| Json.StringField | src/services/openai.ts:115-122 | Gives the field's text exactly when the property is a non-empty JSON string, so the value is truthy. |
| Json.ContentOf | src/services/openai.ts:47 | The reply's text is usable exactly when a reply arrived with a non-empty content, and it is that content. |
| JsText.LeadingWhitespace | src/components/ChatInterface.tsx:45-47 | Counts the leading whitespace: every counted character is whitespace, and the next one is not. |
| JsText.TrailingWhitespace | src/components/ChatInterface.tsx:45-47 | Counts the trailing whitespace: every counted character is whitespace, and the one before them is not. |
| JsText.TrimStart | src/services/openai.ts:111 | The result is a suffix of the input; everything dropped is whitespace, and the result does not start with whitespace. |
| JsText.TrimEnd | src/services/openai.ts:111 | The result is a prefix of the input; everything dropped is whitespace, and the result does not end with whitespace. |
| JsText.Trim | src/services/openai.ts:111 | The result is the infix that starts after the leading whitespace. Everything cut from either end is whitespace, and the result has whitespace at neither end. |
| JsText.TrimEmptyIff | src/components/ChatInterface.tsx:45 | `s.trim()` is empty (falsy) if and only if `s` is all whitespace. |
| JsText.TrimUnchanged | src/components/PetRegistration.tsx:23-24 | Text with no whitespace at either end is left unchanged by trimming. |
| JsText.TrimIdempotent | src/services/openai.ts:111 | Trimming twice gives the same result as trimming once. |
| JsonSpan.FirstIndexOf | src/services/gemini.ts:56 | Finds the first occurrence of a character; `None` means the character does not occur. |
| JsonSpan.LastIndexOf | src/services/gemini.ts:56 | Finds the last occurrence of a character; `None` means the character does not occur. |
| JsonSpan.MatchBounds | src/services/gemini.ts:56-59 | `None` exactly when no '{' comes before a '}'. Otherwise the bounds are a match that contains every other match. |
| JsonSpan.MatchBoundsAreLeftmostGreedy | src/services/gemini.ts:56 | The bounds are the leftmost-greedy match of `/\{[\s\S]*\}/`, in both directions. |
| JsonSpan.ExtractSpan | src/services/openai.ts:210-216 | `null` exactly when there is no match. Otherwise it gives the text from the first '{' to the last '}', which starts with '{' and ends with '}'. |
| JsonSpan.ExtractIdempotent | src/services/openai.ts:211 | Extracting from an extracted span gives the span back. |
| JsonSpan.ExtractFromProse | src/services/openai.ts:210-216 | When no '{' comes before an object and no '}' after it, exactly that object is extracted. |
| JsonSpan.ExtractSpansAcrossObjects | src/services/openai.ts:211 | Two objects in one reply come out as a single span covering both; braces are not balanced. |
| JsonSpan.ParseEmbedded | src/services/gemini.ts:55-61 | Gives a result exactly when there is a span and it parses, and the result is that parse; every other case gives `null`. |
| OpenAI.CreatePetPersona | src/services/openai.ts:8-52 | The greeting is never empty. A missing key, a failed call and an empty content each give their fixed greeting; otherwise the greeting is the model's text. |
| OpenAI.RecentHistory | src/services/openai.ts:81 | `slice(-10)`: the last min(n, 10) entries, in order. |
| OpenAI.ChatRequest | src/services/openai.ts:79-83 | The request is the system prompt first, then exactly the last min(n, 10) past turns in order, then the user's message last: between 2 and 12 entries. With at most 10 past turns the whole history is sent. |
| OpenAI.ChatContent | src/services/openai.ts:104-105 | The content is never empty. A missing or empty content is replaced by the default JSON text. |
| OpenAI.ParsedChatReply | src/services/openai.ts:109-122 | Accepts the reply exactly when the trimmed content parses and both `response` and `reasoning` are non-empty strings. The pair returned is those two fields. |
| OpenAI.ChatWithPet | src/services/openai.ts:55-138 | The response and the reasoning are never empty. A missing key and a failed call give fixed pairs. A well-formed reply gives its parsed pair; otherwise the raw content comes back with the "couldn't be parsed" reasoning. |
| OpenAI.MissingContentGivesDefaultReply | src/services/openai.ts:105-122 | With a JSON parser that reads the default text correctly, a reply without content yields the "didn't quite catch that" pair. |
| OpenAI.WellFormedReplyIsParsed | src/services/openai.ts:109-122 | A reply whose trimmed content is `{"response": r, "reasoning": e}` with both non-empty yields exactly (r, e). |
| OpenAI.GenerateDietPlan | src/services/openai.ts:140-221 | Gives a plan exactly when the key is set, the content is non-empty, a span is found and it parses, and the plan is that parse. No field of the plan is checked. |
| OpenAI.GeneratePetMoodScenario | src/services/openai.ts:223-294 | Gives a scenario under the same four conditions, and the scenario is the parse of the span. |
| OpenAI.NoSpanNoResult | src/services/openai.ts:211-214 | A reply with no '{' before a '}' gives neither a plan nor a scenario. |
| Gemini.IdentifyPet | src/services/gemini.ts:8-66 | Gives a result exactly when the key is set, the text is non-empty, a span is found and it parses, and the result is that parse. |
| Gemini.NoKeyIgnoresReply | src/services/gemini.ts:9-12 | Without a key the result is `null` whatever the reply would have been. |
| Gemini.IdentifyFromProse | src/services/gemini.ts:55-61 | An identification wrapped in prose is parsed as that object alone. |
| App.StepAfterPetFetch | src/App.tsx:99-115 | The next screen is `dashboard` if and only if the fetch succeeded with a non-empty list; otherwise it is `upload`. |
| App.HistoryEntryOf | src/App.tsx:163-166 | The pet's messages become `assistant` turns and all others `user` turns, never `system`; the content is the message text. |
| App.ChatHistoryOf | src/App.tsx:163-166 | The history has one entry per message, at the same position. The role is `assistant` exactly for the pet's messages, and the content is the message text. |
| App.ChatHistoryAppend | src/App.tsx:280-281 | The history of a conversation extended by one message is the old history extended by that message's entry. |
| App.StoredImageUrl | src/App.tsx:212-218 | Uses the uploaded URL only when there is a file and the upload returned a non-empty URL; otherwise the local URL. |
| App.NewPetFrom | src/App.tsx:220-230 | The new pet record carries the chosen name, the identified type, breed, description, characteristics and care tips, and the chosen image URL. |
| App.Render | src/App.tsx:339-432 | `authLoading` shows the loading screen. Otherwise each step draws its own screen: auth, the dashboard with the pet list, and upload offering "back" exactly when there are pets. Identify and register draw the pending identification with the photo; chat, diet and PawMood draw the selected pet. When what a step needs is missing, nothing is drawn. |
| App.LoadingOverlay | src/App.tsx:339-479 | The overlay appears exactly when auth is not loading and a save or identification is loading on upload, identify or register. It is then drawn over one of those framed screens, never over the full-page loading screen. It reads "Identifying your pet..." on upload and "Saving your pet..." otherwise. |
| App.AppSession.constructor | src/App.tsx:37-48 | The initial state: screen `auth`, `authLoading` set, everything else empty. |
| App.AppSession.LoadUserPets | src/App.tsx:99-115 | A successful fetch replaces the pet list, and the screen follows `StepAfterPetFetch`. A throw keeps the list and goes to `upload`. |
| App.AppSession.CheckAuthState | src/App.tsx:84-97 | With a current user, stores the user and loads the pets. In every case `authLoading` ends false. |
| App.AppSession.OnAuthStateChange | src/App.tsx:62-76 | A session stores the user and loads the pets. No session clears the user, the pets and the selected pet and goes to `auth`. Both end with `authLoading` false. |
| App.AppSession.BeginAuthRequest | src/App.tsx:128-148 | `authLoading` stays set when the request succeeds (the listener finishes the sign-in) and is cleared when it fails, with the error rethrown. |
| App.AppSession.HandleSignIn | src/App.tsx:139-148 | As `BeginAuthRequest`, for sign-in. |
| App.AppSession.HandleSignUp | src/App.tsx:128-137 | As `BeginAuthRequest`, for sign-up. |
| App.AppSession.LoadChatMessages | src/App.tsx:158-168 | Stores the fetched messages and the history derived from them, so the two are in sync. |
| App.AppSession.LoadDietPlan | src/App.tsx:170-177 | A fetched plan, or `null`, replaces the current one. A throw keeps the old plan. |
| App.AppSession.HandleSelectPet | src/App.tsx:117-122 | Selects the pet, loads its messages and plan, and opens the chat. |
| App.AppSession.HandleAddNewPet | src/App.tsx:124-126 | Goes to `upload` and changes nothing else. |
| App.AppSession.HandleImageCapture | src/App.tsx:178-197 | Keeps the photo. A successful identification stores it and goes to `identify`. A `null` one raises the "Unable to identify" alert and stays on the screen. Loading always ends false. |
| App.AppSession.HandleContinueToRegistration | src/App.tsx:199-201 | Goes to `register` and changes nothing else. |
| App.AppSession.AdoptSavedPet | src/App.tsx:233-260 | The saved pet goes to the front of the list and is selected. Its messages are loaded, the dashboard is shown, and the pending photo and identification are cleared. |
| App.AppSession.HandleSavePet | src/App.tsx:203-267 | Without a pending identification and photo, nothing happens. Otherwise the pet record is built from them. A `null` save only clears loading. A saved pet also gets a non-empty generated greeting saved as its first message. |
| App.AppSession.HandleSendMessage | src/App.tsx:269-318 | Without a selected pet, nothing happens. The human message is appended only if its save returned a record. The AI is sent the history from before this message, and its non-empty reply is appended only if saved. When the backend echoes both records, the history stays derived from the messages. |
| App.AppSession.AppendTurn | src/App.tsx:280-281 | Appends one message and one history entry. An entry derived from the message keeps the two in sync. |
| App.AppSession.HandleShowDietPlan | src/App.tsx:320-322 | Goes to `diet` and changes nothing else. |
| App.AppSession.HandleShowPawMood | src/App.tsx:324-326 | Goes to `pawmood` and changes nothing else. |
| App.AppSession.HandleBackToDashboard | src/App.tsx:328-330 | Goes to `dashboard` and changes nothing else. |
| App.AppSession.HandleBackToChat | src/App.tsx:332-337 | Reloads the plan when a pet is selected, then opens the chat. |
| PawMood.CountCorrect | src/components/PawMood.tsx:70-82 | The number of correct answers never exceeds the number of answers. |
| PawMood.CountCorrectAppend | src/components/PawMood.tsx:70-82 | Logging one answer raises the count by one exactly when that answer is correct. |
| PawMood.CountCorrectExtremes | src/components/PawMood.tsx:185 | A full score means every answer was correct, and a zero score means none was, in both directions. |
| PawMood.Permute | src/components/PawMood.tsx:48 | The shuffled options have the same length as the original options. |
| PawMood.Without | src/components/PawMood.tsx:48 | Removing one position from an index list shifts the later indices down by one. |
| PawMood.WithoutIsPermutation | src/components/PawMood.tsx:48 | Removing the position that holds the largest index leaves a permutation of the smaller indices. |
| PawMood.PermuteSplit | src/components/PawMood.tsx:48 | A shuffle is the shuffle of all but the last element with the last element inserted. |
| PawMood.MultisetInsert | src/components/PawMood.tsx:48 | Inserting an element anywhere adds it to the multiset exactly once. |
| PawMood.PermuteMultiset | src/components/PawMood.tsx:48 | The shuffle keeps every option, each as often as before. |
| PawMood.Percentage | src/components/PawMood.tsx:103 | `(score / 5) * 100` is exactly 20 × score. |
| PawMood.ScoreColor | src/components/PawMood.tsx:102-107 | Green exactly when the score is at least 4, yellow exactly when it is 3, red otherwise. |
| PawMood.ScoreVerdict | src/components/PawMood.tsx:109-115 | "Perfect" exactly at 5, "Excellent" at 4 or more but not 5, "Good" exactly at 3, "Keep practicing" at 2 or less. |
| PawMood.ColorMatchesVerdict | src/components/PawMood.tsx:102-115 | The colour and the message agree. Green goes with the top two messages, yellow with "Good", red with "Keep practicing". |
| PawMood.ScoreMessage | src/components/PawMood.tsx:109-115 | How the message opens tells the band: "Perfect!" exactly at 5, "Excellent!" exactly at 4, "Good job!" exactly at 3, and the fixed "Keep practicing!" text exactly at 2 or less. The three upper messages are the pet's name between that band's fixed prefix and suffix. |
| PawMood.OpeningsDiffer | src/components/PawMood.tsx:109-115 | No message opens with two different band prefixes, and the lowest band's text opens with none of them, so the opening identifies the band. |
| PawMood.Named | src/components/PawMood.tsx:111-113 | The message is the prefix, then the pet's name, then the suffix, with nothing else. |
| PawMood.AnswerFor | src/components/PawMood.tsx:70-82 | The log entry carries the question and the chosen mood. It is correct exactly when a scenario is shown and the mood is its correct mood. Without a scenario its texts are empty. |
| PawMood.LogStaysOrdered | src/components/PawMood.tsx:76-82 | Logging the current question keeps the log ordered and within the counter. |
| PawMood.PawMoodGame.constructor | src/components/PawMood.tsx:15-24 | Score 0, question 1, not complete, empty log, no scenario. |
| PawMood.PawMoodGame.GenerateNewScenario | src/components/PawMood.tsx:30-62 | Clears the selection and the result. A generated scenario is shown with its options permuted, keeping every option. A `null` result and a thrown error each leave the old scenario and raise their own alert. |
| PawMood.PawMoodGame.HandleMoodSelection | src/components/PawMood.tsx:64-83 | Ignored while the result is shown. Otherwise it latches the result, adds one to the score exactly on a correct mood, and logs one entry for the current question. |
| PawMood.PawMoodGame.HandleNextQuestion | src/components/PawMood.tsx:85-92 | From question 5 it completes the game and raises no alert. Before that it advances the counter by one and asks for a scenario, with the new state and the alert exactly as `GenerateNewScenario` gives them, every option kept. The counter stays in 1..5. |
| PawMood.PawMoodGame.HandlePlayAgain | src/components/PawMood.tsx:94-100 | Resets score, counter, completion and log, then asks for a scenario, with the alert exactly as `GenerateNewScenario` gives it and every option kept. |
| ChatInterface.Toggled | src/components/ChatInterface.tsx:30-38 | The toggled id changes membership, and every other id keeps its membership. |
| ChatInterface.ToggleTwice | src/components/ChatInterface.tsx:30-38 | Toggling the same id twice restores the set. |
| JsText.Blank | src/components/ChatInterface.tsx:232 | `!text.trim()` holds exactly when the text is all whitespace. |
| ChatInterface.SendDisabled | src/components/ChatInterface.tsx:232 | The send button is disabled exactly while loading or when the draft is all whitespace. |
| ChatInterface.OffersReasoning | src/components/ChatInterface.tsx:150 | A message offers "Why … said this" exactly when it is the pet's and has a non-empty reasoning. |
| ChatInterface.ReasoningShown | src/components/ChatInterface.tsx:150-176 | The reasoning text is shown exactly when it is offered and the message's id is expanded. |
| ChatInterface.ToggleFlipsShown | src/components/ChatInterface.tsx:150-176 | Toggling a message flips whether its reasoning is shown and leaves every message with another id unchanged. |
| ChatInterface.ChatPanel.constructor | src/components/ChatInterface.tsx:19-21 | Empty draft, nothing expanded, not typing. |
| ChatInterface.ChatPanel.ToggleReasoning | src/components/ChatInterface.tsx:30-38 | The expanded set becomes `Toggled` of the old set; nothing else changes. |
| ChatInterface.ChatPanel.OnInputChange | src/components/ChatInterface.tsx:221 | The draft becomes the typed value. |
| ChatInterface.ChatPanel.HandleSendMessage | src/components/ChatInterface.tsx:44-54 | Sends nothing exactly when sending is disabled. Otherwise it sends the trimmed draft (non-empty, no whitespace at either end), clears the draft and shows the typing indicator. |
| ChatInterface.ChatPanel.TypingTimerFires | src/components/ChatInterface.tsx:53 | Hides the typing indicator and changes nothing else. |
| ChatInterface.ChatPanel.HandleKeyPress | src/components/ChatInterface.tsx:56-61 | Only Enter without Shift suppresses the newline and sends, as the button would. Every other key leaves the state unchanged. |
| PetRegistration.SubmitDisabled | src/components/PetRegistration.tsx:84 | The save button is disabled exactly while loading or when the name is all whitespace. |
| PetRegistration.RegistrationForm.constructor | src/components/PetRegistration.tsx:19 | The name starts empty. |
| PetRegistration.RegistrationForm.OnNameChange | src/components/PetRegistration.tsx:72 | The name becomes the typed value. |
| PetRegistration.RegistrationForm.HandleSubmit | src/components/PetRegistration.tsx:21-26 | Hands a name on exactly when it is not all whitespace: the trimmed name, with no whitespace at either end. |
| PetRegistration.TrimmedNameKept | src/components/PetRegistration.tsx:23-24 | A name that is already trimmed can be submitted and is handed on unchanged. |

## Left out

- Json.StringField: it yields a field only when the field is a non-empty JSON string. The source's truthiness test would also accept a non-empty array, an object, `true` or a non-zero number.
- OpenAI.ParsedChatReply: built on `Json.StringField`, so it accepts a reply only when both fields are non-empty strings. The source would return a truthy non-string value under a type cast.
- OpenAI.ChatWithPet: through `OpenAI.ParsedChatReply`, a truthy non-string `response` or `reasoning` gives the "couldn't be parsed" fallback. The source would return that value as the reply instead.
- Json.Get: it covers only own members of a parsed value. Inherited properties such as `"abc".length` or `({}).constructor` are not modelled, since the code reads only `response` and `reasoning`.
- OpenAI.GenerateDietPlan, OpenAI.GeneratePetMoodScenario, Gemini.IdentifyPet: their result is a parsed `Json` value. The source hands it to callers as `GeneratePetMoodScenario`/`GeminiResponse`/plan data by an unchecked cast. The App and PawMood handlers take the already-typed value as a parameter.
- Prompt texts, request bodies, model names, token limits and temperatures are left out. They only shape what the remote model answers, and that answer is the `Reply` parameter.
- `JSON.parse`, `JSON.stringify` and `response.json()` are left out. Parsing is a parameter; a stored pet's `personality` text is kept structured (`NewPet.characteristics`/`care_tips`).
- When reading `currentPet.personality`, or building the prompt, throws, this is a boolean parameter (`contextBuilt` in App, `GenerationError` in PawMood), not a JSON model of that text.
- The Supabase client is left out: authentication, row storage, image storage and the auth event stream. Each call appears only as its result. `getChatMessages` catches its own errors and returns `[]`, so App's message load has no error path.
- App.AppSession.HandleImageCapture: it has no "Error identifying pet" branch. `identifyPet` catches every error and returns `null`, so that alert is unreachable.
- App.AppSession.HandleSavePet: it has no "Error saving pet" branch, for the same reason: the services it calls all catch their own errors.
- `handleSignOut` is left out because it changes no App state. The resulting session loss is `OnAuthStateChange` with no user.
- Concurrency is left out: interleaved asynchronous handlers, React's batching of state updates, and stale closures other than the chat history `HandleSendMessage` sends. Each handler runs to completion as one step.
- Timers are left out: the 5000 ms auth-loading timeout, which only clears `authLoading`, and the scheduling of the 2000 ms typing indicator. The timer's firing is `TypingTimerFires`.
- `Date.now()` for the temporary upload key and `URL.createObjectURL` are left out; the local URL is a parameter. So is `toLocaleDateString`, which picks today's entry of the diet plan: the day's plan only enters the chat prompt, which is not modelled.
- Math.random's comparator sort is left out. Its outcome is an arbitrary permutation `perm`.
- Floating-point display, such as the rounded percentage and the progress bar width, is left out. The score bands use the exact integer equivalent.
- Rendering details (animations, icons, styling) and the components outside the core (dashboard, image upload, identification view, diet-plan screen, landing page, auth form) are left out. DietPlan.tsx calls `generateDietPlan`, but that screen is not part of this model.
- `String.prototype.trim` is modelled over Unicode scalar values; JavaScript strings are UTF-16 code units. The whitespace set contains no surrogate, so trimming gives the same result.
