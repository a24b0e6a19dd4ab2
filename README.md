# ManasMitra core logic in Dafny

ManasMitra is a mental-wellness web application. This project models its deterministic parts and proves properties about them:

- **The speech flow's media handling.** The speech model can return audio as inline base64 `data`, as a `data:` URI, or as an `http(s)://` URL. These are tried in a fixed order and turned into PCM bytes. The bytes are then wrapped as a `data:audio/wav;base64,…` URI. Base64 follows section 4 of RFC 4648; the URI form follows RFC 2397. The module also holds the conversation flow's empty-output check.
- **The voice page.** This covers the conversation it shows, the loading and recording flags, the microphone toggle and the speech recogniser's handlers.
- **The text chat.** This covers its submit guard, the request it builds, and the avatar initial.
- **The dashboard greeting.**
- **Four mini-games:**
  - Focus Challenge, a memory-pairs game against a 60-second clock;
  - Calm Pulse, a breathing rhythm game;
  - Choose Your Feelings, a branching story;
  - Story Completion, a three-screen writing exercise.

Modules:

- **Utilities:**
  - `Options`: the optional value;
  - `Base64`: the RFC 4648 codec with its round trip;
  - `Text`: prefix test, the second comma-separated field, ASCII upper-casing;
  - `Users`: the signed-in user record.
- **One module per source file:** `VoiceAgentFlow`, `VoiceAgentPage`, `ChatInterface`, `WelcomeHeader`, `FocusChallengeGame`, `CalmPulseGame`, `ChooseYourFeelingsGame`, `StoryCompletionGame`.

How the source becomes Dafny:

- **Pure code is pure here.** The media chain, the greeting, the avatar initial, the final-score formula, the story graph and the renders become functions.
- **State that the source updates becomes classes.** A page or game's React state becomes a class whose methods carry `modifies this` and state the whole new state.
- **Invariants.** The class invariants are `Valid()` predicates. The focus game keeps its invariant as a value-level predicate, `GameInvariant`, with step lemmas for a match (`MatchStep`) and a mismatch (`MismatchStep`); the methods for starting, clicking a card and the timer tick keep it in their own contracts.
- **Collaborators become parameters.** These are the AI flows, `fetch`, the WAV writer, `Math.random` and microphone permission. An `Option` result of `None` stands for a call that threw.
- **Timers become events.** `setTimeout` and `setInterval` callbacks are methods that the environment calls.

## Model

| member | source | states |
|---|---|---|
| Base64.Encode | src/ai/flows/voice-agent-flow.ts:165 | the encoding of n bytes has 4⌈n/3⌉ characters |
| Base64.EncodeIsAlphabet | src/ai/flows/voice-agent-flow.ts:165 | every character of an encoding is from the base64 alphabet or the pad `=` |
| Base64.Decode | src/ai/flows/voice-agent-flow.ts:130 | decoding succeeds only on text whose length is a multiple of 4, and gives at most 3 bytes per 4 characters |
| Base64.DecodeEncode | src/ai/flows/voice-agent-flow.ts:144-147 | round trip: decoding the encoding of any byte sequence gives it back |
| Base64.EncodeHasNoComma | src/ai/flows/voice-agent-flow.ts:147 | an encoding never contains a comma, so it is a whole comma-separated field of a URI |
| Text.SecondField | src/ai/flows/voice-agent-flow.ts:133 | `split(',')[1]` is undefined exactly when there is no comma; when defined, it contains no comma |
| Text.SecondFieldOfJoin | src/ai/flows/voice-agent-flow.ts:133 | for comma-free `a` and `b`, `split(',')[1]` of `a,b…` is `b`, whatever follows after a further comma |
| Text.UpperAscii | src/components/chat/chat-interface.tsx:57-58 | an ASCII lower-case letter becomes its upper-case letter; every other character is unchanged |
| VoiceAgentFlow.ErrorText | src/ai/flows/voice-agent-flow.ts:120-141 | exactly the four errors the flows throw by hand carry a message |
| VoiceAgentFlow.VoiceAgent | src/ai/flows/voice-agent-flow.ts:86-90 | the conversation flow fails exactly when the prompt gives no output; otherwise it returns that output unchanged |
| VoiceAgentFlow.DecodeBase64 | src/ai/flows/voice-agent-flow.ts:130 | succeeds exactly on well-formed base64, with the decoded bytes; otherwise fails as malformed |
| VoiceAgentFlow.WavUriPrefixText | src/ai/flows/voice-agent-flow.ts:147 | the prefix of the returned URI is exactly `data:audio/wav;base64,` |
| VoiceAgentFlow.WavDataUri | src/ai/flows/voice-agent-flow.ts:144-147 | the URI is exactly `data:audio/wav;base64,` followed by the base64 encoding of the WAV bytes, and that payload decodes back to exactly those bytes |
| VoiceAgentFlow.TextToSpeech | src/ai/flows/voice-agent-flow.ts:106-149 | no media gives "No audio…"; a failure to get the bytes is passed through; otherwise the result is exactly the WAV data URI of the writer's output, and its payload decodes to that output, for the bytes in mono, 24000 Hz, 16-bit |
| VoiceAgentFlow.AudioBytes | src/ai/flows/voice-agent-flow.ts:120-142 | the media normalisation: its failures are never the flow-level errors, network failures arise only for an `http(s)://` url without inline data, and a missing payload only for a comma-free `data:` url; the lemmas `InlineDataWins`, `EmptyDataFallsThrough`, `DataUriDecoded`, `HttpUrlFetched`, `UnexpectedFormatExactly` and `WrappedAndUnwrappedAgree` pin its result branch by branch |
| VoiceAgentFlow.InlineDataWins | src/ai/flows/voice-agent-flow.ts:129-130 | non-empty inline `data` decides the result, whatever `url` holds and whatever the network does |
| VoiceAgentFlow.EmptyDataFallsThrough | src/ai/flows/voice-agent-flow.ts:129-131 | an empty `data` string behaves exactly like no `data` |
| VoiceAgentFlow.DataUriDecoded | src/ai/flows/voice-agent-flow.ts:131-133 | a `data:` URL never reaches the network; it fails without a comma and is otherwise the decode of its second field |
| VoiceAgentFlow.HttpUrlFetched | src/ai/flows/voice-agent-flow.ts:134-139 | an http(s) URL is fetched: ok gives the body, not-ok gives "Failed to fetch…", a rejection is a network error |
| VoiceAgentFlow.UnexpectedFormatExactly | src/ai/flows/voice-agent-flow.ts:129-142 | "Unexpected TTS output format" iff there is no usable `data` and the `url` is absent or neither `data:` nor http(s) |
| VoiceAgentFlow.DataUriRoundTrip | src/ai/flows/voice-agent-flow.ts:131-133 | a comma-free `data:` head, a comma and the encoding of `b` resolve to exactly `b` |
| VoiceAgentFlow.WrappedAndUnwrappedAgree | src/ai/flows/voice-agent-flow.ts:128-133 | the same non-empty bytes as inline base64 and as `data:<mime>;base64,…` both resolve to those bytes |
| VoiceAgentFlow.WavUriReadable | src/ai/flows/voice-agent-flow.ts:131-147 | a WAV data URI, given back as a media `url`, resolves to exactly the WAV bytes it carries |
| VoiceAgentFlow.OutputIsReadableMedia | src/ai/flows/voice-agent-flow.ts:144-147 | the speech flow's output URI, read back as media, yields the WAV bytes it was built from |
| VoiceAgentPage.VoiceRequest | src/app/voice-agent/page.tsx:59-62 | the voice page's request: the conversation before the new message as history, and the text; `ChatInterface.RequestsDiffer` and `BeginMessageWith` relate it to the chat's request and the page state |
| VoiceAgentPage.TurnEntries | src/app/voice-agent/page.tsx:53-82 | a turn appends two or three entries, the user's text first; `TurnShape` fixes the rest |
| VoiceAgentPage.TurnShape | src/app/voice-agent/page.tsx:52-83 | a user turn adds 2 entries, or 3 when speech fails after the reply: user first, then model; reply second; the apology last on any failure |
| VoiceAgentPage.VoiceAgentPage.constructor | src/app/voice-agent/page.tsx:15-17 | empty conversation, not loading, not recording |
| VoiceAgentPage.VoiceAgentPage.BeginMessageWith | src/app/voice-agent/page.tsx:52-63 | `handleNewMessage` of the render whose conversation was `snapshot`: the conversation becomes snapshot + message, loading is set, and a user message is sent with the snapshot as history; a model message only appends |
| VoiceAgentPage.VoiceAgentPage.BeginMessage | src/app/voice-agent/page.tsx:52-63 | the current render's `handleNewMessage`: appends exactly the message, and a user message is sent with the pre-append conversation as history |
| VoiceAgentPage.VoiceAgentPage.ReplyArrived | src/app/voice-agent/page.tsx:60-80 | a reply is appended and sent to speech; a failure appends the apology and ends the turn with loading cleared |
| VoiceAgentPage.VoiceAgentPage.SpeechArrived | src/app/voice-agent/page.tsx:69-82 | audio goes to the player with the transcript unchanged; a failure appends the apology; loading always ends |
| VoiceAgentPage.VoiceAgentPage.HandleNewMessage | src/app/voice-agent/page.tsx:52-83 | a whole turn appends exactly `TurnEntries`, sends the pre-append conversation, sets the player only when both calls succeed, and ends not loading |
| VoiceAgentPage.VoiceAgentPage.ToggleRecording | src/app/voice-agent/page.tsx:86-106 | no recogniser: nothing changes; recording: stops; otherwise recording starts exactly when microphone access is granted |
| VoiceAgentPage.VoiceAgentPage.PressMic | src/app/voice-agent/page.tsx:157 | the disabled button: while loading, or without a recogniser, a press changes nothing; otherwise it stops recording or starts it when access is granted |
| VoiceAgentPage.VoiceAgentPage.OnError | src/app/voice-agent/page.tsx:36-39 | recording stops; nothing else changes |
| VoiceAgentPage.VoiceAgentPage.OnEnd | src/app/voice-agent/page.tsx:41-43 | recording stops; nothing else changes |
| VoiceAgentPage.VoiceAgentPage.OnResultAsWritten | src/app/voice-agent/page.tsx:23-34 | the mount-time handler: `results[0][0]` starts a turn from an empty history and replaces the transcript with that one message |
| VoiceAgentPage.VoiceAgentPage.OnResult | src/app/voice-agent/page.tsx:31-34 | `results[0][0]` is appended as a user message and sent with the conversation so far; with no result nothing changes |
| VoiceAgentPage.TwoUtterances | src/app/voice-agent/page.tsx:23-55 | two spoken turns: as written, the second is sent with history `[]` and the transcript keeps only it; corrected, it carries the first turn's entries |
| ChatInterface.ChatRequest | src/components/chat/chat-interface.tsx:45-49 | the chat's request: the messages with the new one appended as history, and the text as `currentInput`; `RequestsDiffer` states it against the voice page's request |
| ChatInterface.RequestsDiffer | src/components/chat/chat-interface.tsx:44-49 | the chat's history is the voice page's history plus the new message; both send the text as `currentInput`, so in the chat it appears twice |
| ChatInterface.ChatInterface.constructor | src/components/chat/chat-interface.tsx:20-22 | no messages, empty input, nothing pending |
| ChatInterface.ChatInterface.SetInput | src/components/chat/chat-interface.tsx:119 | the input becomes the text; nothing else changes |
| ChatInterface.ChatInterface.HandleSubmit | src/components/chat/chat-interface.tsx:36-52 | empty input or a pending request: nothing changes; otherwise exactly one user message is appended, the input is cleared, and the request is prior messages + the new one |
| ChatInterface.ChatInterface.ResponseArrived | src/components/chat/chat-interface.tsx:50 | the reply is appended as exactly one model message |
| ChatInterface.UserInitial | src/components/chat/chat-interface.tsx:54-60 | the avatar letter, characterised by `InitialMatchesGreeting` |
| ChatInterface.InitialMatchesGreeting | src/components/chat/chat-interface.tsx:54-60 | the avatar letter is the upper-cased first character of the name the greeting uses; otherwise 'A' for anonymous and 'U' for everyone else |
| WelcomeHeader.GreetedName | src/components/dashboard/welcome-header.tsx:14-17 | a greeting names someone only if it is "Welcome back, " followed by that name |
| WelcomeHeader.Greeting | src/components/dashboard/welcome-header.tsx:8-22 | the greeting cascade, characterised case by case by `GreetingAddressesUser` |
| WelcomeHeader.GreetingAddressesUser | src/components/dashboard/welcome-header.tsx:8-22 | names the user iff signed in, not anonymous, and with a display name or email; the display name comes first; anonymous beats both; no user is a guest; a signed-in user with neither name nor email gets plain "Welcome back" |
| FocusChallengeGame.CardPairs | src/components/games/focus-challenge-game.tsx:30-34 | the unshuffled deck has 16 cards |
| FocusChallengeGame.IsDealtDeck | src/components/games/focus-challenge-game.tsx:26-35 | a shuffle of the pairs is any permutation of them; `DealtDeckShape`, `DealtCardsArePairs`, `DealtIdsDistinct` and `IconsOnTwoCards` give its shape |
| FocusChallengeGame.DealtDeckShape | src/components/games/focus-challenge-game.tsx:26-36 | any shuffle of the pairs: 16 cards with distinct ids 0..15, icon id/2, exactly two per icon, all face-down and unmatched, and every card present |
| FocusChallengeGame.DealtCardsArePairs | src/components/games/focus-challenge-game.tsx:26-35 | a shuffle of the pairs has 16 cards, each one of the pairs' cards, and deals every pair card |
| FocusChallengeGame.DealtIdsDistinct | src/components/games/focus-challenge-game.tsx:26-35 | a shuffle deals no card twice, so the ids are distinct |
| FocusChallengeGame.IconsOnTwoCards | src/components/games/focus-challenge-game.tsx:31-34 | in such a deck each of the 8 icons is on exactly two cards |
| FocusChallengeGame.MatchedIconsBound | src/components/games/focus-challenge-game.tsx:69 | at most 8 icons can be matched |
| FocusChallengeGame.MarkMatched | src/components/games/focus-challenge-game.tsx:65-67 | after a match exactly the cards with that icon become matched; nothing else changes |
| FocusChallengeGame.FlipDown | src/components/games/focus-challenge-game.tsx:76-78 | after a mismatch exactly the two cards turn face-down; nothing else changes |
| FocusChallengeGame.MatchStep | src/components/games/focus-challenge-game.tsx:62-71 | a match keeps the game invariant with one more point, ending the game on the eighth pair |
| FocusChallengeGame.MismatchStep | src/components/games/focus-challenge-game.tsx:72-81 | a mismatch keeps the game invariant |
| FocusChallengeGame.MatchKeepsFlips | src/components/games/focus-challenge-game.tsx:65-68 | after a match, no unmatched card is face-up and the layout is kept |
| FocusChallengeGame.MatchAddsIcon | src/components/games/focus-challenge-game.tsx:64-67 | a match adds exactly its icon to the matched icons, a new one, so score = number of matched pairs |
| FocusChallengeGame.MismatchPreservesLayout | src/components/games/focus-challenge-game.tsx:76-79 | a mismatch keeps the layout and the matched icons and leaves no unmatched card face-up |
| FocusChallengeGame.PairIsWhole | src/components/games/focus-challenge-game.tsx:62-67 | two distinct cards of one icon are the whole pair: no third card has it |
| FocusChallengeGame.FocusGame.constructor | src/components/games/focus-challenge-game.tsx:39-44 | idle, no cards, 60 seconds, zero score and errors |
| FocusChallengeGame.FocusGame.StartGame | src/components/games/focus-challenge-game.tsx:94-101 | a dealt deck, playing, 60 seconds, score and errors 0, nothing flipped |
| FocusChallengeGame.FocusGame.HandleCardClick | src/components/games/focus-challenge-game.tsx:86-92 | a click counts only while playing with fewer than two flipped cards and the card face-down; then it flips only that card and appends its index; never more than two flipped |
| FocusChallengeGame.FocusGame.ResolvePair | src/components/games/focus-challenge-game.tsx:56-83 | with two flipped cards: a match scores and marks the icon matched, a mismatch counts an error and flips both down; either way the flipped list empties |
| FocusChallengeGame.FocusGame.ApplyMatch | src/components/games/focus-challenge-game.tsx:62-71 | score + 1, every card of the icon matched, flipped cleared, results on the eighth pair |
| FocusChallengeGame.FocusGame.ApplyMismatch | src/components/games/focus-challenge-game.tsx:72-81 | errors + 1, exactly the two cards face-down, flipped cleared |
| FocusChallengeGame.FocusGame.Tick | src/components/games/focus-challenge-game.tsx:46-54 | the clock drops by one only while playing with time left, and reaching 0 shows results |
| FocusChallengeGame.FocusGame.TimerEffect | src/components/games/focus-challenge-game.tsx:51-53 | a clock at 0 forces results |
| FocusChallengeGame.FocusGame.ResetGameAsWritten | src/components/games/focus-challenge-game.tsx:103-105 | "Play Again" only sets idle, so with the clock at 0 the effect puts the game straight back on results |
| FocusChallengeGame.FocusGame.ResetGame | src/components/games/focus-challenge-game.tsx:103-105 | corrected reset: idle with the clock restored to 60, so the game stays idle |
| FocusChallengeGame.TimeoutThenPlayAgain | src/components/games/focus-challenge-game.tsx:46-54 | after 60 ticks the game is on results; "Play Again" as written leaves it on results; the corrected reset reaches idle |
| CalmPulseGame.PhasesFillCycle | src/components/games/calm-pulse-game.tsx:10-13 | 3000 + 1000 + 4000 = 8000 ms |
| CalmPulseGame.TickScore | src/components/games/calm-pulse-game.tsx:77-86 | the score rises (by 2) iff holding in inhale, falls (by 1) iff holding in exhale with a positive score, and never goes below zero |
| CalmPulseGame.FinalScore | src/components/games/calm-pulse-game.tsx:170 | the final score is at most 100 |
| CalmPulseGame.FinalScoreIsRoundedPercentage | src/components/games/calm-pulse-game.tsx:170 | the integer formula equals `min(100, round(score / 300 * 100))` in exact reals with round-half-up |
| CalmPulseGame.PraiseThreshold | src/components/games/calm-pulse-game.tsx:170-183 | the praise shows (final score above 75) iff the raw score is at least 227 |
| CalmPulseGame.CalmPulse.constructor | src/components/games/calm-pulse-game.tsx:20-24 | idle, cycle 0, inhale, score 0, not holding |
| CalmPulseGame.CalmPulse.CycleEffect | src/components/games/calm-pulse-game.tsx:50-72 | while playing, a cycle below 5 starts with inhale and cycle 5 shows results; otherwise nothing |
| CalmPulseGame.CalmPulse.AdvancePhase | src/components/games/calm-pulse-game.tsx:57-68 | inhale → hold → exhale; the end of exhale counts the cycle, then the next inhale or, at 5, results |
| CalmPulseGame.CalmPulse.ScoreTick | src/components/games/calm-pulse-game.tsx:74-89 | while playing the score moves by `TickScore`; otherwise it is unchanged |
| CalmPulseGame.CalmPulse.KeyDown | src/components/games/calm-pulse-game.tsx:29-33 | only a fresh Space press during a game sets holding |
| CalmPulseGame.CalmPulse.KeyUp | src/components/games/calm-pulse-game.tsx:35-39 | only a Space release during a game clears holding |
| CalmPulseGame.CalmPulse.StartGame | src/components/games/calm-pulse-game.tsx:91-95 | playing from cycle 0 with score 0 and the first inhale; the holding flag is kept |
| CalmPulseGame.CalmPulse.ResetGame | src/components/games/calm-pulse-game.tsx:97-101 | idle with cycle and score 0 |
| CalmPulseGame.WholeSession | src/components/games/calm-pulse-game.tsx:50-72 | a started game reaches results after exactly 15 phase timers and 5 cycles |
| ChooseYourFeelingsGame.Find | src/components/games/choose-your-feelings-game.tsx:78 | the lookup returns a scenario of the story with the id, and fails iff no scenario has it |
| ChooseYourFeelingsGame.FindInStory | src/components/games/choose-your-feelings-game.tsx:28-62 | ids 1..4 resolve to their own scenarios; every other id resolves to nothing |
| ChooseYourFeelingsGame.EndNodeNotInStory | src/components/games/choose-your-feelings-game.tsx:28-65 | `END_NODE` 5 has no scenario |
| ChooseYourFeelingsGame.StoryShape | src/components/games/choose-your-feelings-game.tsx:28-62 | every option leads to 2..5, one level deeper; it is the end node exactly when the choice is not the first, so every path ends after two choices |
| ChooseYourFeelingsGame.ViewAsWritten | src/components/games/choose-your-feelings-game.tsx:105-181 | the render as written: "Loading story..." iff the id is not 1..4; a question shows step n+1 of 3 |
| ChooseYourFeelingsGame.ReflectionUnreachableAsWritten | src/components/games/choose-your-feelings-game.tsx:105-109 | as written the reflection screen is never rendered; at the end node the render is "Loading story..." |
| ChooseYourFeelingsGame.View | src/components/games/choose-your-feelings-game.tsx:105-181 | corrected render: the reflection iff at the end node, showing the pending flag and analysis; a question is labelled with step n+1 |
| ChooseYourFeelingsGame.ViewOfValidState | src/components/games/choose-your-feelings-game.tsx:105-178 | in every reachable state the corrected render is the reflection at the end node and a question elsewhere; the step never exceeds the total, and the last question reaches it |
| ChooseYourFeelingsGame.StepTotalNeverReachedAsWritten | src/components/games/choose-your-feelings-game.tsx:178 | as written the footer's "of 3" is never reached: the step shown is always below it |
| ChooseYourFeelingsGame.ChooseYourFeelings.constructor | src/components/games/choose-your-feelings-game.tsx:73-76 | scenario 1, no choices, no analysis |
| ChooseYourFeelingsGame.ChooseYourFeelings.HandleChoice | src/components/games/choose-your-feelings-game.tsx:80-97 | appends exactly one (scenario text, option text) after the earlier choices, moves to `nextId`, and requests analysis with the full list iff `nextId` is 5 |
| ChooseYourFeelingsGame.ChooseYourFeelings.ReceiveAnalysis | src/components/games/choose-your-feelings-game.tsx:90-93 | the result is stored and the request ends |
| ChooseYourFeelingsGame.ChooseYourFeelings.ResetGame | src/components/games/choose-your-feelings-game.tsx:99-103 | scenario 1, no choices, no analysis |
| ChooseYourFeelingsGame.PlayThrough | src/components/games/choose-your-feelings-game.tsx:80-109 | two choices send both for analysis; as written the page then shows "Loading story...", corrected it shows the pending reflection |
| StoryCompletionGame.PromptIndex | src/components/games/story-completion-game.tsx:23 | `floor(random * 3)` for a draw in [0, 1) is a valid starter index |
| StoryCompletionGame.EveryPromptDrawable | src/components/games/story-completion-game.tsx:10-23 | every starter is drawn by some value of `Math.random` |
| StoryCompletionGame.View | src/components/games/story-completion-game.tsx:43-132 | step 1 renders the start screen, step 2 the writing screen and step 3 the reflection screen, and any other step renders nothing; the start and writing screens show the game's starter and the writing screen the typed text; submit is enabled iff the text is non-empty and nothing is pending; the spinner shows iff pending; the analysis shows iff present and not pending, and what shows is the stored analysis |
| StoryCompletionGame.StoryCompletion.constructor | src/components/games/story-completion-game.tsx:22-26 | step 1, a starter drawn once, empty text, no analysis |
| StoryCompletionGame.StoryCompletion.BeginWriting | src/components/games/story-completion-game.tsx:63 | "Begin Writing" moves to step 2 |
| StoryCompletionGame.StoryCompletion.SetCompletion | src/components/games/story-completion-game.tsx:78 | the text becomes the typed value |
| StoryCompletionGame.StoryCompletion.HandleSubmit | src/components/games/story-completion-game.tsx:28-35 | requests analysis iff the text is non-empty, then with the starter and text, at step 3; an empty text changes nothing |
| StoryCompletionGame.StoryCompletion.ReceiveAnalysis | src/components/games/story-completion-game.tsx:31-34 | the response is stored and the request ends |
| StoryCompletionGame.StoryCompletion.ResetGame | src/components/games/story-completion-game.tsx:37-41 | step 1, empty text, no analysis; the starter is kept |
| StoryCompletionGame.PlayRound | src/components/games/story-completion-game.tsx:28-41 | a non-empty text sends exactly the drawn starter and the text, shows the spinner, then the analysis; an empty text stays on the writing screen with submit disabled |

## Left out

- **The AI model calls and their prompts.** These cover the conversation, speech, chat, choice-analysis and story-analysis flows. Their outcomes are parameters of the methods that receive them.
  - The server actions wrapping these flows are not part of this model: `voiceAgent`, `textToSpeech`, `getChatResponse`, `getChoiceAnalysis` and `getStoryAnalysis` from `src/lib/actions.ts`.
- **The WAV writer.** `toWav` is the opaque parameter `toWav(format, pcm)`, always given mono, 24000 Hz, 16-bit. Its byte layout is not modelled: it comes from an external package. Neither is its error path. No padding or header property is claimed.
- **`fetch`.** It is a parameter mapping a URL to a response with an ok flag and a body, or to a rejection. Reading the body is not modelled as I/O.
- VoiceAgentFlow.DecodeBase64: Node's `Buffer.from(…, 'base64')` is lenient. It skips characters outside the alphabet and accepts missing padding. The model decodes only well-formed RFC 4648 text and reports anything else as `MalformedBase64`, an outcome the source does not have.
- **Timers.** `setTimeout` and `setInterval` callbacks are discrete method calls. The focus game's one-second delay before turning a mismatched pair back is collapsed into `ResolvePair`. During that delay the source still rejects clicks, because two cards are flipped.
- **Randomness.** The `Math.random` shuffle is any permutation of the pairs (`IsDealtDeck`). The story starter is drawn from a parameter in [0, 1).
- VoiceAgentPage.VoiceAgentPage.BeginMessage: this, `BeginMessageWith`, `HandleNewMessage` and both result handlers require that no turn is in flight. On the page a new utterance needs the microphone button, which is disabled while a turn is loading. Overlapping turns are not modelled.
- **Stale React closures outside the voice recogniser.** In the chat, the transition's `currentInput` is the submitting render's input. That equals the submitted text, so the model just uses the text.
- **A failing `getChatResponse`.** The failure path is not modelled: the chat flow's reply is always given.
- **Non-ASCII text.** `charAt(0)` works on UTF-16 code units, and `toUpperCase` is upper-casing for full Unicode. The model upper-cases ASCII letters only, and strings are Dafny `string`s.
- **Rendering, animation, scrolling, `alert`/`console` messages and the audio player's `play()`.**
- **Floating point.** The Calm Pulse final score is computed in exact reals and integers. For an integer score, `score / 300 * 100` is never within a rounding error of a half, so the result is the same.
- **Features the code does not have.** There is no "transcribing" recording state, no single-turn lock beyond the disabled button, and no WAV padding rule in the code. None of them is modelled.
- **Calm Pulse holding flag.** `StartGame` keeps the holding flag as the source does. A Space key still held when a game ended stays "held" into the next game, because the key listeners are removed when a game ends. This is recorded in the contract, not listed as a finding.

## Findings

| source | as written | input that shows it | evidently intended | confidence | as-written member | corrected member |
|---|---|---|---|---|---|---|
| src/components/games/focus-challenge-game.tsx:103-105 | `resetGame` only sets the state to idle. After a timeout the clock is still 0, so the timer effect (46-54) sets results again | let the 60 seconds run out, then press "Play Again": the results screen stays | "Play Again" returns to the start screen, e.g. by restoring the clock | not executed; high | FocusChallengeGame.TimeoutThenPlayAgain | FocusChallengeGame.FocusGame.ResetGame |
| src/components/games/choose-your-feelings-game.tsx:105-109 | The lookup runs before the end-node test, and `story` has no id 5, so at the end node the page shows "Loading story..." | pick any two options: the reflection screen never appears, and the page has no way back | the reflection screen with the analysis and "Play Again" | not executed; high | ChooseYourFeelingsGame.ReflectionUnreachableAsWritten | ChooseYourFeelingsGame.ViewOfValidState |
| src/components/games/choose-your-feelings-game.tsx:178 | the footer total is `story.length - 1` = 3 | every path ends after two choices: "Step 1 of 3", "Step 2 of 3", then the end | the number of choices on a path, 2 | not executed; medium | ChooseYourFeelingsGame.StepTotalNeverReachedAsWritten | ChooseYourFeelingsGame.ViewOfValidState |
| src/app/voice-agent/page.tsx:31-34 | The recogniser's `onresult` is installed once at mount (effect with `[]`, 23-50). It calls the first render's `handleNewMessage`, whose `conversation` is `[]` | speak twice: the second request has history `[]`, and the transcript then holds only the second utterance and its reply | each spoken turn is sent with, and appended to, the conversation so far | not executed; high | VoiceAgentPage.TwoUtterances | VoiceAgentPage.VoiceAgentPage.OnResult |
