# Divination front-end: page state machines in Dafny

This project models the parts of the divination web front-end that hold discrete state. The rest of the application is styling, animation and HTTP glue.

- **Coin-toss page** (`app/bu/page.tsx`), module `Bu`, class `Bu.BuPage`. The user types a matter of at most 100 UTF-16 code units and submits it. The backend answers with an id, normally six line strings, and a hexagram name. The user then reveals the lines one shake at a time, or all at once with a quick shake. Once six lines are out, the page polls the backend until the interpretation is ready. "Back" starts over. A carousel cycles through five example questions.
- **Hexagram component** (`app/components/HexagramDisplay.tsx`), module `HexagramDisplay`. It draws one bar per line string. The bar is broken (yin) when the string contains `"yin"` and solid (yang) otherwise.
- **Chat stub** (`app/chat/page.tsx`), module `Chat`, class `Chat.ChatPage`. The message list only grows. A send appends the user's message at once and schedules a canned bot reply. The reply is appended later.

Shared pieces are in `wrappers.dfy` (the `Option` type) and `text.dfy`. JavaScript's `trim` is modelled concretely (module `Text`) over the WhiteSpace and LineTerminator characters of ECMA-262. The lemma `TrimEmptyIffBlank` shows that `s.trim() === ''` holds exactly when every character is whitespace. A Dafny `char` is a Unicode character. JavaScript's `length` counts UTF-16 code units, two for a character outside the Basic Multilingual Plane such as an emoji. `Text.Utf16Length` counts the same way, and the 100-unit limit and the character counter use it.

Each page handler is a method of the page class. The things the page waits for become inputs:

- `Submit` takes the backend's reply to "generate a hexagram" as an argument: a success with id, lines and name, or a failure.
- `Poll` takes the reply to one poll: ready with an interpretation, not ready, or a failed request.
- Each firing of a timer is one call of `Poll`, `TickCarousel` or `Chat.ChatPage.DeliverReply`.

`BuPage` keeps two invariants:

- `Valid()` holds after every handler, whatever the screen shows. It says `matter` is at most 100 UTF-16 code units, `0 <= currentLine <= 6`, the carousel index is in `[0, 5)`, and `isLoading` is false.
- `Consistent()` holds in every state reached through the controls the page actually renders. Each handler's `ensures` states this as an implication: the render guard that shows the control, in the old state, implies `Consistent()` in the new state. For example, `Shake` preserves consistency when the shake buttons are showing. `Phase()` names the panel on screen: asking, shaking with k lines drawn, interpreting (polling or not), or answered. Each handler's contract says how the phase moves.

`isLoading` is set to true and back to false inside one synchronous handler, so it is false in every state. The shake buttons are therefore never disabled.

## Model

| member | source | states |
|---|---|---|
| `Text.Trim` | app/bu/page.tsx:353 | `trim` returns the part of `s` between an all-whitespace prefix and an all-whitespace suffix, and that part is empty or neither starts nor ends with whitespace |
| `Text.LeadingBlanks` | app/bu/page.tsx:353 | the leading run that `trim` strips is all whitespace and is followed by a non-whitespace character or the end |
| `Text.TrailingBlanks` | app/chat/page.tsx:92 | the trailing run that `trim` strips is all whitespace and is preceded by a non-whitespace character or the start |
| `Text.TrimEmptyIffBlank` | app/chat/page.tsx:92 | `s.trim() === ''` holds iff every character of `s` is whitespace, in both directions |
| `Text.TrimKeepsNonBlank` | app/bu/page.tsx:345 | a string with a non-whitespace character does not trim to empty |
| `Text.Utf16Length` | app/bu/page.tsx:335 | `value.length` counts at least one and at most two code units per character |
| `Text.Utf16LengthIsLengthIffBmp` | app/bu/page.tsx:433 | the code-unit length equals the character count iff no character lies outside the Basic Multilingual Plane |
| `HexagramDisplay.Includes` | app/components/HexagramDisplay.tsx:53 | `includes` finds the empty pattern in every string and a pattern at the start of the string, and a match means the pattern is no longer than the string |
| `HexagramDisplay.IncludesIff` | app/components/HexagramDisplay.tsx:53 | the `includes` scan returns true iff the pattern occurs at some index |
| `HexagramDisplay.Classify` | app/components/HexagramDisplay.tsx:53-60 | a line string is drawn as a yin bar iff `"yin"` occurs in it, and as a yang bar otherwise |
| `HexagramDisplay.Render` | app/components/HexagramDisplay.tsx:51-62 | one bar per line string, in the same order, each bar the classification of its string |
| `HexagramDisplay.RenderYinIff` | app/components/HexagramDisplay.tsx:53-59 | bar i is yin iff string i contains `"yin"`, and it is yang iff it does not |
| `HexagramDisplay.YangRendersSolid` | app/components/HexagramDisplay.tsx:58-59 | `"yang"`, the fallback the coin-toss page inserts, is drawn as a solid bar, and so is `"old yang"` |
| `HexagramDisplay.WithoutIRendersSolid` | app/components/HexagramDisplay.tsx:53-59 | any string without the letter `i` is drawn as a solid bar |
| `HexagramDisplay.YinRendersBroken` | app/components/HexagramDisplay.tsx:53-57 | any string containing `"yin"` is drawn as a broken bar |
| `HexagramDisplay.RenderIgnoresCurrentLine` | app/components/HexagramDisplay.tsx:48-63 | the drawing is the same whatever `currentLine` prop is passed |
| `HexagramDisplay.RenderAppend` | app/components/HexagramDisplay.tsx:51 | appending one line string appends exactly its bar and redraws nothing else |
| `Bu.NextExample` | app/bu/page.tsx:283 | the carousel index stays in `[0, 5)` and moves one step forward, wrapping from the last example to the first |
| `Bu.Ticks` | app/bu/page.tsx:281-286 | after any number of ticks the carousel index is in `[0, 5)` |
| `Bu.TicksWrap` | app/bu/page.tsx:283 | after k ticks from index i the carousel shows example `(i + k) mod 5` |
| `Bu.CarouselCycles` | app/bu/page.tsx:281-286 | five ticks bring the carousel back to where it started, and it shows five distinct examples on the way |
| `Bu.ResultFor` | app/bu/page.tsx:298-303 | the result carries the fixed symbol `䷀`, the stored hexagram name, a description that opens with that name, and the interpretation as the backend sent it |
| `Bu.LineAt` | app/bu/page.tsx:367-370 | a shake reveals the backend's line at the current position, or, with no line there, a string drawn as a solid bar |
| `Bu.Drawn` | app/bu/page.tsx:367-379 | after n single shakes there are exactly n lines, and line i is the backend's line i, or `"yang"` when the backend sent fewer lines |
| `Bu.DrawnExtends` | app/bu/page.tsx:378 | a later shake never redraws an earlier bar: the lines after m shakes are the first m lines after any later number of shakes |
| `Bu.DrawnIsPrefix` | app/bu/page.tsx:367-370 | while the backend has sent at least n lines, n shakes show exactly its first n lines, with no `"yang"` fallback |
| `Bu.QuickShakeAgreesWithShaking` | app/bu/page.tsx:389-396 | six single shakes and one quick shake leave the same lines iff the backend sent exactly six lines |
| `Bu.DrawnRendering` | app/bu/page.tsx:367-370 | after single shakes, bar i is the backend's line i classified, or a solid bar when there is no such line |
| `Bu.BuPage.CharCount` | app/bu/page.tsx:432-433 | the counter shows `matter.length` in UTF-16 code units: at least the character count, never more than 100, and equal to the character count iff no character needs a surrogate pair |
| `Bu.BuPage.CurrentExample` | app/bu/page.tsx:453 | the carousel always shows one of the five examples |
| `Bu.BuPage.constructor` | app/bu/page.tsx:268-278 | the page starts with every state field at its initial value, in the asking phase, valid and consistent |
| `Bu.BuPage.Input` | app/bu/page.tsx:333-339 | an edit is stored iff the new text is at most 100 UTF-16 code units, otherwise `matter` is unchanged; only `matter` changes; the phase is unchanged |
| `Bu.BuPage.Submit` | app/bu/page.tsx:352-364 | a blank matter or a failed request changes nothing; a success stores the reply's id, lines and name and sets `isSubmitted`; from the input form this moves to shaking with 0 lines |
| `Bu.BuPage.KeyPress` | app/bu/page.tsx:342-349 | Enter without Shift has the effect of a submit, and every other key changes nothing; from the input form the page moves to shaking with 0 lines exactly when Enter submits a non-blank matter successfully |
| `Bu.BuPage.Shake` | app/bu/page.tsx:373-386 | a no-op once 6 lines are out; otherwise appends exactly `LineAt(backendLines, currentLine)`, adds one to `currentLine` and starts polling exactly when `currentLine` reaches 6; from the shaking phase this gives shaking with k+1 lines, or interpreting with polling on at the sixth shake |
| `Bu.BuPage.QuickShake` | app/bu/page.tsx:389-396 | `lines := backendLines`, `currentLine := 6` and polling on; from the shaking phase this moves to interpreting with polling on |
| `Bu.BuPage.Poll` | app/bu/page.tsx:292-309 | no effect without an id or while not polling; a ready reply sets the result, with the stored hexagram name and the reply's interpretation, and stops polling; a not-ready reply changes nothing; a failure stops polling and leaves the result unset; consistency is preserved |
| `Bu.BuPage.Back` | app/bu/page.tsx:399-411 | every field returns to its initial value except the carousel index, which is unchanged; the page is back in the asking phase |
| `Bu.BuPage.TickCarousel` | app/bu/page.tsx:281-286 | the index moves to the next example cyclically and nothing else changes; the phase is kept |
| `Bu.ClearedIsConsistent` | app/bu/page.tsx:399-411 | a page with every field cleared is consistent and shows the input form |
| `Bu.PanelsFollowPhase` | app/bu/page.tsx:416-513 | in a consistent state, the input form, the shake buttons, the loading spinner and the result each show exactly in their own phase |
| `Bu.NearLimitBand` | app/bu/page.tsx:432 | `NearLimit`, the highlight on the counter, holds exactly when the counter shows 80 to 100 |
| `Bu.CanSubmitIffNotBlank` | app/bu/page.tsx:437-438 | the send button is enabled iff the matter is not all whitespace |
| `Bu.ShakingShowsDrawnLines` | app/bu/page.tsx:472-483 | while the shake buttons show, the hexagram has one bar per shake, each bar drawn from the backend's line at that position |
| `Bu.PollingOnlyWhileInterpreting` | app/bu/page.tsx:312-313 | polling runs only once six lines are out and no result is shown, so the loading spinner is on screen |
| `Chat.ReplyText` | app/chat/page.tsx:108 | the bot's reply has the fixed prefix and embeds the sent text right after it |
| `Chat.QuotedText` | app/chat/page.tsx:108 | an extracted quotation is the reply minus its fixed prefix and suffix: the canned reply to the quotation is exactly the string it came from |
| `Chat.QuotedTextOfReply` | app/chat/page.tsx:108 | the round trip: extracting the quotation from a reply gives back exactly the text that was sent |
| `Chat.NoQuoteMeansNoReply` | app/chat/page.tsx:108 | a string from which no quotation can be extracted is the canned reply to no input |
| `Chat.ChatPage.constructor` | app/chat/page.tsx:85-88 | the chat starts with the single non-user welcome message with id 1 and an empty input |
| `Chat.ChatPage.SetInput` | app/chat/page.tsx:134 | typing replaces the input |
| `Chat.ChatPage.Send` | app/chat/page.tsx:91-113 | blank input changes nothing and schedules nothing; otherwise appends exactly one user message with id = old length + 1 and the input text, keeps earlier messages, clears the input and schedules a reply carrying the old length and the input; ids stay in order |
| `Chat.ChatPage.KeyPress` | app/chat/page.tsx:136 | Enter has the effect of a send, and every other key changes nothing |
| `Chat.ChatPage.DeliverReply` | app/chat/page.tsx:105-112 | appends one non-user message with id = length at send time + 2 that quotes the text captured at send time; ids stay in order when no other send came in between |
| `Chat.SendEnabledIffNotBlank` | app/chat/page.tsx:138 | the send button is enabled iff the input is not all whitespace |
| `Chat.InterleavedRepliesRepeatAnId` | app/chat/page.tsx:96 | two sends before the first reply gives the ids 1, 2, 3, 3, 4, so ids are not unique |

## Left out

- `app/api.ts`: the HTTP calls. Their results appear only as the reply arguments of `Submit` and `Poll`. `getDivinationInterpretation` and `getDivinationHistory` are not called by the modelled pages.
- The `setInterval`/`setTimeout` scheduling (app/bu/page.tsx:281-286, 312-320; app/chat/page.tsx:105). Each firing is an explicit step instead. Interval periods and the clearing of intervals on unmount are not modelled.
- The `await` in `handleSubmit`. The model treats the request and its reply as one step. Edits made while a request is in flight are not modelled.
- `Bu.BuPage.Submit`: a second click on the send button while a generate request is in flight is not modelled. The button is not disabled during the request (app/bu/page.tsx:435-438), so the later reply can overwrite `backendLines` after shaking has begun.
- `Bu.BuPage.Poll`: the `await` in `pollResult` (app/bu/page.tsx:296) is not modelled. The guard check and the writes are one step. In the source, a poll request still in flight when Back is pressed still sets the result and stops polling when it resolves, because the cleanup at 316-320 only clears the interval. The reset page then holds a result, and after the next submit the old interpretation shows under the shake buttons and the spinner never appears. `Consistent()`'s clause `!isSubmitted ==> Cleared()` does not hold on that trace.
- React's batching of `setState` calls and the closure capture of state. Each handler is one atomic step on the current state. The chat reply's captured values are carried explicitly in `PendingReply`.
- The textarea height adjustment through the DOM (app/bu/page.tsx:324-330), `preventDefault` on Enter, and all toast and console output.
- Markdown rendering of the interpretation, and the `symbol` and `description` texts beyond their fixed form.
- `Bu.BuPage.Consistent`: preservation is proved only for handler calls the rendered page allows. Handlers called in other states, such as a shake before any submit, keep `Valid()` but may leave `Consistent()`.
- `Chat.ChatPage.DeliverReply`: id order is claimed only when each reply arrives before the next send. `Chat.InterleavedRepliesRepeatAnId` shows the other case.
- `Text`: a JavaScript string can hold an unpaired surrogate code unit, and a Dafny `string` cannot. Such strings are not modelled.
- `app/components/HexagramSphere.tsx`: the sphere layout uses floating-point trigonometry and `Math.random`, and rendering is three.js calls.
- `app/components/InkBackground.tsx`: random SVG paths, DOM path sampling and GSAP timelines, all decorative.
- `app/fortune/page.tsx` and `app/divination/page.tsx`: the outcomes are random picks from static text tables.
- `app/components/BottomNavBar.tsx`, `app/layout.tsx`, `app/page.tsx`, `app/xiang/page.tsx`, `app/yi/page.tsx`: layout, styling and routing only.
