# NCAA basketball chat front-end — a Dafny model of its client logic

The front-end is a single-page Angular chat. A user types a natural-language
question about NCAA basketball data. The answer comes back as text, with an
optional table and an optional chart. This project models the two components
that hold the client's logic:

- **The conversation controller** (`ChatComponent`). It keeps the message
  list, the input draft and the `loading` flag, which admits one query at a
  time. It also keeps an append-only query history with a recall cursor
  (`historyIndex`) and a saved draft (`draftBeforeHistory`). ArrowUp and
  ArrowDown walk that history. It has a history panel and a bulk
  "process queries" action guarded by `processingQueries`. Its pure helper
  `formatTime` renders durations.
- **The chart renderer** (`GraphRendererComponent`). `formatLabel` turns
  snake_case field names into titles. `renderPlot` dispatches on `chartType`
  to build the traces and the layout handed to the plotting library.

Files:

- `wrappers.dfy`: `Option`, standing for TypeScript's optional fields.
- `text.dfy`: JavaScript's `String.prototype.trim`, with its full whitespace
  set. Also the decimal rendering of numbers in template literals.
- `models.dfy`: the payload and message shapes (`ChatMessage`,
  `ChatResponse`, `GraphData` with a `ChartType` tag, `HttpError`).
- `graph_renderer.dfy`: `FormatLabel` and its proofs. `Render` is the
  dispatch as a function of the payload. `RenderPlot` is the imperative
  version (a `forEach` that pushes into `data`), proved equal to `Render`.
- `chat.dfy`: `ChatState` is a snapshot of the component's fields. Each
  handler is specified by a function `After…` on it, which is proved to keep
  the invariant `Inv`. The `ChatComponent` class updates its fields in place,
  and each of its methods is proved to produce `After…(old(State()))`. Next
  come `FormatTime` and the lemmas about several steps in a row (recall
  walks, round trips, exchanges).

The HTTP calls are not modelled. Each subscription callback is a method of its
own (`CompleteSuccess`, `CompleteError`, `CompleteProcessSuccess`,
`CompleteProcessError`). The `sendMessage` callbacks use the query the
subscription captured. The model keeps that query in the field `pending`,
which is set while a request is outstanding. Clock readings (`timeTaken`) are
parameters.

Three behaviours of the component worth noting:

- A bar chart falls back to the single primary colour only when `y` is empty
  (`graph-renderer.component.ts:328`). It does not fall back for fewer than
  two points: one point gets a one-step gradient.
- The query history is unbounded.
- `toggleHistoryPanel` itself does not check `loading`. Only the template
  disables its button.

## Model

| member | source | states |
|---|---|---|
| `Text.Trim` | src/app/components/chat/chat.component.ts:589 | `trim()` yields "" exactly when the input is all ECMAScript whitespace. Otherwise it yields the infix between a whitespace prefix and a whitespace suffix, which starts and ends with non-whitespace. |
| `Text.TrimIdempotent` | src/app/components/chat/chat.component.ts:589 | A trimmed query trims to itself. |
| `Text.LeadingWhitespace` | src/app/components/chat/chat.component.ts:589 | Counts the maximal whitespace prefix: all of it is whitespace and the next character is not. |
| `Text.TrailingWhitespace` | src/app/components/chat/chat.component.ts:589 | Counts the maximal whitespace suffix, the mirror image of the prefix count. |
| `Text.NatToString` | src/app/components/chat/chat.component.ts:786-792 | The decimal rendering inside a template literal is all digits, at least one, with no leading zero unless the number is 0. |
| `Text.NatToStringRoundTrip` | src/app/components/chat/chat.component.ts:786-792 | Reading the printed digits back gives the number printed. |
| `Text.IntToString` | src/app/components/chat/chat.component.ts:786 | `${milliseconds}` is non-empty. It starts with '-' exactly when the number is negative, and every other character is a digit. |
| `Text.IntToStringRoundTrip` | src/app/components/chat/chat.component.ts:786 | Reading the printed digits back gives the absolute value, and the sign gives back the sign, so the text names exactly the integer printed. |
| `Chat.FormatTime` | src/app/components/chat/chat.component.ts:783-794 | Every duration text ends in 's'. It ends in "ms" exactly when the duration is under one second. |
| `Chat.FormatTimeBelowOneSecond` | src/app/components/chat/chat.component.ts:785-786 | Under 1000 ms the text is the millisecond count followed by "ms". |
| `Chat.FormatTimeSeconds` | src/app/components/chat/chat.component.ts:784-788 | A duration of k whole seconds, 1 ≤ k < 60, prints as "ks", whatever its sub-second part. |
| `Chat.FormatTimeMinutes` | src/app/components/chat/chat.component.ts:789-793 | A duration of m ≥ 1 minutes and s < 60 seconds prints as "mm ss". |
| `Chat.Initial` | src/app/components/chat/chat.component.ts:547-559 | The initial field values satisfy the invariant. |
| `Chat.AfterWelcome` | src/app/components/chat/chat.component.ts:581-586 | Exactly the welcome bot message (fixed text, no response, no time) is appended after the unchanged earlier messages. No other field changes, and the invariant is kept. |
| `Chat.AddedToHistory` | src/app/components/chat/chat.component.ts:725-733 | The history is unchanged or gets exactly the query at its end. A non-empty query ends up as the newest entry. A history with no equal neighbours keeps none. |
| `Chat.AfterSend` | src/app/components/chat/chat.component.ts:588-608 | `sendMessage` changes nothing exactly when the trimmed input is empty or `loading` is set. Otherwise it appends one user message with the trimmed query and puts the query into history via `AddedToHistory`. It clears the input, the recall and the saved draft, and resets `elapsedTime`. It starts `loading` for that query. No other field changes, and the invariant is kept. |
| `Chat.AfterSuccess` | src/app/components/chat/chat.component.ts:611-622 | The success callback appends exactly one bot message `{query, isUser: false, response, timeTaken}` with the captured query, after the unchanged earlier messages. It clears `loading`, `elapsedTime` and the captured query. No other field changes, and the invariant is kept. |
| `Chat.FirstTruthy` | src/app/components/chat/chat.component.ts:627 | A chain of logical-or operands stops at the first present non-empty string: every operand before it is absent or empty. |
| `Chat.ErrorDetailChoice` | src/app/components/chat/chat.component.ts:627 | The error detail is the server message if non-empty, else the transport message if non-empty, else the fallback. |
| `Chat.AfterError` | src/app/components/chat/chat.component.ts:623-633 | The error callback appends exactly one bot message: "Sorry, I encountered an error: " followed by the chosen detail, with `timeTaken`. Earlier messages are unchanged. It clears `loading`, `elapsedTime` and the captured query. No other field changes, and the invariant is kept. |
| `Chat.AfterKeyDown` | src/app/components/chat/chat.component.ts:637-679 | Enter without Shift acts exactly as `sendMessage`. Any other key leaves history and messages alone. Shift+Enter and other keys change nothing, nothing changes while `loading`, and the arrows change nothing with an empty history. After ArrowUp and ArrowDown the cursor stays in bounds and the input shows the recalled entry (the invariant). |
| `Chat.AfterArrowUp` | src/app/components/chat/chat.component.ts:646-662 | ArrowUp is a no-op while loading or with an empty history. History, messages and `loading` never change, and the invariant is kept, so the cursor stays in bounds and the input shows the recalled entry. |
| `Chat.AfterArrowDown` | src/app/components/chat/chat.component.ts:646-678 | ArrowDown is a no-op while loading, with an empty history or without a recall. History, messages and `loading` never change, and the invariant is kept. |
| `Chat.AfterInputChange` | src/app/components/chat/chat.component.ts:681-686 | An input event stores the new text, cancels the recall and clears the saved draft. No other field changes. |
| `Chat.AfterToggle` | src/app/components/chat/chat.component.ts:688-693 | The panel toggle is a no-op when the feature is off or the history is empty. Otherwise it flips `showHistory` and changes nothing else. It keeps the invariant. |
| `Chat.AfterClose` | src/app/components/chat/chat.component.ts:695-697 | Closing hides the panel. No other field changes, and the invariant is kept. |
| `Chat.AfterLoadHistoryItem` | src/app/components/chat/chat.component.ts:699-707 | An index outside the history is a no-op. Otherwise the input becomes the entry, the cursor moves to the index and the saved draft is cleared, and nothing else changes. The invariant is kept. |
| `Chat.AfterProcessStart` | src/app/components/chat/chat.component.ts:804-809 | `processQueries` is a no-op while a run is in progress. Otherwise it sets the flag and changes nothing else. |
| `Chat.AfterProcessSuccess` | src/app/components/chat/chat.component.ts:813-840 | The success callback clears the flag. It appends exactly one bot message with the summary and the reported time (the measured time when none or zero is reported) after the unchanged earlier messages. No other field changes. |
| `Chat.AfterProcessError` | src/app/components/chat/chat.component.ts:841-851 | The error callback clears the flag. It appends exactly one bot message, the prefix followed by the chosen detail (fallback "Unknown error occurred"), with the measured time, after the unchanged earlier messages. No other field changes. |
| `Chat.ChatComponent.constructor` | src/app/components/chat/chat.component.ts:547-563 | The fields start at their initial values, with the two feature flags as given, and the invariant holds. |
| `Chat.ChatComponent.OnInit` | src/app/components/chat/chat.component.ts:565-567 | `ngOnInit` appends the welcome message. |
| `Chat.ChatComponent.SendMessage` | src/app/components/chat/chat.component.ts:588-608 | New state as `AfterSend`: the history update is delegated to `AddQueryToHistory` and the recall reset to `ResetHistoryNavigation`, as in the source. |
| `Chat.ChatComponent.CompleteSuccess` | src/app/components/chat/chat.component.ts:611-622 | Appends `{query, isUser: false, response, timeTaken}`. Clears `loading` and `elapsedTime`. |
| `Chat.ChatComponent.CompleteError` | src/app/components/chat/chat.component.ts:623-633 | Appends "Sorry, I encountered an error: " followed by the chosen detail, with `timeTaken`. Clears `loading` and `elapsedTime`. |
| `Chat.ChatComponent.OnInputKeyDown` | src/app/components/chat/chat.component.ts:637-679 | New state as `AfterKeyDown`. `preventDefault` is reported exactly for Enter without Shift, and for arrows when not loading and history is non-empty. |
| `Chat.ChatComponent.RecallOlder` | src/app/components/chat/chat.component.ts:650-662 | The ArrowUp branch. New state as `AfterArrowUp`. |
| `Chat.ChatComponent.RecallNewer` | src/app/components/chat/chat.component.ts:663-678 | The ArrowDown branch. New state as `AfterArrowDown`. |
| `Chat.ChatComponent.HandleInputChange` | src/app/components/chat/chat.component.ts:681-686 | New state as `AfterInputChange`. |
| `Chat.ChatComponent.ToggleHistoryPanel` | src/app/components/chat/chat.component.ts:688-693 | New state as `AfterToggle`. |
| `Chat.ChatComponent.CloseHistoryPanel` | src/app/components/chat/chat.component.ts:695-697 | Only `showHistory` changes, to false. |
| `Chat.ChatComponent.LoadHistoryItem` | src/app/components/chat/chat.component.ts:699-707 | Out of range: no change. Otherwise input := entry, cursor := index, saved draft := "". |
| `Chat.ChatComponent.AddQueryToHistory` | src/app/components/chat/chat.component.ts:725-733 | Only `queryHistory` changes, as `AddedToHistory`. |
| `Chat.ChatComponent.ResetHistoryNavigation` | src/app/components/chat/chat.component.ts:735-738 | Only the cursor (to null) and the saved draft (to "") change. |
| `Chat.ChatComponent.ProcessQueries` | src/app/components/chat/chat.component.ts:804-809 | New state as `AfterProcessStart`. |
| `Chat.ChatComponent.CompleteProcessSuccess` | src/app/components/chat/chat.component.ts:813-840 | Called only while a run is in progress. Clears the flag. Appends the summary with the reported time, or the measured time when none or zero is reported. |
| `Chat.ChatComponent.CompleteProcessError` | src/app/components/chat/chat.component.ts:841-851 | Called only while a run is in progress. New state as `AfterProcessError`. The prefix is kept exactly as the source file's characters (U+201A U+00F9 U+00E5, then " Error processing queries: "). |
| `Chat.SuccessfulExchange` | src/app/components/chat/chat.component.ts:588-622 | An accepted submission followed by success appends exactly two messages in order: the user's trimmed query, then the bot's message with the response. `loading` ends and the query is the newest history entry. |
| `Chat.FailedExchange` | src/app/components/chat/chat.component.ts:588-633 | An accepted submission followed by failure appends exactly the user message and the error message. |
| `Chat.RepeatedQueryStoredOnce` | src/app/components/chat/chat.component.ts:725-733 | Submitting the same query again after the first exchange adds no history entry, but still adds the user message. |
| `Chat.OlderStep` | src/app/components/chat/chat.component.ts:650-662 | One ArrowUp press. The first press saves the draft and shows the newest entry, and later presses move one entry older, stopping at the oldest. Nothing else changes. |
| `Chat.NewerStep` | src/app/components/chat/chat.component.ts:663-678 | One ArrowDown press. Without a recall nothing changes. Before the newest entry it moves one entry newer. On the newest entry it restores the draft and ends the recall. |
| `Chat.PressUp` | src/app/components/chat/chat.component.ts:650-662 | Any number of ArrowUp presses keeps the invariant. |
| `Chat.PressDown` | src/app/components/chat/chat.component.ts:663-678 | Any number of ArrowDown presses keeps the invariant. |
| `Chat.OlderFromDraft` | src/app/components/chat/chat.component.ts:650-662 | From a draft, n ≥ 1 ArrowUp presses save the draft and show the entry n back from the newest, stopping at the oldest. |
| `Chat.NewerWalk` | src/app/components/chat/chat.component.ts:669-672 | From recalled entry i, k ArrowDown presses show entry i+k while it exists. |
| `Chat.NewerPastNewestRestoresDraft` | src/app/components/chat/chat.component.ts:663-678 | From recalled entry i, (history length − i) ArrowDown presses restore the saved draft and clear the cursor and the saved draft. |
| `Chat.UpThenDownRestores` | src/app/components/chat/chat.component.ts:646-678 | ArrowUp then ArrowDown from a draft gives back exactly the original state. |
| `Chat.RecallRoundTrip` | src/app/components/chat/chat.component.ts:646-678 | Any number of ArrowUp presses, then enough ArrowDown presses to pass the newest entry, give back exactly the original state. |
| `GraphRenderer.UnderscoresToSpaces` | src/app/components/graph-renderer/graph-renderer.component.ts:87 | Same length. Every underscore becomes a space and every other character is kept. |
| `GraphRenderer.Split` | src/app/components/graph-renderer/graph-renderer.component.ts:90 | `split(' ')` yields at least one piece, and no piece contains a space. |
| `GraphRenderer.SplitJoinRoundTrip` | src/app/components/graph-renderer/graph-renderer.component.ts:90-95 | `join(' ')` after `split(' ')` gives back the string, empty pieces included. |
| `GraphRenderer.FormatLabel` | src/app/components/graph-renderer/graph-renderer.component.ts:83-84 | The empty label formats to "". |
| `GraphRenderer.ScanMatchesPipeline` | src/app/components/graph-renderer/graph-renderer.component.ts:90-95 | The split/capitalize/join pipeline equals a one-pass title-casing scan. |
| `GraphRenderer.ScanAt` | src/app/components/graph-renderer/graph-renderer.component.ts:91-94 | The scan keeps length and spaces. It upper-cases the first character of each word and lower-cases the rest. |
| `GraphRenderer.FormatLabelIsScan` | src/app/components/graph-renderer/graph-renderer.component.ts:83-98 | `formatLabel` is the scan applied after replacing underscores. |
| `GraphRenderer.FormatLabelAt` | src/app/components/graph-renderer/graph-renderer.component.ts:83-98 | Character by character: same length as the input. Space exactly where the input has a space or an underscore. Upper-cased at a word start, lower-cased elsewhere. |
| `GraphRenderer.FormatLabelShape` | src/app/components/graph-renderer/graph-renderer.component.ts:87-97 | The output has the input's length and contains no underscore. |
| `GraphRenderer.FormatLabelWordCase` | src/app/components/graph-renderer/graph-renderer.component.ts:90-95 | In the output, a word's first character is not lower-case and its other characters are not upper-case. |
| `GraphRenderer.FormatCharFacts` | src/app/components/graph-renderer/graph-renderer.component.ts:87-95 | Formatting one character twice the same way gives the same character, and a character is a separator after formatting exactly when it was one before. |
| `GraphRenderer.FormatLabelIdempotent` | src/app/components/graph-renderer/graph-renderer.component.ts:83-98 | Formatting a formatted label changes nothing. |
| `GraphRenderer.FormatLabelIdempotentAt` | src/app/components/graph-renderer/graph-renderer.component.ts:83-98 | Idempotence at one position. |
| `GraphRenderer.RenderPlot` | src/app/components/graph-renderer/graph-renderer.component.ts:100-434 | No payload: nothing is drawn. Otherwise the traces accumulated with `push`, including the per-series loop, and the layout after `showlegend` is switched on equal `Render` of the payload. |
| `GraphRenderer.PieDispatch` | src/app/components/graph-renderer/graph-renderer.component.ts:139-184 | Pie: exactly one pie trace of the labels and values, with one gradient colour per label in index order. The legend is shown and there are no axes. The title is the formatted y label, or "Distribution" when that is empty. |
| `GraphRenderer.BubbleDispatch` | src/app/components/graph-renderer/graph-renderer.component.ts:185-257 | Bubble: exactly one marker-only scatter trace over x and y, sized per point by `sizes`. |
| `GraphRenderer.BarDispatch` | src/app/components/graph-renderer/graph-renderer.component.ts:311-336 | Bar: exactly one bar trace. It has one gradient colour per y value in index order, or the flat primary colour when y is empty. |
| `GraphRenderer.SeriesDispatch` | src/app/components/graph-renderer/graph-renderer.component.ts:337-384 | Line or multi_line with non-empty series: one lines+markers trace per series, in order, with fill none. Trace i takes its series' x and y and palette colour i mod 6. Its name is the series name, or "Series i+1" when that is absent or empty. The legend is shown. |
| `GraphRenderer.SeriesColoursDistinct` | src/app/components/graph-renderer/graph-renderer.component.ts:348-358 | Two series fewer than six positions apart get different colours. |
| `GraphRenderer.SingleLineDispatch` | src/app/components/graph-renderer/graph-renderer.component.ts:309-410 | Line or multi_line without series, or with an empty list: exactly one lines+markers trace filled `tonexty`, with no legend. |
| `GraphRenderer.ScatterFallbackDispatch` | src/app/components/graph-renderer/graph-renderer.component.ts:412-433 | Any other tag (scatter, or an undeclared one): exactly one marker-only scatter trace, with no legend. |
| `GraphRenderer.AxisChartLayout` | src/app/components/graph-renderer/graph-renderer.component.ts:185-307 | Every non-pie chart is titled "⟨y⟩ vs ⟨x⟩" from the formatted labels, and has them as axis titles. It shows a legend exactly for line/multi_line with series. |

## Left out

- HTTP: `ChatService` and the RxJS subscription plumbing are not modelled. Each callback is a method of its own, and the one outstanding request is the `pending` field.
- Timers and clocks: `startTimer`/`stopTimer`, the 100 ms `interval`, `Date.now()` and the ticks that update `elapsedTime` are not modelled. `timeTaken` and the measured processing time are parameters.
- DOM work is not modelled: `autoResizeTextarea`, `getMaxTextareaHeight` (floating point), `scrollToBottom`, `focusInput`, `handleWindowResize`. Calling `preventDefault` is modelled as the boolean `OnInputKeyDown` returns.
- The two-way binding of the textarea and the `(input)` handler are one event here (`HandleInputChange(text)`). The binding's write is not a separate step.
- The statistics text `processQueries` builds (counts, emoji, error list) is not modelled. `CompleteProcessSuccess` receives it as `summary`.
- Plotly is not modelled: `Plotly.newPlot`, the fixed `config` object, the window resize listener and its removal in `ngOnDestroy`.
- Angular lifecycle rules are not modelled: the `firstChange` re-render rule in `ngOnChanges`, templates and styles. `table-renderer.component.ts` and `app.component.ts` are templates only, with no logic to model.
- Feature flags: `feature-flags.ts` holds constants. They are constructor parameters here.
- Styling constants are not modelled: fonts, margins, line widths, opacity, `hovermode`, grid settings. The gradient's rgba strings are floating point, so a gradient colour is kept as its step index and step count only.
- Values of the `any[]` arrays are abstract (`Datum`), and JavaScript numbers are integers here. No fractional milliseconds reach `FormatTime`.
- GraphRenderer.FormatLabel: case mapping covers ASCII letters only. JavaScript's `toUpperCase`/`toLowerCase` also map other letters and can change the length ("ß" becomes "SS"). Length preservation and idempotence are therefore proved for this ASCII mapping only.
- Mismatched lengths among paired chart arrays are passed through unchecked, as the component does.
