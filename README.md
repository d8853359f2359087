# Conversation history of a terminal chat assistant

`assistant.py` is a terminal chat front end for a local language model. It
keeps the conversation as a list of `{role, content}` messages headed by a
system prompt. Each turn it reads a line (or a fenced multi-line block) and
classifies it as a command, an explicit `search <query>` or a plain message.
A plain message may trigger an implicit web search by keyword. The message is
appended, the list is cut to a sliding window, and the model's reply is stored.
A failed call takes the user message back out. When the reply is a
`SEARCH: <query>` request, the search runs and the model is asked again with
the results. Searches enrich vague queries from the latest typed question and
carry a digest of the recent exchanges.

This project models that core in Dafny:

- `Text`: the Python string operations the code relies on. These are
  `strip`, `lower`, slicing, `replace('\n', ' ')`, `in`, `split` and `join`,
  and the decimal rendering of the result numbers.
- `History`: the message type and `aplicar_sliding_window`.
- `Context`: `extraer_contexto_conversacional`, as a specification function
  and as the loop method proved equal to it.
- `WebSearch`: the enrichment, the result collection and the formatting of
  `buscar_web`. The search engine is a parameter.
- `Blocks`: the explicit, implicit and auto-search blocks, and how the digest
  and the enricher read them back.
- `Input`: multi-line capture, command classification and the implicit-search
  keywords.
- `Menus`: the model menu of `cambiar_modelo`, which reads its answers from
  the same input lines as the chat prompt.
- `Dialogue`: one turn of `asistente` as a pure function (`Step`) and a whole
  run (`RunSpec`). The `Session` class updates the message list, counters and
  model in place, and its methods are proved to do what those functions say.
- `Guarantees`: what the turn logic keeps and what it changes.
- `Settings`: the defaults, the merge done by `Config.load`, and the answers
  `Config.setup_wizard` reads and writes into the settings.

The model backends are oracles in an `Oracles` value:

- `chat`: a reply, or `None` for an exception.
- `search`: the hits, or `None` for an exception.
- `installed`: the names of the installed models, as `obtener_modelos` lists
  them; an empty list stands for a failed fetch.

The model menu and the setup wizard read their answers from the input lines
that follow the `model` or `config` command. Running out of input inside
them ends the loop with a save, as at the prompt.

## Model

| member | source | states |
|---|---|---|
| Text.StripSpan | assistant.py:452 | `strip()` keeps one contiguous piece that neither starts nor ends with whitespace; everything it drops on either side is whitespace |
| Text.StripInside | assistant.py:452 | every character of the stripped text is in the original |
| Text.Lower | assistant.py:477 | `lower()` keeps the length and folds each character on its own |
| Text.LowerIdempotent | assistant.py:477 | lower-casing twice equals lower-casing once |
| Text.LowerOfLowercase | assistant.py:246 | text without capitals is its own lower case |
| Text.Take | assistant.py:232 | `s[:n]` is the prefix of length min(n, len(s)) |
| Text.Flatten | assistant.py:232 | `replace('\n', ' ')` turns each line break into a space and keeps every other character, so the length stays and no line break is left |
| Text.PlainTextUnchanged | assistant.py:257 | flattening and stripping leave a one-line text without surrounding whitespace unchanged |
| Text.RemoveAllShrinks | assistant.py:626 | `replace(pat, "")` never lengthens a text and leaves one without `pat` untouched |
| Text.RemoveAllLeavesPattern | assistant.py:626 | deleting a pattern can create a new occurrence of it: the replace is not a full removal |
| Text.Split | assistant.py:226 | `split('\n')` gives at least one piece and no piece holds the separator |
| Text.JoinSplit | assistant.py:471 | joining the pieces of a split with the separator gives the text back |
| Text.SplitJoin | assistant.py:471 | splitting the join of separator-free lines gives the lines back |
| Text.Decimal | assistant.py:302 | the rendering of a number is a non-empty run of digits |
| Text.StripUnchanged | assistant.py:452 | text that neither opens nor closes with whitespace strips to itself |
| Text.DecimalRoundTrip | assistant.py:302 | reading the digits back gives the number |
| History.LastN | assistant.py:320 | `s[-k:]` is a suffix of length k, or the whole list when k is 0 or at least the length |
| History.SlidingWindow | assistant.py:315-324 | a short list is returned unchanged; a long one keeps index 0 followed by its last `max` messages, or the whole list again when `max` is 0 |
| History.SlidingWindowBounded | assistant.py:315-324 | a positive window yields at most `max + 1` messages, keeps the first and the last, and is idempotent |
| History.SlidingWindowIsCut | assistant.py:319-324 | the window is the list with one run after index 0 removed: nothing is reordered or invented |
| History.ZeroWindowDuplicatesHead | assistant.py:320 | with `max` 0, `messages[-0:]` is the whole list, so the head appears twice and the list grows |
| History.SlidingWindowKeepsSystemHead | assistant.py:315-324 | a positive window keeps the system prompt at the head and none after; a zero window breaks this |
| History.SlidingWindowTwentyFive | assistant.py:315-324 | 25 messages under the default 20 become the head plus messages 5..24 |
| Context.FirstQualifying | assistant.py:226-230 | the index found qualifies and none before it does; no index means no line qualifies |
| Context.UserLine | assistant.py:223-233 | the scan over the lines of a user message computes exactly that message's digest text |
| Context.ExtractContext | assistant.py:211-240 | the loop returns the digest: "" for at most one message, else the joined lines of the recent messages |
| Context.LinesSnoc | assistant.py:221-236 | each message adds its own line, if any, after the lines of those before it |
| Context.LinesCount | assistant.py:221-236 | exactly the user and assistant messages give a line, one each |
| Context.LinesLabelled | assistant.py:233-236 | every digest line starts with `User: ` or `Assistant: ` |
| Context.JoinEmptyIff | assistant.py:238-240 | joining non-empty lines gives "" exactly when there are none |
| Context.DigestEmptyIff | assistant.py:211-240 | the digest is empty exactly when the history has at most one message or its recent part has no user or assistant message |
| Context.PlainLineShape | assistant.py:231-236 | a typed message or reply becomes its label, its first 100 characters with each line break turned into a space, and `...` |
| Context.SearchLineShape | assistant.py:224-230 | a search-data message becomes its first qualifying line cut to 100, or its whole content when no line qualifies |
| WebSearch.LastOrganic | assistant.py:255-256 | the index found is the newest user message without `===`; no index means there is none |
| WebSearch.KeywordsShape | assistant.py:257 | the keywords are at most 50 characters, on one line, without surrounding whitespace |
| WebSearch.EnrichChangesOnlyVague | assistant.py:244-266 | a query is changed only when it is vague, the history has more than one message and a typed question exists; the rewrite then uses the newest one |
| WebSearch.EnrichDoItExample | assistant.py:262-263 | `how to do it` after a typed question becomes `how to do <question>` |
| WebSearch.QuestionIsOrganic | assistant.py:255-256 | the typed question of that example is the newest organic message |
| WebSearch.QuestionKeywords | assistant.py:257 | a short one-line question is its own keywords |
| WebSearch.DoItIsVague | assistant.py:244-246 | `how to do it` is a vague query |
| WebSearch.DoItRewrite | assistant.py:258-263 | `how to do it` is rewritten by the `do it` branch |
| WebSearch.DoItRewriteStaysVague | assistant.py:244-263 | every `how to do ...` rewrite is itself vague, since `how to do` is one of the phrases |
| WebSearch.EnrichStable | assistant.py:244-266 | enriching an enriched query that is not vague changes nothing |
| WebSearch.LowerPrefix | assistant.py:246 | lower-casing distributes over a lower-case prefix |
| WebSearch.CollectResults | assistant.py:281-288 | the loop keeps the hits in order and stops at ten or when the hits run out |
| WebSearch.Entries | assistant.py:297-302 | one entry per result, for at most the first five |
| WebSearch.Format | assistant.py:296-304 | the loop builds exactly the formatted text of the top five results |
| WebSearch.FormatResultsTopFive | assistant.py:297 | only the first five results affect the text |
| WebSearch.FormatResultsStart | assistant.py:297-304 | formatted results start with `1. **` |
| WebSearch.EnrichQuery | assistant.py:248-266 | the reverse scan computes the enriched query |
| WebSearch.SearchOutcomeShape | assistant.py:242-313 | results are missing exactly when the engine fails or finds nothing; a failed search has no context; the context is the non-empty digest of a history longer than one message |
| WebSearch.Search | assistant.py:242-313 | the imperative search returns exactly the outcome the specification gives |
| Blocks.ExplicitBlock | assistant.py:521-533 | the explicit block opens with the search header and the `Query:` line, carries the results after their label and ends with `=== END DATA ===` and the instruction |
| Blocks.ImplicitBlock | assistant.py:581-593 | the implicit block opens with the search header and the user's text as `Query:` line, carries the results and ends with `=== END ===` and its instruction |
| Blocks.UserMessage | assistant.py:595 | with a block, the message is the block, a blank line, then the user's text; without one it is the text alone |
| Blocks.AutoBlock | assistant.py:635-648 | the auto-search block opens with its own header, the user's text and the requested query, carries the results and ends with `=== END ===` and its instruction |
| Blocks.HeaderTags | assistant.py:521 | a text opening with a header contains `===` and, for the search header, the marker the digest looks for |
| Blocks.ExplicitTagged | assistant.py:521-533 | the explicit block counts as search data for the digest and is never taken for a typed question |
| Blocks.ImplicitTagged | assistant.py:581-595 | so is a user message carrying the implicit block before the text |
| Blocks.AutoTagged | assistant.py:635-648 | an auto-search block is never taken for a typed question |
| Blocks.QueryLineSecond | assistant.py:521-523 | the second line of a block is its `Query:` line |
| Blocks.SplitPrefix | assistant.py:226 | splitting text that starts with a separator-free part extends the first piece |
| Blocks.SummaryIsQueryLine | assistant.py:224-230 | the digest summarises a search block by its `Query:` line cut to 100 characters |
| Blocks.ExplicitDigestLine | assistant.py:521-533 | the digest line of an explicit block for a one-line query is `User: Query: <query>` cut to 100, then `...` |
| Blocks.ImplicitDigestLine | assistant.py:581-595 | the same holds for a message carrying the implicit block |
| Blocks.QueryLineQualifies | assistant.py:228 | a `Query:` line qualifies |
| Blocks.HeaderDoesNotQualify | assistant.py:228 | the header line does not |
| Blocks.AutoBlockLacks | assistant.py:635-648 | the auto block adds no capital B or L beyond what its parts hold |
| Blocks.DigestMissesAutoBlock | assistant.py:224-233 | the digest does not recognise the auto-search header: such a block is summarised like typed text |
| Input.CloseIndex | assistant.py:461-469 | the index found holds a closing fence, or the lines ran out |
| Input.CloseIndexFirst | assistant.py:464 | no line before it closes the block |
| Input.CloseIndexAtMost | assistant.py:464 | any closing line is at or after it |
| Input.ReadUntilFence | assistant.py:461-469 | the loop collects the lines before the first fence and says whether one was found |
| Input.CaptureBlock | assistant.py:454-472 | the capture computes the joined text, its lines and how many lines it used |
| Input.CaptureShape | assistant.py:454-472 | the capture is complete exactly when a fence exists, no captured line is a fence, and the line count matches |
| Input.CaptureRoundTrip | assistant.py:471 | splitting the captured text gives the captured lines back |
| Input.Classify | assistant.py:474-514 | only the empty input is blank; a chat keeps its text; an explicit search starts with `search ` in any case |
| Input.ClassifyIgnoresCase | assistant.py:477-513 | commands are recognised case-insensitively |
| Input.ChatIsNoCommand | assistant.py:474-514 | a chat message is non-empty, no command word and no `search ` prefix |
| Input.ExplicitQueryShape | assistant.py:513-515 | the query is at most the rest of the line, and is empty exactly when that rest is whitespace |
| Input.FindAnywhereTriggers | assistant.py:573-574 | any text holding `find` in any case, even inside a word, triggers a search |
| Input.NeedsSearchIgnoresCase | assistant.py:573-574 | the keyword test does not depend on case |
| Dialogue.DropLastUser | assistant.py:567-568 | the pop removes the last message exactly when it is a user message |
| Dialogue.Read | assistant.py:452-472 | reading a turn consumes at least one line and no more than there are |
| Dialogue.Step | assistant.py:450-711 | the end of input saves and stops; otherwise a turn consumes at least one line and no more than there are |
| Dialogue.Dispatch | assistant.py:474-699 | a command never reads more of the following lines than there are |
| Dialogue.RunSpecStep | assistant.py:450-711 | a run is its first turn followed by a run on what is left, with the turn's save in front |
| Dialogue.Session.constructor | assistant.py:444-446 | a session starts with the system prompt alone and zero counts |
| Dialogue.Session.Clear | assistant.py:483-487 | `clear` resets the list to the prompt and the count to zero, keeping model and switches |
| Dialogue.Session.SwitchModel | assistant.py:493-498 | `model` runs the menu on the following lines, takes its model and counts a switch only when it differs; end of input inside the menu saves and stops |
| Dialogue.Session.Send | assistant.py:534-568 | append, cut to the window, call; store the reply and count it, or pop the user message |
| Dialogue.Session.ExplicitSearchTurn | assistant.py:513-571 | `search <q>` does nothing without a query or results, else sends the explicit block |
| Dialogue.Session.AutoSearchTurn | assistant.py:625-686 | a `SEARCH:` reply runs the search on the current list, then the retry |
| Dialogue.Session.RetryTurn | assistant.py:631-686 | without results it counts a reply; with them it pops, sends the auto block, then stores the answer or pops again |
| Dialogue.Session.ImplicitSearch | assistant.py:573-595 | the implicit block is built only on a keyword and a successful search |
| Dialogue.Session.PlainMessage | assistant.py:573-699 | a plain turn updates the state exactly as the turn function says |
| Dialogue.Session.Answer | assistant.py:625-693 | the first reply is stored with an auto-save test, or triggers the auto-search |
| Dialogue.Session.Turn | assistant.py:452-711 | one turn of the loop updates the state and reports save, stop and lines used as `Step` does |
| Dialogue.Session.Run | assistant.py:450-711 | the loop ends in the state, and with the saves, that `RunSpec` gives |
| Guarantees.CommandsKeepHistory | assistant.py:474-511 | blank, exit, save, model, models and config never touch the history or count and only the model switch changes anything; a turn stops exactly on exit or on end of input inside the menu or wizard, and writes exactly then or on save |
| Guarantees.ClearResets | assistant.py:483-487 | clear gives a fresh session that keeps model and switch count |
| Guarantees.SwitchCountsChanges | assistant.py:493-498 | the menu's outcome decides: end of input saves and stops with the session unchanged; otherwise the model is the menu's, the switch count grows exactly when it differs, and the lines read are the command's and the menu's |
| Guarantees.ConfigReadsWizard | assistant.py:505-511 | `config` leaves the session as it was and reads the wizard's lines; end of input inside the wizard saves and stops |
| Guarantees.ConfigExample | assistant.py:505-511 | `config` followed by six answers is one turn over seven lines that changes nothing |
| Guarantees.ConfigWord | assistant.py:452-505 | a first line `config` is read alone and is the `config` command |
| Guarantees.ExplicitSearchWithoutResults | assistant.py:513-571 | an explicit search with an empty query or no results leaves the session as it was |
| Guarantees.HeadedAppend | assistant.py:596 | appending a non-system message keeps the list headed by the prompt |
| Guarantees.HeadedPrefix | assistant.py:567-568 | so does dropping messages from the end |
| Guarantees.WindowedUserMessage | assistant.py:596-597 | after appending and windowing, the list is headed, at most `max + 1` long and ends with the new message |
| Guarantees.ExchangeSound | assistant.py:534-568 | with a positive window an exchange keeps the list headed and at most `max + 2` long |
| Guarantees.RetrySound | assistant.py:631-686 | so does the auto-search retry |
| Guarantees.PlainTurnSound | assistant.py:596-699 | so does a plain turn |
| Guarantees.ExplicitTurnSound | assistant.py:513-571 | so does an explicit search |
| Guarantees.StepKeepsSound | assistant.py:450-711 | so does every turn |
| Guarantees.RunKeepsSound | assistant.py:450-711 | every saved state and the final state of a run are headed and at most `max + 2` long |
| Guarantees.PlainTurnCount | assistant.py:596-699 | a plain turn adds at most one to the count |
| Guarantees.CountStepsByOne | assistant.py:474-699 | a turn keeps the count, adds one, or resets it to zero on clear |
| Guarantees.WindowKeepsLast | assistant.py:596-597 | the appended message survives the window as its last entry |
| Guarantees.WindowDropsLast | assistant.py:596-597 | under a positive window, a new message appears only at the end |
| Guarantees.ReplyFollowsQuestion | assistant.py:687-693 | a plain reply is appended to the list that was sent, right after its question; the count grows by one, and a save happens exactly on a multiple of a positive interval |
| Guarantees.FailedCallRollsBack | assistant.py:695-699 | a failed call leaves the windowed list without its last message, keeps the count, saves nothing, and keeps the history when nothing was cut |
| Guarantees.FailedExplicitCallRollsBack | assistant.py:565-568 | the same for an explicit search: the window over the history and the block, without its last message |
| Guarantees.ExplicitSearchAnswered | assistant.py:534-563 | a successful explicit search stores the windowed list with the block, then the answer, and counts one reply |
| Guarantees.AutoSearchEndings | assistant.py:625-686 | after a successful requested search the history is the list sent minus its last message, followed by the retry's answer with one more reply counted, or by nothing with the count unchanged; the request is never stored and nothing is saved |
| Guarantees.WindowInitFromOld | assistant.py:315-324 | every message of the window but its last comes from the list before the new message |
| Guarantees.NoRequestAfterPop | assistant.py:631-680 | popping the window's last message and adding messages free of search requests stores none |
| Guarantees.RateRequest | assistant.py:625-626 | `SEARCH: current exchange rate USD EUR` asks for exactly that query |
| Guarantees.ExchangeRateScenario | assistant.py:625-686 | a search request for the exchange rate answered by `The rate is 1.08.` leaves that answer last, counts one reply and stores no search request |
| Guarantees.AutoSearchDropsQuestion | assistant.py:625-686 | after a successful auto-search the user's question is gone from the history |
| Guarantees.RetryPops | assistant.py:631-686 | with results, the retry removes the last message and adds at most the answer |
| Guarantees.FailedAutoSearchCounts | assistant.py:685-686 | an auto-search that finds nothing counts a reply but stores none |
| Guarantees.ZeroWindowGrows | assistant.py:315-324 | with a zero window each stored reply grows the history by three messages |
| Guarantees.DirectiveQueryOf | assistant.py:625-626 | `SEARCH: q` is a search request whose query is `q` |
| Guarantees.StripOneSpace | assistant.py:626 | stripping `" " + q` removes just the space |
| Guarantees.RunEndsSaved | assistant.py:477-481 | every run ends by writing out its final state, on exit or at the end of input |
| Guarantees.StopImpliesSave | assistant.py:477-481 | a turn that stops also saves |
| Guarantees.StartIsSound | assistant.py:444 | a new session is headed by the prompt and within bounds |
| Menus.ParseInt | assistant.py:190 | a line `int()` accepts is non-empty, starts with a sign or a digit, and holds only digits after that |
| Menus.ParseDecimal | assistant.py:190 | a number's decimal rendering parses back to it |
| Menus.ChoiceOf | assistant.py:184-206 | a line cancels exactly when it is blank after stripping, and a pick is always an index below the number of entries |
| Menus.TypedNumberPicks | assistant.py:189-194 | typing the number k of an entry, from 1 to the count, picks entry k−1 |
| Menus.FirstSettled | assistant.py:182-206 | the line found settles the menu and every earlier one asks again; none found means every line asks again |
| Menus.FirstSettledAt | assistant.py:182-206 | the first line that settles the menu after lines that all ask again is the one found |
| Menus.ChangeModel | assistant.py:172-209 | the menu loop returns what the menu specification gives: the current model without models, otherwise the outcome of the first settling line, or end of input |
| Menus.ChangeModelShape | assistant.py:172-209 | the menu ends on the current or an installed model, reads at least one line when it shows, and runs out of input exactly when every line asks again |
| Menus.EmptyLineCancels | assistant.py:184-188 | an empty answer keeps the model after one line |
| Menus.SecondModelAfterInvalid | assistant.py:190-203 | `0` then `2` with two models picks the second after two lines |
| Settings.WizardLines | assistant.py:61-106 | the wizard reads six to eight lines, eight lines are always enough, and fewer than six always end the input inside it (the body adds one line after role `4` and one after logs answer `y`) |
| Settings.WizardTouchesOwnKeys | assistant.py:61-98 | the wizard clears `first_run`, writes only its own six keys and keeps every other setting |
| Settings.WizardNamesOnly | assistant.py:61-98 | two names, then Enter everywhere but `n` for the logs, set the two names and `first_run` alone |
| Settings.WizardAdaBob | assistant.py:61-106 | `Ada`, `Bob`, Enter, `n`, Enter, Enter use six lines and name the assistant and user |
| Settings.WizardSurvivesRestart | assistant.py:43-53 | the settings the wizard saves load back unchanged |
| Settings.LoadOverFullFile | assistant.py:43-48 | a file holding every default key loads as itself |
| Settings.Load | assistant.py:43-48 | the keys are the defaults' and the file's; the file's value wins where it has the key |
| Settings.SaveThenLoad | assistant.py:43-53 | saving the loaded settings and loading again changes nothing |
| Settings.LoadKeepsDefaults | assistant.py:43-48 | every default key is present, with its default unless the file sets it |
| Settings.FileWins | assistant.py:47 | a key in the file always takes the file's value |
| Settings.EmptyFileIsDefaults | assistant.py:43-48 | an empty file behaves like no file |

## Left out

- Streaming and printing: the chunks of a reply are modelled as the whole reply, and all console output is left out.
- The Ollama client and DDGS: they are the `chat` and `search` oracles, and the list `obtener_modelos` fetches is the fixed `installed` list. The start-up menu `seleccionar_modelo` and the listing `mostrar_modelos` only print or run before the loop. The pause before a search and the engine's region and safe-search options are left out.
- Dialogue.Oracles: the backends are modelled as deterministic: the same request always gets the same answer, so a failure that clears when the same request is sent again later is not represented.
- The ddgs install fallback at import: it runs outside the conversation logic.
- Reading and writing `config.json`: `Settings.Load` takes the parsed file as a parameter, and a file that is not valid JSON (which raises) is not modelled.
- Dialogue.Dispatch: a `config` turn consumes the wizard's lines but leaves the session unchanged. The window and the save interval are read once at start, and the sampling options and log directory the wizard may change are not visible to the oracles or the session state. The `Config()` it reloads from the file is not tied to the session's settings.
- Menus.ParseInt: `int()` also accepts surrounding whitespace inside the stripped text, underscores between digits and non-ASCII digits; only ASCII digits with an optional sign are modelled. Settings.IsDigits likewise models `isdigit()` for ASCII digits only.
- `guardar_sesion`: a save is recorded as the state written, not as its file name, text or timestamps.
- The system prompt built from the clock and the settings is a parameter (`Setup.prompt`).
- KeyboardInterrupt at the prompt or in mid-turn (which saves and stops), in the model menu (which cancels) and in the wizard, and the generic "Unexpected error" handler: an interrupt is not a line of input and depends on timing, and the handler catches exceptions outside the modelled operations.
- Text.Lower, Text.IsSpace: only ASCII letters are folded and only ASCII whitespace is stripped. Python also handles Unicode.
- Settings.Value: JSON floats are `real`s, and JSON nesting is not modelled.
- Dialogue.Setup: window size and save interval are natural numbers. Negative or non-integer settings from a hand-edited file are not modelled.
- WebSearch.Search: the bare `None` that `buscar_web` returns without a message list is left out. Every caller passes the history, which always holds the system prompt.
- Guarantees.RunKeepsSound and the other soundness lemmas require a positive window. With a window of zero the history grows without bound (Guarantees.ZeroWindowGrows).
