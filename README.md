# CyberWaifu context-window bookkeeping in Dafny

This project models the bookkeeping inside the `Waifu` companion class of CyberWaifu.
The class keeps two ordered message lists:

- `chat_memory`: the short-term window sent with every request.
- `history`: the full conversation log.

The model covers how the class fills, trims and summarises these lists around each
exchange with the LLM. Everything the class delegates is a parameter of the model:

- the token counters;
- the summary chain;
- the long-term memory lookup;
- the fact search;
- the elapsed-time check.

Modules, one per concern of `waifu/Waifu.py`:

- `Messages`: the `Message` datatype (`Human | AI | System`) and the error kinds:
  - `TextTooLong` is the `ValueError` of an over-long input;
  - `PopFromEmpty` is the `IndexError` of `pop(0)` on an empty window.

  It also holds the recorded `store_memory` calls and the fixed limits (256, 1536, 1024, 2048, 4096, 6, 4).
- `Trimming`: pair-wise trimming of the window (`DropPairs`) and the loop of `ask` that cuts pairs while input and window reach 1536 tokens (`FitWindow`).
- `Documents`: the labelled lines handed to the summariser, and the `'\n\n'` split of an imported memory data set.
- `Retrieval`: the cap on retrieved memory snippets, as the accumulator loop computes it.
- `Context`: the persona message, the three optional system notes and the outbound list.
- `Companion`: class `Waifu`. Its fields are:
  - `chat`, `history` and `stored` (every call to `store_memory`);
  - the counters and the summariser, as constants.

  Its methods change these fields in place. Its invariant `Valid()` says the window is always a suffix of the history.

Two behaviours of the code are modelled as written and stated as such:

- The snippet cap (`waifu/Waifu.py:55-62`) never leaves its loop early. The loop variable ends at the last index, so when the running total reaches 1024 only the LAST snippet is dropped. `Retrieval.CapCanStayOverBudget` shows a kept list still over the budget.
- The prompt-limit loop (`waifu/Waifu.py:91-92`) cuts the window, but it tests the already assembled list, and the cuts never change that list. Once entered, it ends only when a `pop(0)` fails on the emptied window (`Companion.Waifu.CutWhileOverLimit`).

Other behaviour of the code worth noting:

- The user message enters `history` before the list is dispatched (`waifu/Waifu.py:88-89`), so it is recorded even when the prompt-limit loop then fails.
- The window can hold an odd number of messages: `ask` appends one message, and a loaded log may have odd length. So no "complete pairs" invariant is claimed.
- The snippet list is not cut at the point where the running total crosses 1024; only its last element is dropped.

## Model

| member | source | states |
|---|---|---|
| Trimming.DropPairs | waifu/Waifu.py:148-150 | the window left by popping pairs while it is longer than `keep`: a suffix of the input, an even number of messages removed, at most `keep` long, and no shorter than `keep - 1` (so nothing removed when it already fits) |
| Trimming.FitWindow | waifu/Waifu.py:44-46 | cutting pairs while input plus window reach 1536 tokens yields a suffix, reached by removing whole pairs, that is within the budget; None when a pop would hit an empty window |
| Trimming.FitWindowLongest | waifu/Waifu.py:44-46 | the kept window is the longest such suffix: every longer pair-aligned suffix is over budget |
| Trimming.FitWindowFails | waifu/Waifu.py:44-46 | the cut loop fails exactly when every suffix `w[k..]` with even `k` is over budget |
| Documents.Dialogue | waifu/Waifu.py:172-176 | the user and companion turns of a window in order; the whole window when it has no system turns |
| Documents.DialogueIsFilter | waifu/Waifu.py:172-176 | a single turn is kept iff it is a user or companion turn, and the selection distributes over concatenation, so every such turn is kept in window order and no other |
| Documents.SummaryDocuments | waifu/Waifu.py:171-176 | at most one document per window message |
| Documents.SummaryDocumentsLabelDialogue | waifu/Waifu.py:171-176 | the documents are exactly the dialogue turns, in order, each labelled `用户:` for the user or `<name>:` for the companion; system turns are skipped |
| Documents.SplitBlankLines | waifu/Waifu.py:132 | splitting at blank lines always yields at least one chunk |
| Documents.JoinSplitBlankLines | waifu/Waifu.py:132 | joining the chunks with `'\n\n'` gives back the imported text |
| Documents.FirstChunkIsPrefix | waifu/Waifu.py:132 | the first chunk is a prefix of the text |
| Documents.ChunksHoldNoSeparator | waifu/Waifu.py:132 | no chunk contains a blank-line separator |
| Documents.ChunksEndWithoutNewline | waifu/Waifu.py:132 | the split cuts at the leftmost separator of each run of newlines: no chunk but the last ends with `'\n'` |
| Retrieval.RunningTotalAtMostTotal | waifu/Waifu.py:57-58 | every running total of snippet tokens is at most the total of the list |
| Retrieval.RunningTotalReachesIffTotal | waifu/Waifu.py:55-60 | the `is_full` flag is set exactly when the whole list reaches 1024 tokens |
| Retrieval.CappedSnippets | waifu/Waifu.py:55-62 | the capped list is a prefix of the retrieved list: all of it below 1024 tokens (an empty list included), all but the last snippet otherwise |
| Retrieval.CapSnippets | waifu/Waifu.py:55-62 | the accumulator loop returns the capped list: the whole list when the flag stays unset, the list without its last element when it is set |
| Retrieval.CapCanStayOverBudget | waifu/Waifu.py:57-62 | with a first snippet of 1024 tokens, two of three snippets are kept and they still total over 1024 tokens |
| Context.Persona | waifu/Waifu.py:18 | the persona is a system message that starts with the prompt and ends with the "do not answer as `<name>: xxx`" instruction |
| Context.Notes | waifu/Waifu.py:64-85 | at most three notes, all system messages |
| Context.Assemble | waifu/Waifu.py:48-90 | the outbound list starts with the persona, ends with the window followed by the new user message, and holds only system messages before the window |
| Context.NotesDiffer | waifu/Waifu.py:65-83 | the memory, fact and time notes are three different texts |
| Context.NotesLayout | waifu/Waifu.py:64-85 | each note is in the note list iff its condition holds (snippets remain, answer non-empty, gap shown), in the order memory, fact, time, and the list holds exactly as many messages as conditions hold, so nothing else |
| Context.AssembledNotes | waifu/Waifu.py:48-90 | the memory note is present iff snippets remain, the fact note iff the answer is non-empty, the time note iff the window holds two messages and the gap flag is set; they appear in the order memory, fact, time, and exactly that many messages sit between the persona and the window |
| Companion.Waifu.constructor | waifu/Waifu.py:15-30 | a new companion has the persona built from prompt and name, no stored memories, and its lists seeded by `load_memory` |
| Companion.Waifu.LoadMemory | waifu/Waifu.py:141-152 | with a saved log, the history becomes the whole log and the window the log trimmed by pairs to at most 6; without one (file missing) both lists stay as they were |
| Companion.Waifu.CutMemory | waifu/Waifu.py:155-159 | removes exactly the two oldest window messages; with fewer than two it fails after emptying the window; the history is untouched |
| Companion.Waifu.SaveMemoryDataset | waifu/Waifu.py:136-138 | records one call to the memory store with the given text |
| Companion.Waifu.ImportMemoryDataset | waifu/Waifu.py:130-133 | records one call to the memory store with the blank-line chunks of the text |
| Companion.Waifu.TrimAfterSummary | waifu/Waifu.py:187-188 | cutting pairs while the window holds more than four messages leaves the window trimmed by pairs to at most 4; the history is untouched |
| Companion.Waifu.SummarizeMemory | waifu/Waifu.py:169-190 | stores exactly one summary, made from the documents of the whole window before trimming, then trims the window by pairs to at most 4; the history is untouched |
| Companion.Waifu.FitInput | waifu/Waifu.py:39-46 | summarises once when input plus window reach 1536 tokens, then the window becomes the fitted window, or is emptied with a failure when a pop fails |
| Companion.Waifu.CutWhileOverLimit | waifu/Waifu.py:91-92 | succeeds iff the assembled list is within 4096 tokens, leaving the window unchanged; otherwise it always fails with the window emptied |
| Companion.Waifu.Send | waifu/Waifu.py:87-105 | appends the user message to both lists; after the prompt-limit loop succeeds, summarises again when the window reaches 2048 tokens |
| Companion.Waifu.Dispatch | waifu/Waifu.py:55-105 | with a fitting window: the history gains the user message; the result is the assembled list over the window when it is within 4096 tokens, otherwise a pop failure with an empty window and nothing stored; on success the 2048 trigger decides between one summary plus trimming to 4 and the window plus the user message |
| Companion.Waifu.Ask | waifu/Waifu.py:33-107 | rejects input of 256 tokens or more with no change at all; otherwise the window is fitted, the outbound list is the assembled list over the fitted window, the history gains exactly the user message unless fitting failed, and the stored summaries and the final window follow the 1536 and 2048 triggers; every failure of a pop leaves an empty window; the history only grows |
| Companion.Waifu.FinishAsk | waifu/Waifu.py:110-112 | appends the reply as a companion message to both the window and the history |

## Left out

- The LLM calls `brain.think`, `llm` and `llm_nonstream` are not modelled; `Ask` returns the list that would be dispatched.
- Token counting is kept as the constant functions `countMessages` and `countText` of the object. The model makes no claim about tokenisation.
- The LangChain summarize chain and its prompt template (`waifu/Waifu.py:177-186`) become the opaque function `summarizer` applied to the documents.
- The fact search, `add_emoji` and the emoticon choice returned by `finish_ask` (`waifu/Waifu.py:26-28, 72, 114-127`) are external classifiers. The search result is a parameter of `Ask`; the emoji and emoticon are not modelled.
- `message_period_to_now` (defined in waifu/Tools.py, which is not part of this model) returns a float. It becomes the boolean `gapOverHour` (its `> 1.0` test) and the string `hours` (its printed value). Float formatting is not modelled.
- `make_message` (also in waifu/Tools.py) is taken to build a user message with the given text. Its timestamp is not modelled.
- JSON file I/O and `messages_to_dict`/`messages_from_dict` (`waifu/Waifu.py:144-146, 162-166`) are left out. `LoadMemory` takes the decoded log, or None for a missing file. `save_memory` and the save call in `finish_ask` are not modelled.
- `brain.extract_memory` and `brain.store_memory` are backends. The retrieved snippets are a parameter of `Ask`; stored items are recorded in the `stored` field.
- Context.ListRepr: Python's `str()` of the snippet list is modelled with every item in single quotes. Python's escaping, and its switch to double quotes for items containing a quote, are not modelled.
- Logging and the debug history string (`waifu/Waifu.py:50, 69, 95-102, 107`) are left out.
- Exceptions raised by the external collaborators propagate unchanged in the source. The model has no such failures.
- The unused `waifu_reply` field and the `use_*` switches are not modelled.
