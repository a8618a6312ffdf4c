# Conversation history of the Telegram ChatGPT bot, in Dafny

This project models the conversation core of the bot in `main.py`.

- `ConversationHistory` is a per-user list of `{role, content, timestamp}` records. It is capped at
  `MAX_HISTORY_MESSAGES = 20`; the oldest records are dropped first. It has four operations:
  append, clear, project to the completion context, and render for `/history`.
- `get_conversation` gets or creates one history per user id in the global `conversations` table.
- The 4096-character splitter is used when a reply or the history display is too long for one
  Telegram message.
- A chat turn in `handle_message` appends the user text. It appends the model's reply as an
  `assistant` record only when the reply is non-empty and does not start with `❌`. It then saves.

Modules, one per component of `main.py`:

- `Texts`: the user-visible strings that reach history or replies.
- `Seqs`: `Min` and `Concat`, shared helpers.
- `History`: the record types, the pure specification functions (`Newest`, `Added`, `Context`,
  `Preview`, `Lines`, `Display`, `Loaded`), the `Store` that stands for the directory of history
  files, and the class `ConversationHistory`, whose methods update its `messages` field in place.
- `Registry`: the `conversations` table as a class over a `map<int, ConversationHistory>`.
- `Chunker`: the slice comprehension and the "split only when longer than 4096" rule.
- `Handlers`: the client's reply for each completion outcome, and the history steps of one turn.

The completion call, the clock and the file system are parameters.

- The completion call is a `ProviderOutcome`. It is one of three cases. No provider was set,
  because g4f is missing (main.py:193-195) or looking up `g4f.Provider.Bing` failed
  (main.py:197-201). The call returned a text. Or the call raised.
- Timestamps are opaque strings passed in by the caller.
- A history file is a `StoredFile`: unreadable, or a record whose `messages` key may be missing.

Facts about `main.py` that the model keeps:

- The context sent to the model is the whole kept history, up to 20 records. Ten is only the
  size of the `/history` display.
- No system instruction or language setting is added to the context.
- When no provider was set, the reply is the "g4f не настроен" notice. It starts with `⚠️`, not
  `❌`, so it is stored as an `assistant` message (`UnconfiguredNoticeIsRecorded`).
- A history loaded from disk is not cut to 20 records. The cap holds after every append, not as
  a class invariant.
- There is one completion backend and no fallback between backends.

## Model

| member | source | states |
|---|---|---|
| `Texts.ErrorText` | main.py:63 | the error text starts with `❌` and ends with the given detail |
| `History.Newest` | main.py:126-127 | `s[-n:]` is the suffix of `s` of length `min(n, len(s))` |
| `History.Added` | main.py:118-127 | after an append the history has `min(20, n+1)` records; the last is the new one; the kept older ones are the newest of the old list in order; below the cap it is a pure append |
| `History.AddedAllKeepsNewest` | main.py:118-127 | after any sequence of appends the history is exactly the newest 20 of everything appended, in original order |
| `History.Context` | main.py:137-140 | the context has one entry per record |
| `History.ContextProjects` | main.py:137-140 | entry `i` of the context has the role and content of record `i` |
| `History.ContextOfAdded` | main.py:118-140 | the context right after an append is the newest 20 of the previous context followed by the new record's role and content |
| `History.ContextOfNewest` | main.py:137-140 | projecting and truncating to the newest `n` commute |
| `History.Preview` | main.py:150 | content of at most 100 characters is shown unchanged; longer content becomes 103 characters ending in `...`; the first 100 characters are always kept |
| `History.RoleLabel` | main.py:149 | the label is `👤 Вы` exactly for role `user`, and `🤖 Бот` for every other role |
| `History.LineShows` | main.py:149-151 | a rendered line starts with the speaker label and `: `, ends with a newline, is at most the label plus 106 characters long, and shows content of at most 100 characters verbatim |
| `History.Lines` | main.py:148-151 | one rendered line per record, in order |
| `History.Display` | main.py:142-152 | the display is the empty-history text exactly when there are no records; otherwise it starts with the history header |
| `History.DisplayOnlyNewest` | main.py:147-148 | records older than the newest 10 do not change the display |
| `History.DisplayShowsNewest` | main.py:142-152 | a non-empty history renders as the header and exactly `min(10, n)` lines; line `i` shows the label and preview of the `i`-th of the newest `min(10, n)` records |
| `History.Loaded` | main.py:93-103 | a missing file, an unreadable file or a record without `messages` loads as the empty history; otherwise the stored messages load unchanged |
| `History.ConversationHistory.constructor` | main.py:87-91 | a new history belongs to its user and holds what that user's file loads to |
| `History.ConversationHistory.AddMessage` | main.py:118-127 | the new `messages` is `Added(old messages, new record)`, at most 20 long, ending in the new record |
| `History.ConversationHistory.Clear` | main.py:133-135 | `messages` becomes empty and the display is the empty-history text |
| `History.ConversationHistory.GetContext` | main.py:137-140 | same length as `messages`; each entry carries the role and content of the matching record |
| `History.ConversationHistory.GetDisplay` | main.py:142-152 | the text built line by line equals `Display(messages)` |
| `History.ConversationHistory.Save` | main.py:105-116 | the user's file now holds the whole history, and loading it gives back exactly `messages` |
| `Registry.Registry.GetConversation` | main.py:239-246 | a registered user gets their existing history object and the table is unchanged; otherwise a fresh history loaded from the store is registered; in both cases the table is the old one with only this user's key set, so no other user is added or changed |
| `Chunker.Chunks` | main.py:281 | every slice is non-empty and at most 4096 characters |
| `Chunker.ChunksPrefix` | main.py:281 | the first `k` slices joined are the first `min(4096k, len)` characters |
| `Chunker.ConcatChunks` | main.py:281 | the slices joined give back the text exactly |
| `Chunker.ChunksCount` | main.py:281 | the slice count is `ceil(len/4096)`, stated without division: no slices for empty text, all slices but the last are full |
| `Chunker.Outbound` | main.py:380-387 | what is sent for a text joins back to the text exactly; every message is at most 4096 characters, and none is empty when the text is not |
| `Chunker.OutboundIsChunks` | main.py:380-387 | for non-empty text, sending it whole when it fits and split otherwise is the same as always splitting |
| `Handlers.Response` | main.py:203-231 | the client's reply is never empty; with no provider set (g4f missing, or the provider lookup failed) it is the `⚠️` not-configured notice; a raised call gives the error text with the first 100 characters of the exception; a non-empty answer is passed through; a falsy answer gives the `❌` empty-answer text |
| `Handlers.Accepted` | main.py:372 | the test rejects the empty reply, every error text, the empty-answer text and the no-answer text, and accepts the not-configured notice |
| `Handlers.AcceptedResponse` | main.py:203-231 | a reply is recorded exactly when no provider was set (g4f missing, or the provider lookup failed) or the answer is non-empty and does not itself start with `❌` |
| `Handlers.TurnKeepsNewest` | main.py:357-376 | a turn leaves exactly the newest 20 of the prior history plus the user record, followed by the assistant record when the reply is accepted |
| `Handlers.TurnHistory` | main.py:359-373 | the history after a turn is non-empty and within the cap; the user record is last when the reply is rejected, and second to last before the `assistant` record when it is accepted; the length grows by two or one up to the cap |
| `Handlers.FailedCallsRecordOnlyUser` | main.py:372-373 | after a raised call or an empty answer, only the user record is added: `❌` replies never enter the history |
| `Handlers.UnconfiguredNoticeIsRecorded` | main.py:205-206 | the not-configured notice passes the `❌` test and is stored as the assistant's message |
| `Handlers.Delivered` | main.py:379-389 | a non-empty reply is sent as its 4096-character slices, which join back to the reply; an empty one as the no-answer notice |
| `Handlers.RecordTurn` | main.py:359-376 | the context is taken right after the user record is added; the history becomes `TurnHistory`; the user's file holds the new history |
| `Handlers.HandleMessage` | main.py:342-376 | looks up or creates the user's history, then runs the turn on it. A registered user keeps the same history object, changed in place. The registry invariant holds afterwards. The table differs from before only at this user's key, so no other user is registered or replaced. The frame keeps other users' history objects untouched. |

## Left out

- The Telegram transport is not modelled: aiogram handlers, commands, FSM states, typing
  indicators and status-message edits and deletes. `HandleMessage` returns the context and the
  reply instead of sending them. `Delivered` gives the texts that would be sent.
- The completion call is not modelled: g4f, the thread pool and provider selection at import
  time. Only its outcome is an input.
- JSON encoding and decoding and the `user_id` and `last_update` keys of the file are not
  modelled. The loader ignores those keys.
- `Save` does not model write failures. The source logs them and carries on, and an open in `'w'`
  mode may leave a truncated file, which the next load treats as empty.
- `datetime.now()` is not modelled; timestamps are parameters.
- `FileHandler` and the photo and document handlers are not modelled. The handlers append a
  `user` record through the same `AddMessage`.
- `HandleMessage` models `message.text` as a string. A message without text would store `None`
  in Python; that case is not modelled.
- The exception path of `handle_message` is not modelled. The except block itself only sends the
  error text, but where the exception is raised decides the history:
  - An exception before `get_conversation` at main.py:357 skips the turn, so no user record is
    added. Examples are the typing indicator at main.py:350 and the status message at main.py:354.
    Line 350 reads `bot.context_manager`, which aiogram's `Bot` does not appear to have. The
    aiogram library is not part of this model, so this is unconfirmed. If the attribute is
    missing, every text message raises there and the turn never runs.
  - An exception between main.py:360 and main.py:376 leaves the user record in memory, unsaved
    and without an assistant record. An example is `get_context` raising `KeyError` at
    main.py:139 on a loaded record that lacks `role` or `content`.
  - The model assumes every loaded record has `role` and `content`, and that the turn runs to the
    save.
- Concurrency is not modelled: per-user locking and interleaved turns. The source has no locking;
  each turn is modelled as one atomic step.
- `main.py` has no backend fallback, no write-then-rename, no idle eviction and no language
  switching, so the model has none either.
- The constants in `config.py` are not modelled. `main.py` does not read them.
