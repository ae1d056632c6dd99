# Bulk contact collection of the Vortex Telegram bot, in Dafny

This project models the bulk-contact engine of `bot.py`. The bot keeps one
store, `bulk_contacts`, from a chat id to the list of contacts that chat has
sent so far. A chat has an entry exactly while it is collecting. Three
handlers change the store:

- `/bulk` (`bulk_start`) starts or restarts a session with an empty list;
- the collection handler (`collect_bulk_contacts`) runs for a collecting chat
  and any text other than exactly `/saved`. It strips the text and matches it
  against `^(.+)\s(\+?\d+)$`. On a match it appends
  `{name: "RT " + NAME.upper(), number}` and confirms; otherwise it replies
  with a format hint;
- `/saved` (`bulk_save`) writes all of the chat's records into one vCard file
  (five lines per record), sends it, removes it, and only then deletes the
  entry.

The model is in four modules:

- `Wrappers` (`wrappers.dfy`): the `Option` type.
- `ContactLine` (`contact_line.dfy`): `str.strip`, the regular expression and
  the record built from a line, as pure functions.
  - The expression is stated declaratively (`Matches`: some split of the
    stripped text into name, one whitespace character and number).
  - It is also stated as the function the handler computes (`MatchLine`:
    split at the last whitespace character).
  - Lemmas prove the two agree in both directions.
- `VCard` (`vcard.dfy`): the export file.
  - `Render` is the file as a function of the records.
  - `WriteCards` is the handler's write loop, proved to produce `Render`.
  - `ReadCards` reads such a file back. It is Render's partner: the round trip
    is exact precisely when no value holds a line feed, which is always the
    case for records the parser builds.
- `BulkBot` (`bulk_bot.dfy`): the store and the handlers.
  - Each handler's effect is a function on the store: `BulkStartStep`,
    `CollectStep`, `SaveStep`. `Step` gives a message to the first handler
    registered for it, in the bot's registration order: `/start`, `/bulk`, the
    collection filter, `/saved`.
  - The class `ContactBot` holds the store as a field that its methods update
    in place. Each method is proved to leave the store and reply that the
    matching function gives.
  - `Feed` plays a run of lines through `Step`, each a message no command
    handler takes: plain text, or a command the bot has no handler for, such
    as `/foo 123`. It is used to state whole sessions.

Two things the bot gets from its environment are inputs to the model:

- `Command`: which `commands=` filter of the chat library took the message.
- `Delivery`: what happened when the file was written, sent and removed.
  - `Delivered`: all three steps succeeded.
  - `Failed(reason)`: writing or sending raised, so nothing was sent.
  - `RemoveFailed(reason)`: the file was sent, then removing it raised.

Characters are ASCII.

- Whitespace is the set Python's `str.isspace` and `\s` accept below 128: tab,
  line feed, vertical tab, form feed, carriage return, 0x1C to 0x1F, and space.
- Digits are `0` to `9`.
- `upper` maps only `a` to `z`.

Behaviour the model follows exactly as `bot.py` has it:

- The name is not trimmed. Only the whole line is stripped, so
  `"Alice  123"` stores `"RT ALICE "` (`ParseKeepsInnerSpace`).
- The greedy `.+` makes the last whitespace character the separator.
- `/saved` with an empty list replies "No contacts to save" and leaves the
  empty entry in place. The chat therefore goes on collecting.
- When any step of the export raises, the records are kept. They are only
  deleted after the file has been sent and removed.
- If only the removal fails, the user still received the file, and the
  records stay as well.
- The collection filter compares the whole text with `/saved`. While a chat is
  collecting, `/saved@botname` or `/saved now` is therefore handled as a
  contact line, not as a save (`SavedVariantIsCollected`).

## Model

| member | source | states |
|---|---|---|
| ContactLine.Upper | bot.py:45 | `upper` keeps the length and upper-cases each character in place |
| ContactLine.UpperCharFacts | bot.py:45 | an upper-cased character is never a lower-case letter and is a line feed only if it was one |
| ContactLine.UpperIsSafe | bot.py:45 | an upper-cased name without line feeds has no lower-case letter and no line feed |
| ContactLine.LeadingSpacesAreSpace | bot.py:37 | the leading run `strip` removes is all whitespace, and it stops at a non-whitespace character or at the end |
| ContactLine.TrailingSpacesAreSpace | bot.py:37 | the trailing run `strip` removes is all whitespace, and it stops at a non-whitespace character or at the start |
| ContactLine.StripSlice | bot.py:37 | `strip` keeps one contiguous slice of the text with only whitespace around it, and the slice neither starts nor ends with whitespace |
| ContactLine.StripUnchanged | bot.py:37 | a text that neither starts nor ends with whitespace is unchanged by `strip` |
| ContactLine.LastSpace | bot.py:37 | the position found is whitespace and nothing after it is; None means the text has no whitespace |
| ContactLine.NumberHasNoSpace | bot.py:37 | a `\+?\d+` token contains no whitespace |
| ContactLine.MatchLine | bot.py:37-38 | a result is a match of the expression on the stripped text, with these two groups |
| ContactLine.LastSpaceOfMatch | bot.py:37 | in every match the separator is the last whitespace character of the text |
| ContactLine.MatchLineComplete | bot.py:37 | every match of the expression on the stripped text is the one MatchLine returns, so the match is unique |
| ContactLine.MatchLineNone | bot.py:37-40 | there is no result exactly when no split of the stripped text matches, which is when the format hint is sent |
| ContactLine.ToRecordWellFormed | bot.py:42-45 | the stored record is the tag "RT " followed by a non-empty name with no lower-case letter and no line feed, and a `\+?\d+` number |
| ContactLine.Parse | bot.py:37-45 | a record is built exactly when the line matches, and every record built is well formed |
| ContactLine.ParseMatch | bot.py:37-45 | a line whose stripped text matches with groups name and number stores "RT " + upper(name), untrimmed, and the number verbatim |
| ContactLine.ParseSound | bot.py:37-45 | every stored record comes from a match of the stripped text and carries that match's groups |
| ContactLine.SpaceSeparatedMatches | bot.py:37 | a name, one space and a number match the expression with exactly those groups |
| ContactLine.ParseSpaceSeparated | bot.py:37-45 | a name not starting with whitespace, a space and a number parse to the tagged upper-cased name and that number |
| ContactLine.ParseAlice | bot.py:37-45 | "Alice +15551234" stores ("RT ALICE", "+15551234"): the plus sign is kept |
| ContactLine.ParseBob | bot.py:37-45 | "bob 15559999" stores ("RT BOB", "15559999") |
| ContactLine.ParseKeepsInnerSpace | bot.py:37-45 | "Alice  123" stores ("RT ALICE ", "123"): the name keeps its trailing space |
| VCard.RenderAppend | bot.py:66-73 | writing one more record extends the file by exactly that record's block |
| VCard.WriteCards | bot.py:64-73 | the write loop produces exactly the rendered file: the records' blocks in list order |
| VCard.CountNewlinesConcat | bot.py:67-72 | the line count of two texts joined is the sum of their line counts |
| VCard.OneLine | bot.py:67-72 | a value without line feeds, written with its line ending, is one line |
| VCard.WellFormedIsLineSafe | bot.py:45 | every record the collection handler stores has a name and a number without line feeds |
| VCard.BlockNewlines | bot.py:67-72 | the block written for a line-safe record is five lines |
| VCard.RenderNewlines | bot.py:66-73 | the file for N line-safe records is 5·N lines |
| VCard.ReadLine | bot.py:67-72 | the split-off line has no line feed and, with its line feed and the rest, rebuilds the text; None means the text has no line feed |
| VCard.ReadLineOf | bot.py:67-72 | a written line is read back as itself, leaving exactly what followed it |
| VCard.ReadFixed | bot.py:67-72 | recognising a fixed line always consumes input |
| VCard.ReadField | bot.py:69-70 | a field value read back has no line feed, and reading consumes input |
| VCard.ReadBlock | bot.py:67-72 | a block read back yields a line-safe record and consumes input |
| VCard.ReadCards | bot.py:64-73 | every record read back from a file is line safe |
| VCard.ReadFixedOf | bot.py:67-72 | a fixed line written is recognised, leaving what follows it |
| VCard.ReadFieldOf | bot.py:69-70 | a field line written gives back the value after the field name |
| VCard.BlockLines | bot.py:67-72 | a block followed by more text is the five lines followed by that text |
| VCard.ReadBlockOf | bot.py:67-72 | a block written for a line-safe record reads back as that record, leaving what follows it |
| VCard.ReadCardsBlock | bot.py:64-73 | a file that starts with a line-safe block reads as that record followed by whatever the rest reads as |
| VCard.TailLineSafe | bot.py:66 | when all records are line safe, so are all but the first |
| VCard.ReadRender | bot.py:64-73 | round trip: the file for line-safe records reads back as exactly those records, all of them and in order |
| VCard.ReadRenderIff | bot.py:67-72 | the round trip holds if and only if no name or number contains a line feed, because values are not escaped |
| BulkBot.BulkStartStep | bot.py:26-29 | `/bulk` sets the chat's entry to the empty list whatever it held, touches no other chat, and confirms |
| BulkBot.CollectStep | bot.py:32-46 | a line that does not match leaves the store unchanged and gets the format hint. A line that matches appends exactly its record at the end of the chat's list, keeps the earlier records in order, and confirms with the upper-cased name and the number. No other chat changes and no file is sent |
| BulkBot.SaveStep | bot.py:53-87 | no entry or an empty one: nothing changes and the "no contacts" reply is sent. Delivered: the entry is deleted, every other entry is kept, and the file is the rendered records. Writing or sending raised: nothing changes and no file is sent. Only removing raised: nothing changes, but the file was sent |
| BulkBot.Step | bot.py:20-53 | a message never changes another chat's entry, and a file is sent only for `/saved` to a chat with records, and only when writing and sending succeeded. That file is the chat's rendered records |
| BulkBot.CollectPreservesValid | bot.py:42-45 | the collection handler keeps every stored record well formed |
| BulkBot.StepPreservesValid | bot.py:17-87 | every message keeps every stored record well formed |
| BulkBot.PlainTextOutsideSession | bot.py:32 | a plain message that fails the collection filter is ignored: no change and no reply |
| BulkBot.BulkWhileCollecting | bot.py:25-32 | `/bulk` while collecting restarts the session with an empty list, because it is registered before the collection handler |
| BulkBot.SavedVariantIsCollected | bot.py:32-53 | while collecting, a `/saved` command whose text is not exactly "/saved" goes to the collection handler |
| BulkBot.SaveCollected | bot.py:53-87 | `/saved` on the parser's records. With none, the empty entry stays. Whenever the file is sent, it reads back as exactly the records in order and has five lines per record. The entry is deleted only after full delivery and kept, with the error reply, otherwise |
| BulkBot.LineRecords | bot.py:37-45 | a line yields at most one record, and that record is well formed |
| BulkBot.ParsedAll | bot.py:37-45 | a run of lines yields at most one record per line, all well formed |
| BulkBot.CollectAppends | bot.py:38-45 | the collection handler appends to the chat's list exactly what the line parses to |
| BulkBot.FeedOne | bot.py:32-45 | a line other than "/saved" that no command handler takes, from a collecting chat, appends exactly what it parses to |
| BulkBot.UpdateTwice | bot.py:45 | setting a chat's entry twice keeps only the second value |
| BulkBot.FeedAppends | bot.py:32-45 | while collecting, lines other than "/saved" that no command handler takes only ever append: the chat's list grows by the parsed records in the order sent, and no other entry changes |
| BulkBot.BulkThenFeed | bot.py:26-45 | after `/bulk` and lines other than "/saved" that no command handler takes, the chat holds exactly the records those lines parse to, whatever it held before |
| BulkBot.RemoveUpdated | bot.py:83 | deleting an entry forgets whatever it was last set to |
| BulkBot.BulkSession | bot.py:26-87 | a whole session of `/bulk`, lines other than "/saved" that no command handler takes, and `/saved`. When the file is sent, it holds exactly the parsed records in the order sent. After full delivery the store is as before the session minus the chat. Otherwise the records are kept |
| BulkBot.ContactBot.constructor | bot.py:17 | the store starts empty |
| BulkBot.ContactBot.BulkStart | bot.py:26-29 | the store and reply after `/bulk` are BulkStartStep's, and the records stay well formed |
| BulkBot.ContactBot.CollectBulkContacts | bot.py:33-46 | the store and reply after a collected line are CollectStep's, and the records stay well formed |
| BulkBot.ContactBot.BulkSave | bot.py:53-87 | the store, reply and file sent by `/saved` are SaveStep's, with the file written record by record |
| BulkBot.ContactBot.Handle | bot.py:20-87 | the store, reply and file after any message are Step's, and the records stay well formed |

## Left out

- Loading the token (bot.py:6-14) and polling (bot.py:89-94) are left out. They are start-up and network code.
- The chat library's command parsing is an input: the `Command` datatype. The library matches `/bulk@botname` and commands with arguments; the model takes its verdict as given.
- Writing, sending and removing the file are an input: the `Delivery` datatype.
  - Left out: the file's path `bulk_contacts_<chat id>.vcf` (bot.py:63), its encoding to bytes (bot.py:76), and newline translation on platforms other than POSIX.
  - The model takes the file's content to be the text written.
- Failures of `reply_to` itself are left out. These are network errors, and they include the `Error:` reply of the collection handler (bot.py:48-49), which nothing else in that handler can trigger.
- Unicode is left out; the model is ASCII only.
  - `str.strip` and `\s` also accept Unicode whitespace, `\d` accepts other decimal digits, and `str.upper` maps non-ASCII letters. One such letter, `ß`, even changes length.
  - The model's whitespace, digits and upper-casing are ASCII only.
- Messages that are not text are left out. The handlers take only text messages.
- Concurrency is left out. The chat library may run handlers on several threads; the model handles one message at a time.
- The `/start` handler (bot.py:20-22) appears only as a route in the dispatch with its fixed reply.
