# Photo-inspection Telegram bots, modelled in Dafny

The repository holds two Telegram bots with which inspectors photograph rooms
of a building, corridor by corridor, on arrival ("Chegada") and on departure
("Saída"):

- `app.py` runs a conversation: `/registrar`, sent as a reply to a photo,
  asks through inline buttons for a corridor, then a room, then the type, and
  inserts one row into an sqlite table `registros`. `/ver <corridor> <room>
  <date>` looks the table up and shows the first Chegada and the first Saída
  of that room on that day.
- `main.py` has no conversation: `/start` shows the corridors, buttons carry
  callback data whose fields are joined by a vertical bar (`corredor`, `sala` or `foto` first), the
  last button stores the choice in `user_data`, and the next photo is
  captioned, appended to an in-memory dictionary `corredor → sala → captions`
  and sent back. `/ver` lists how many photos each room holds.

The model keeps what both bots compute and decide. Every call to Telegram
becomes a returned `Reply` value. Whether a call that can fail went through
is a boolean parameter: every such call in `main.py`, and the final message
edit of `escolher_tipo` in `app.py`. The clock reading, the sender and the photo's file
ids are parameters too.

Files:

- `wrappers.dfy`: `Option`.
- `dicts.dfy`: Python dictionaries as association lists in insertion order.
  `Find` is `d[k]` / `d.get(k)`, and `Put` is `d[k] = v`: it replaces the value
  in place or appends the key.
- `text.dfy`: `str.split(sep)`, `str.split(sep, 1)`, `sep.join(...)`,
  `str.startswith`, `str(n)` and `f"{n:0w}"`. Splitting, joining, `str(n)` and
  the zero pad each come with the lemmas that undo them.
- `clock.dfy`: a date and time as a value, with the `strftime` formats
  `%Y-%m-%d`, `%H:%M` and `%d/%m/%Y %H:%M`, each of which parses back.
- `telegram.dfy`: users, buttons, replies, and `context.user_data` as a class
  over a `map`.
- `app.dfy` (module `App`): `app.py`.
- `main_bot.dfy` (module `MainBot`): `main.py`.

In `app.py` the ConversationHandler's state for one user in one chat is a
value that the dispatcher takes and returns (`App.HandleUpdate`). Which
updates reach a handler (`Handles`), and what that handler leaves in
`user_data` (`SessionAfter`) and sends (`HandlerReply`), are pure functions
that the routing methods are proved against. The handlers that change
`user_data` and the table are methods on those objects.

In `main.py` the `registros` dictionary is a class whose `Append` performs the
three steps of `photo_handler`. `/ver` is two nested loops building the
message, and both are proved against pure specification functions
(`Recorded`, `Report`).

## Model

| member | source | states |
|---|---|---|
| Text.JoinSplit | main.py:51 | joining the pieces of `s.split(sep)` with `sep` gives `s` back |
| Text.SplitJoin | main.py:51 | splitting a `sep`-join of pieces that do not contain `sep` gives exactly those pieces |
| Text.SplitOnceAfterHead | app.py:74 | `(p + "_" + v).split("_", 1)` is `[p, v]` whenever `p` has no `_`, whatever `v` contains |
| Text.SplitOnceAgreesWithSplit | app.py:74 | `split(sep, 1)` has the same head as `split(sep)` and its tail is the rest rejoined |
| Text.SplitOnce | app.py:74 | one piece exactly when `sep` does not occur; otherwise a separator-free head, then `sep`, then the rest make up the input |
| Text.DecimalRoundTrip | app.py:79 | `str(n)` reads back as `n` |
| Text.DecimalLength | main.py:26 | `str(n)` has at most `k` digits exactly when `n < 10^k` |
| Text.ZeroPadValue | main.py:26 | `f"{n:0w}"` reads back as `n` whatever the width, also when `n` has more digits than `w` |
| Text.ZeroPadRoundTrip | main.py:26 | `f"{n:0w}"` for `n < 10^w` has exactly `w` digits and reads back as `n` |
| Clock.IsoDateRoundTrip | app.py:117 | `%Y-%m-%d` of a valid date parses back to its year, month and day |
| Clock.ClockTimeRoundTrip | app.py:118 | `%H:%M` parses back to the hour and minute |
| Clock.StampRoundTrip | main.py:97 | `%d/%m/%Y %H:%M` parses back to the whole date and time |
| Clock.IsoDateIdentifiesDay | app.py:117 | two readings give the same `%Y-%m-%d` text exactly when they fall on the same day |
| Dicts.FindPut | main.py:101-106 | after `d[k] = v`, looking `k` up gives `v` and every other key gives what it gave before |
| Dicts.KeysPut | main.py:101-106 | `d[k] = v` keeps the key order, and a new key goes last |
| Dicts.PutUnique | main.py:101-106 | assignment keeps the keys of a dictionary distinct |
| Telegram.UserData.Set | app.py:58 | `user_data[key] = value` updates that key only |
| Telegram.UserData.Pop | main.py:116-118 | `user_data.pop(key, None)` removes the key, present or not |
| Telegram.UserData.Clear | app.py:142 | `user_data.clear()` empties the dictionary |
| App.Range | app.py:16-23 | `list(range(lo, hi))` has `hi - lo` elements (none if `hi <= lo`), the k-th being `lo + k` |
| App.CatalogRanges | app.py:16-23 | each of the six corridors maps to its own range with the upper bound excluded: "Corredor A Térreo" has 1..18, "Corredor C 1º Piso" has 89..98 |
| App.CatalogLookup | app.py:16-23 | each catalog corridor looks up the range it was declared with, even though names are looked up by equality in order |
| App.CatalogContiguous | app.py:16-23 | every known corridor has a non-empty room list numbered without gaps |
| App.MatchedValue | app.py:71-113 | any data accepted by the `^prefix_` pattern decodes with `split("_", 1)[1]` to everything after the prefix, underscores included |
| App.CallbackRoundTrip | app.py:60-113 | the data `prefix_value` is accepted by its own state's pattern only and decodes to exactly `value` |
| App.CorridorButtonsDecode | app.py:60-77 | every button `registrar` offers is accepted in the corridor state, decodes to its own caption, and names a corridor the catalog knows |
| App.Registrar | app.py:52-68 | without a replied-to photo: the warning, no state change, `user_data` untouched; with one: the largest size's `file_id` stored, the corridor menu, and a move to ESCOLHER_CORREDOR |
| App.EscolherCorredor | app.py:71-86 | stores the decoded corridor; a known corridor shows its rooms and moves to ESCOLHER_SALA, an unknown one raises `KeyError` after it was stored |
| App.EscolherSala | app.py:89-107 | stores the decoded room, shows the two types, moves to ESCOLHER_TIPO |
| App.RecordTable.Insert | app.py:122-132 | appends exactly one row with the next AUTOINCREMENT id and leaves every earlier row as it was |
| App.EscolherTipo | app.py:110-143 | inserts the row built from the session's corridor, room and file id, the chosen type, the user and the clock; `user_data` is cleared and the conversation ends only when the final edit goes through |
| App.Select | app.py:163-166 | the rows selected are exactly the table's rows with that corridor, room and date |
| App.FirstOfTipo | app.py:169-170 | the index of the first row of the type: every earlier row has another type |
| App.FirstRegistration | app.py:169-170 | the table's first row registering the type for the key: no earlier row does |
| App.SelectThenFirst | app.py:163-170 | selecting by key and then taking the first row of a type gives the table's earliest registration of that type for the key |
| App.SelectNone | app.py:163-166 | a key under which no row is stored selects nothing |
| App.VerArgumentCount | app.py:145-158 | fewer than 3 arguments give the usage text, exactly 3 give "Formato inválido" (`args[3]` raises), and only 4 or more reach the table |
| App.FirstRegistrationWins | app.py:169-170 | once a slot is filled, rows appended later never change it |
| App.VerIgnoresLaterRows | app.py:163-185 | with both slots filled, `/ver` answers the same whatever is inserted afterwards |
| App.SlotAfterAppend | app.py:163-170 | appending a row fills a slot only if it was empty and the row has that key and type |
| App.CommitThenView | app.py:163-185 | a first Chegada committed for a key is shown by `/ver` for that key, and its photo is sent first |
| App.NothingRegistered | app.py:172-185 | a key with no rows shows "Não registrada" twice and sends no photo |
| App.CatalogNameSpaces | app.py:16-23 | every catalog name has spaces at positions 8 and 10 |
| App.OnlyJoiningSpace | app.py:153 | two space-free words joined by `" "` have their only space at the join |
| App.VerCorridorNeverInCatalog | app.py:152-153 | the corridor `/ver` builds from two space-free arguments is never a catalog name |
| App.VerMissesCatalogRows | app.py:152-177 | as written, on a table whose rows come from the buttons, `/ver` reports nothing registered whatever its whitespace-free arguments |
| App.ByWordsFindsCommittedRow | app.py:145-185 | reading the corridor as all words but the last two, the words of a committed row's corridor, room and date find that row and send its photo |
| App.HandleUpdate | app.py:194-207 | one update as `main()` routes it: `/start` and `/ver` answer without touching the session or the table; otherwise the new state is `NextState`, a handled update leaves its handler's `user_data` and reply, an unhandled one leaves `user_data` as it was and sends nothing, a row is appended exactly when a type button arrives while the type is awaited, the session stays coherent with the state, and rows built from catalog corridors stay so |
| App.Converse | app.py:198-206 | the ConversationHandler: only `/registrar` outside a conversation or the current state's pattern inside one runs a handler, which leaves `SessionAfter` in `user_data` and sends `HandlerReply`; any other update changes neither `user_data`, the table nor the state and sends nothing; a raised handler or `None` keeps the state |
| App.UnhandledKeepsState | app.py:198-206 | an update that reaches no handler of the conversation keeps the state and inserts no row |
| App.ConverseCorridor | app.py:198-206 | in ESCOLHER_CORREDOR a `corredor_` button stores the corridor and shows its rooms, or sends nothing for an unknown corridor, moving on only for a known one; other data changes nothing and sends nothing |
| App.ConverseRoom | app.py:198-206 | in ESCOLHER_SALA a `sala_` button stores the room, shows the two types and moves on; other data changes nothing and sends nothing |
| App.ConverseType | app.py:198-206 | in ESCOLHER_TIPO a `tipo_` button appends exactly one row whose corridor is a catalog corridor, then clears `user_data` and confirms when the edit goes through, or keeps `user_data` when it fails; other data changes neither the table nor `user_data` and sends nothing |
| App.StepsInOrder | app.py:198-206 | an update keeps the state or moves it exactly one step along registrar → corridor → room → type → END; a waiting state moves only on its own prefix, and a conversation starts only with `/registrar` on a photo |
| App.StepPicks | app.py:198-206 | which update moves each state one step on, and which states each state can be reached from |
| App.PickIndices | app.py:198-206 | for any run from outside a conversation, the steps that moved the state into each waiting state: a photo picked outside a conversation, then a known corridor picked while the corridor was awaited, then a room picked while the room was awaited, in that order, and no later step ends that conversation |
| App.NoStepSkipped | app.py:198-206 | the type can be awaited only after a `/registrar` on a photo outside a conversation, a known corridor while the corridor was awaited and a room while the room was awaited, in that order, within the conversation still open |
| MainBot.Salas | main.py:26-31 | the list comprehension has one room name per number of `range(lo, hi)`: the k-th is "Sala " and digits that read back as `lo + k`, and no name repeats within a corridor |
| MainBot.CatalogLookup | main.py:25-32 | each catalog corridor looks up the rooms of its own range |
| MainBot.CatalogRooms | main.py:26-31 | "Corredor A Térreo" has the 19 rooms "Sala 01" to "Sala 19"; the others have 11, 9, 21, 16 and 11 rooms, the last being "Sala 99" |
| MainBot.RoomLabelValue | main.py:26-31 | a room name is "Sala " and digits that read back as the room number, seven characters long when padded and below 100 |
| MainBot.RoomLabelPipeFree | main.py:26-31 | no room name contains the field separator |
| MainBot.EncodeCorridorLayout | main.py:39 | the encoding is "corredor", the separator, then the corridor |
| MainBot.EncodeRoomLayout | main.py:56 | the encoding is "sala", the corridor and the room, separated by the separator |
| MainBot.EncodePhotoLayout | main.py:65-66 | the encoding is "foto", the corridor, the room and the type, separated by the separator |
| MainBot.DecodeEncode | main.py:51-73 | a button whose fields contain no separator decodes to what it was built from |
| MainBot.EncodeDecode | main.py:51-73 | data that decodes with exactly its kind's number of fields is the encoding of what it decodes to |
| MainBot.ButtonHandler | main.py:47-84 | a failed `query.answer()` gives only the apology; a corridor button shows that corridor's rooms, or the apology for an unknown corridor; a room button shows the two types; a photo button stores corridor, room and type together before the edit, so they stay stored when the edit fails; missing fields give the apology; other data is ignored; only a photo button changes `user_data` |
| MainBot.Selected | main.py:74-76 | after a photo button the three keys hold the chosen corridor, room and type, and every other key is kept |
| MainBot.StartReply | main.py:37-45 | the corridor menu with one button per catalog corridor, in the dictionary's order, each decoding to its own corridor when the reply goes through; otherwise the apology |
| MainBot.StartLeadsToRooms | main.py:37-59 | every `/start` button opens the rooms of its own corridor |
| MainBot.RoomLeadsToTypes | main.py:53-70 | every room button of a catalog corridor opens the two types of its own room |
| MainBot.TypeLeadsToPhoto | main.py:61-77 | the two type buttons ask for a photo of their room of type "Chegada" and "Saída" |
| MainBot.MenuSelectionComplete | main.py:37-95 | following the menu from `/start` stores a complete selection naming a catalog corridor and one of its rooms, so the next photo is accepted |
| MainBot.Registros.Append | main.py:101-106 | storing a caption creates the missing corridor and room entries and appends the caption (`Recorded`), keeping every dictionary's keys distinct |
| MainBot.RecordedWellFormed | main.py:101-106 | storing a caption keeps the keys of every dictionary distinct |
| MainBot.RecordedCaptions | main.py:101-106 | storing a caption appends exactly that caption to its own room and leaves every other room's captions as they were |
| MainBot.RecordedOrder | main.py:101-106 | a new corridor or room is added after the existing ones; known ones keep their place |
| MainBot.CaptionParts | main.py:97-98 | the caption starts with the type and ends with the `%d/%m/%Y %H:%M` stamp, which parses back to the clock reading |
| MainBot.PhotoHandler | main.py:86-122 | without a complete selection: the warning, nothing stored, session kept. With one: the caption is stored first; the three keys are popped and the largest photo is sent back with the caption only when the send goes through; otherwise the caption stays stored, the session is kept and the apology goes out |
| MainBot.ConcatAppend | main.py:130-134 | appending lines for more elements extends the message and keeps what was there |
| MainBot.ConcatAt | main.py:130-134 | the message is the lines before an element, its own line, then the lines after it |
| MainBot.ReportEmpty | main.py:126-127 | the reply is "Nenhum registro encontrado" exactly when nothing has been stored |
| MainBot.ReportShowsCorridor | main.py:130-132 | every stored corridor appears as its own block, in the dictionary's order |
| MainBot.BlockShowsRoom | main.py:132-134 | every room of a corridor appears under its heading with `len(fotos)` photos, in order |
| MainBot.Ver | main.py:124-139 | the nested loops build exactly `Report` of the stored dictionary; a failed reply gives the apology |
| MainBot.AppendRoomLines | main.py:133-134 | the inner loop appends one line per room, in order |

## Left out

- Telegram I/O: keyboards are flat lists of buttons, whatever their row layout. Markdown rendering and `parse_mode` are not modelled. Sending the photos `/ver` finds in `app.py` is part of the returned reply, and it cannot fail there.
- In `app.py` every Telegram call except the final edit of `escolher_tipo` is assumed to succeed: the replies of `registrar`, `query.answer()` and the menu edits. The model therefore does not capture what a raise there would leave behind:
  - a failed corridor menu (app.py:64) leaves `file_id` stored while no conversation is open, so `App.Coherent` would no longer find `user_data` empty outside a conversation;
  - a failed menu edit (app.py:82, app.py:101) leaves the corridor or room stored while the state stays in ESCOLHER_CORREDOR or ESCOLHER_SALA;
  - a failed `query.answer()` (app.py:73, app.py:91, app.py:112) stores nothing, and in `escolher_tipo` inserts no row, whereas `App.EscolherTipo` always inserts.
- In `main.py`, every call whose failure lands in a handler's `except` is a boolean parameter.
- The sqlite engine: the table is a sequence of rows in insertion order, and `SELECT` is an order-preserving filter. The `INTEGER` affinity of the `sala` column is not modelled: rooms are compared as the strings the buttons carry.
- `datetime.now()` is a parameter. Dates before year 1000 are excluded, because the `%Y` padding of smaller years depends on the C library.
- async/await, logging, `error_handler`, the token, the webhook and polling setup, and `init_db`.
- `main()` in `main.py`: its handler registration is not modelled as a dispatcher; each handler is modelled on its own.
- Handlers never run concurrently here: each update is handled to completion before the next.
- One conversation per user: python-telegram-bot keeps a ConversationHandler state per chat and user, while `context.user_data` is one dictionary per user across all chats. The model keeps a single state per user, as in one chat. It does not capture one user with conversations open in two chats sharing `user_data`: finishing one clears it (app.py:142), and the other then raises `KeyError` at app.py:102 (and stays in ESCOLHER_SALA) or at app.py:126-131 (and stays in ESCOLHER_TIPO), since there is no way back in.
- Stores only append: no row or caption is ever replaced (app.py:122-132, main.py:106).
- `/ver` in `app.py` shows the first matching row of each type, not the latest (app.py:169-170).
- A callback that does not match the current state's pattern reaches no handler and gets no answer (app.py:198-206).
- There are no fallbacks (app.py:205), so a conversation cannot be cancelled.
- Neither bot has a storage-failure path, and sqlite errors are not modelled: the insert in `escolher_tipo` always succeeds.

## Findings

| source | as written | input that shows it | evidently intended | confidence | as-written member | corrected member |
|---|---|---|---|---|---|---|
| app.py:152-155 | `/ver` takes the corridor to be `args[0] + " " + args[1]`, but every catalog corridor name has three or more words, so the lookup never matches a row committed through the buttons | `/ver Corredor A Térreo 7 2025-07-02` looks up corridor "Corredor A", room "Térreo", date "7", and finds nothing | the corridor is every word but the last two, so the arguments of a committed row find it | not executed | App.VerMissesCatalogRows | App.ByWordsFindsCommittedRow |
