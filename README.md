# mioserver core in Dafny

This project models a small MUD server written in Rust on top of mio, and proves properties of the model. A player connects over TCP and first logs on or registers. A newly registered player then creates a character, and after that play begins. In play, every line the player types is written into a shared message log. A one-second heartbeat sends each player the log rows that are newer than the last one that player saw.

The model has four layers:

- `Logon` (logon.dfy) is the logon protocol: a total function from an input line and a logon state to the next state, its reply, and at most one saved player.
- `Character` (character.dfy) is the character-creation protocol with its helpers:
  - the input validators;
  - the map updaters;
  - the fixed tables;
  - the weighted attribute generator.

  One turn is again a total function. It records at most one saved character.
- `Connection` (connection.dfy) is one accepted client, modelled as a class with these fields:
  - its phase;
  - its mio interest set;
  - its LIFO queue of outgoing buffers;
  - its heartbeat watermark;
  - the two sub-protocol states.

  Every method is proved against a pure function on `ConnView`, the value of all its fields. The invariant `Consistent` is proved to be kept by every one of those functions.
- `Server` (server.dfy) is the listener with its table of connections keyed by token, and the mio handlers `ready` and `timeout`.
  - The table is a map over the slab's token range 2..129, with capacity 128.
  - What the event loop and the sockets answer during one event is given as an `Io` value.
  - A panic of the handler (a failed `assert!`, or indexing a vacant slab slot) is returned as `panicked`.

Supporting modules:

- `Text` (text.dfy) defines the parts of Rust's `str` and integer formatting that the server relies on: `trim`, `split(':')`, `to_string` and `parse::<i32>`. It proves their round trips.
- `Messages` (messages.dfy) holds the fixed prompts.
- `TransactionStorage` (storage.dfy) stands in for the SQLite message table and for the player store:
  - `user_exists` is membership in the set of known names;
  - `save_player` and `save_character` append rows.

Outside effects are parameters:

- the clock, as `Clock`;
- the outcome of a socket write, as `WriteOutcome`;
- the outcome of a (re)registration, as a `bool`;
- the random draw, as a function argument;
- `GameHandler::process_commands`, as a function argument.

Where the code and its comments disagree, the model follows the code:

- The slab holds 128 connections (the comment says 126).
- A new connection starts in the Logon phase, not New.
- Invalid input at Race, Gender or Type, and any input at Done, leaves character creation in `New`. The next state defaults to `New` and those paths do not set it.

## Model

| member | source | states |
|---|---|---|
| Text.Trim | src/logon.rs:96 | the trimmed string neither starts nor ends with whitespace |
| Text.TrimShape | src/logon.rs:96 | the input is whitespace, then the trimmed string, then whitespace |
| Text.IntToDecimal | src/character.rs:324 | `to_string` of an integer is non-empty and starts with '-' exactly for negatives |
| Text.TrimDecimal | src/character.rs:324 | a printed integer has nothing for `trim` to remove |
| Text.ParseI32 | src/character.rs:269 | `parse::<i32>` succeeds only on a sign or digit start and only with a value in 32-bit range |
| Text.ParseIntToDecimal | src/character.rs:269 | parsing the decimal form of any 32-bit integer gives that integer back |
| Text.Split | src/character.rs:287 | `split(':')` yields at least one piece and no piece contains the separator |
| Text.JoinSplit | src/character.rs:287 | joining the pieces of a split with the separator gives back the string |
| Text.SplitJoin | src/character.rs:287 | splitting a join of separator-free pieces gives back the pieces |
| Logon.NewFromData | src/logon.rs:29-38 | the manager carries exactly the given name, password, state and reply |
| Logon.NewManager | src/logon.rs:40-49 | a new logon starts at Username with empty name, password and reply |
| Logon.EffectiveInput | src/logon.rs:82-96 | the input is ignored at RegisterCreation and Done and trimmed otherwise |
| Logon.ProcessCommands | src/logon.rs:76-169 | at most one player is saved, exactly when the confirmation matches the password; the saved record is the current name and password; the name changes only at Username and the password only at RegisterPassword, each to the trimmed input |
| Logon.NewGoesToUsername | src/logon.rs:102-104 | New goes to Username with an empty reply, name and password kept, nothing saved |
| Logon.UsernameLooksUpName | src/logon.rs:105-119 | the name becomes the trimmed input; an unknown name goes to RegisterNewUser with the register prompt, a known one to Password with the password prompt |
| Logon.PasswordAlwaysAccepted | src/logon.rs:120-124 | Password goes to Done with an empty reply whatever was typed |
| Logon.RegisterNewUserAsksYes | src/logon.rs:125-138 | exactly "y" or "yes" after trimming leads to RegisterPassword with the password prompt; anything else to New with the welcome message |
| Logon.RegisterPasswordStores | src/logon.rs:139-145 | the password becomes the trimmed input and the confirmation is asked for |
| Logon.ConfirmSavesOnMatch | src/logon.rs:146-159 | a match saves the player once and goes to RegisterCreation with the character prompt; a mismatch goes back to RegisterPassword and saves nothing |
| Logon.TerminalStatesIgnoreInput | src/logon.rs:160-166 | at RegisterCreation and Done the result does not depend on the input, is Done with an empty reply, and saves nothing |
| Logon.RegistrationSavesOnce | src/logon.rs:105-159 | new name, "yes", password, same password reaches RegisterCreation and saves exactly that one player on the last turn |
| Logon.MismatchSavesNothing | src/logon.rs:139-159 | the same sequence with a different confirmation returns to the password prompt and saves nothing |
| Logon.KnownUserLogsOn | src/logon.rs:105-124 | a known name reaches Done after any second line without saving |
| Character.NewCharacter | src/character.rs:62-74 | an empty name, empty info and attributes, and no items, equipment, skills or history |
| Character.NewCharacterFromData | src/character.rs:76-88 | the given name, info and attributes, and empty reserved collections |
| Character.NewCreator | src/character.rs:246-255 | creation starts at Race with an empty name, reply and character |
| Character.NewCreatorFromData | src/character.rs:256-265 | the creator carries exactly the given name, character, state and reply |
| Character.InitializeInfo | src/character.rs:91-102 | the keys are name, race, personality, description, look, all empty |
| Character.InitializeAttr | src/character.rs:104-117 | hp, stam, mana are 10 and agi, str, magic are 3, and no other key |
| Character.GetWeightings | src/character.rs:169-207 | selections 1..4 give the keys str, agi, int, charm with that selection's row of weights (the parameter is named `race_selected`, but the only caller passes the type selection); any other number gives the empty map |
| Character.UpdateAttr | src/character.rs:144-154 | the key is set to the value (inserted if absent) and every other key is unchanged |
| Character.UpdateInfo | src/character.rs:157-167 | the key is set to the trimmed value (inserted if absent) and every other key is unchanged |
| Character.UpdateMulti | src/character.rs:209-222 | every entry of the data overrides the info untrimmed; other keys of the info are kept; no other key appears |
| Character.TruncDiv | src/character.rs:124-131 | the quotient of Rust's integer `/`: truncated toward zero, so the remainder has the dividend's sign and is smaller than the divisor in magnitude |
| Character.InitializeAttrWithBias | src/character.rs:119-142 | whatever the random draws, the map built equals the weights |
| Character.IsInputValid | src/character.rs:267-283 | the parsed trimmed input when it lies in [min, max]; 0 when it is out of range; -1 for unparsable input only when -1 is in range, else 0 |
| Character.SelectionRoundTrip | src/character.rs:267-283 | typing the decimal form of an in-range number selects that number |
| Character.IsStringValid | src/character.rs:285-296 | true exactly when the trimmed input equals one of the ':'-separated choices |
| Character.GenderChoices | src/character.rs:337 | the gender choices accepted are exactly "m", "f" and "u" after trimming |
| Character.ProcessCommands | src/character.rs:298-397 | the owner is carried through unchanged; at most one character is saved, exactly when Selection is confirmed with "y" or "yes", and it is the character the creator ends with |
| Character.NewAsksForRace | src/character.rs:311-315 | New goes to Race with the race prompt, keeping info and attributes |
| Character.RaceResetsAccumulators | src/character.rs:316-333 | info and attributes are reset whatever the input; a race 1..4 is stored and leads to Gender with the gender prompt; otherwise New with an empty reply |
| Character.RaceDigitSelects | src/character.rs:316-328 | typing 1, 2, 3 or 4 at Race stores that race and asks for the gender |
| Character.GenderStoresChoice | src/character.rs:334-349 | m, f or u is stored trimmed and leads to Type with the type prompt; anything else leads to New with the gender prompt and keeps the info |
| Character.TypeGeneratesAttributes | src/character.rs:350-371 | a type 1..4 is stored, the attributes become that type's weighting table and the state is Selection; otherwise New with the type prompt and nothing changes |
| Character.SelectionConfirms | src/character.rs:372-388 | "y" or "yes" goes to Done with the success message and saves the character once; anything else goes back to Type and saves nothing |
| Character.DoneFallsBackToNew | src/character.rs:389-396 | Done yields New with an empty reply and saves nothing |
| Character.CreationSavesOnce | src/character.rs:309-396 | race, gender, type and a confirmation reach Done and save exactly one character carrying the three choices and the type's weights |
| TransactionStorage.NewTransaction | src/transactionstorage.rs:19-27 | a new row has id 0 and the given message and time |
| TransactionStorage.After | src/transactionstorage.rs:87-88 | the rows selected are exactly the stored rows newer than the given time |
| TransactionStorage.AfterShrinks | src/transactionstorage.rs:87-88 | a later watermark selects no more rows than an earlier one |
| TransactionStorage.AfterSorted | src/transactionstorage.rs:87-88 | with rows stored in time order, the rows after the k-th row's time are exactly the rows behind it |
| TransactionStorage.AllAfter | src/transactionstorage.rs:87-88 | when every row is newer than the time, all rows are selected |
| TransactionStorage.MessageLog.constructor | src/transactionstorage.rs:66-75 | a newly created table is empty |
| TransactionStorage.MessageLog.InsertRecord | src/transactionstorage.rs:77-83 | exactly one row is appended with the next autoincrement id and the record's message and time |
| TransactionStorage.MessageLog.GetRecord | src/transactionstorage.rs:85-105 | the rows returned are, as a multiset, the stored rows newer than the given time |
| TransactionStorage.PlayerStore.constructor | src/logon.rs:53-57 | no user is known and nothing is saved |
| TransactionStorage.PlayerStore.SavePlayer | src/logon.rs:60-73 | the player row is appended and its name becomes known; characters unchanged |
| TransactionStorage.PlayerStore.SaveCharacter | src/character.rs:24-47 | the character row is appended; players and known names unchanged |
| Connection.InitialView | src/connection.rs:80-101 | listening for hang-up only, nothing queued, phase Logon, logon at Username, creator at Race |
| Connection.Queued | src/connection.rs:369-374 | the buffer is pushed at the end and writability joins the interest; nothing else changes |
| Connection.TimeTag | src/connection.rs:357-358 | the reply starts with '[' and ends with the message itself |
| Connection.Sent | src/connection.rs:354-362 | an empty message changes nothing; any other is queued once, time-tagged |
| Connection.Settled | src/connection.rs:326-330 | an empty queue drops write interest; a non-empty one keeps it; the result is Ok |
| Connection.FlushedPopsNewest | src/connection.rs:298-324 | the newest buffer is the one written; WouldBlock leaves the queue as it was; a write error returns Err with that buffer dropped and the interest untouched |
| Connection.FlushedDropsIdleWriteInterest | src/connection.rs:326-331 | after an Ok return writability is of interest exactly when something is left to write |
| Connection.Registered | src/connection.rs:379-380 | readability joins the interest set and nothing else changes |
| Connection.WatermarkIsMaximum | src/connection.rs:120-133 | the watermark never falls below its start, bounds every timestamp seen, and is either the start or one of them |
| Connection.WatermarkIsLastSent | src/connection.rs:124-133 | the watermark ends at the last row sent, or where it started when nothing is sent |
| Connection.FreshIncreasing | src/connection.rs:124-132 | the rows sent have strictly increasing timestamps, all after the old watermark |
| Connection.FreshFromRows | src/connection.rs:122-132 | only fetched rows are sent, each no more often than fetched |
| Connection.FreshSorted | src/connection.rs:122-132 | when the query returns newer rows in time order, every one of them is sent |
| Connection.OutOfOrderRowIsSkipped | src/connection.rs:122-132 | a newer row fetched before an older one hides the older one for good |
| Connection.SendAll | src/connection.rs:124-132 | sending rows changes neither phase, watermark nor sub-protocol states |
| Connection.HeartbeatOnlyInPlay | src/connection.rs:114-138 | outside Play a heartbeat changes nothing; in Play the watermark ends at the running maximum, never moves back, and the phase stays Play |
| Connection.CreatorInput | src/connection.rs:179-191 | the creator handed over is owned by the logon name, with the stored info, attributes and state and an empty reply |
| Connection.LogonTurn | src/connection.rs:155-173 | a logon turn saves no character and logs nothing |
| Connection.CreationTurn | src/connection.rs:174-205 | a creation turn saves no player and logs nothing |
| Connection.PlayTurn | src/connection.rs:206-232 | a play turn changes no connection state and saves nothing |
| Connection.NewInput | src/connection.rs:144-154 | in phase New the untagged welcome is queued and the phase becomes Logon |
| Connection.LogonInput | src/connection.rs:155-173 | the logon state becomes the protocol's answer, its reply is sent, and the phase is CharacterCreation exactly on RegisterCreation, Play exactly on Done, Logon otherwise; the players saved are the protocol's |
| Connection.CreationInput | src/connection.rs:174-205 | the creator becomes the protocol's answer, owned by the logon name; its reply is sent; the phase becomes Play exactly when creation is Done |
| Connection.PlayInput | src/connection.rs:206-232 | exactly one row is logged, carrying the game's answer and the current time |
| Connection.PhaseNeverGoesBack | src/connection.rs:140-235 | the phase only moves forward through New, Logon, CharacterCreation, Play |
| Connection.InitialConsistent | src/connection.rs:80-101 | a new connection satisfies the invariant |
| Connection.SentConsistent | src/connection.rs:354-374 | sending keeps the invariant |
| Connection.FlushedConsistent | src/connection.rs:298-331 | a write keeps the invariant |
| Connection.RegisteredConsistent | src/connection.rs:379-380 | registering keeps the invariant |
| Connection.SendAllConsistent | src/connection.rs:124-132 | sending any rows keeps the invariant |
| Connection.HeartbeatConsistent | src/connection.rs:114-138 | a heartbeat keeps the invariant, whatever the write's outcome |
| Connection.InputConsistent | src/connection.rs:140-235 | handling any input keeps the invariant |
| Connection.Connection.constructor | src/connection.rs:80-101 | the new connection's state is the initial view with the given token and time |
| Connection.Connection.SetLastUpdate | src/connection.rs:104-107 | only the watermark changes, to the given time |
| Connection.Connection.SendMessage | src/connection.rs:369-374 | the buffer is queued and writability announced; returns Ok |
| Connection.Connection.Send | src/connection.rs:354-362 | the new state is the time-tagged send of the message |
| Connection.Connection.Writable | src/connection.rs:298-331 | the new state and result are those of one write of the newest buffer |
| Connection.Connection.Register | src/connection.rs:379-391 | readability is added to the interest and the registration's outcome is returned |
| Connection.Connection.HandleHeartbeat | src/connection.rs:114-138 | in Play the rows fetched are, as a multiset, the log rows newer than the old watermark; outside Play none are; the new state is the heartbeat's |
| Connection.Connection.SendFresh | src/connection.rs:120-132 | the loop sends exactly the fresh rows, in order, and returns the final watermark |
| Connection.Connection.HandleLogon | src/connection.rs:155-173 | the new state is the logon turn's, and the saved player is appended and its name becomes known |
| Connection.Connection.HandleCreation | src/connection.rs:174-205 | the new state is the creation turn's, and the saved character is appended |
| Connection.Connection.HandlePlay | src/connection.rs:206-232 | one row with the game's answer and the current time is appended to the log |
| Connection.Connection.HandleInput | src/connection.rs:140-235 | always Ok(true); the new state is the input's effect, and the store and log grow by exactly the players, characters and rows it produced |
| Server.FreeSlotExists | src/server.rs:186-190 | a table with fewer than 128 entries has a vacant token in the slab range |
| Server.WriteFailureThenReadPanics | src/server.rs:63-89 | a failed write or reregistration in an event that is also readable makes `ready` panic although the event is not stray |
| Server.LoopReregFailurePanics | src/server.rs:83-84 | a failed reregistration inside `Server::readable` makes `ready` panic on the second lookup although the event is not stray |
| Server.Server.constructor | src/server.rs:95-115 | the listener has token 1, the table is empty, nothing is shut down or armed |
| Server.Server.Register | src/server.rs:120-131 | the heartbeat timer is armed and the registration's outcome returned; the table is unchanged |
| Server.Server.FindConnectionByToken | src/server.rs:263-265 | returns the connection under the token |
| Server.Server.ResetConnection | src/server.rs:253-260 | the listener's token sets shutdown and keeps the table; any other token removes only that entry, a no-op when absent |
| Server.Server.Insert | src/server.rs:186-189 | the connection is added under a vacant token in the slab range |
| Server.Server.ReregisterListener | src/server.rs:136-147 | a failed reregistration shuts the server down; the table is unchanged |
| Server.Server.Accept | src/server.rs:153-210 | a connection is added exactly when one is accepted, the table has room and registering it succeeds; it goes under a previously vacant token, is new, and starts as a registered initial connection; otherwise the table is unchanged; a failed listener reregistration shuts down on every path |
| Server.Server.Readable | src/server.rs:217-251 | Ok exactly when the read succeeded; a read that filled the whole 2048-byte buffer (`atCapacity`) changes nothing; any other successful read, including an empty one, reaches `handle_input`: the token's connection handles the input once, the store and log grow by its effects, and the token is reset exactly when its reregistration fails |
| Server.Server.Dispatch | src/server.rs:229-244 | only the connection with the matching token handles the input, and its token is collected exactly when its reregistration fails |
| Server.Server.HandleAt | src/server.rs:235 | the matching connection's `handle_input` succeeds with its effect on the connection, store and log |
| Server.Server.ResetAll | src/server.rs:246-248 | exactly the collected tokens leave the table |
| Server.Server.HeartbeatEach | src/server.rs:38-41 | every connection in the table gets exactly one heartbeat, and in Play fetches the log rows newer than its watermark |
| Server.Server.BeatAt | src/server.rs:40 | one connection's heartbeat |
| Server.Server.Timeout | src/server.rs:36-43 | every connection gets one heartbeat, the table is unchanged, and the timer is rescheduled |
| Server.Server.WriteEvent | src/server.rs:63-73 | the connection's write happens, and the token is reset exactly when the write or the reregistration fails |
| Server.Server.ReadEvent | src/server.rs:77-90 | as written: panics on a vacant token or after `Server::readable` removed the token; otherwise the token stays exactly when the read succeeded and reregistering worked; a failed or full read leaves the connection, store and log as they were, and any other read applies the line's effect |
| Server.Server.ReadEventIsolated | src/server.rs:77-90 | corrected: panics only on a vacant token; a token that `Server::readable` removed is not looked up again |
| Server.Server.ListenerEvent | src/server.rs:63-80 | a writable listener event panics; a readable one accepts, adding a connection exactly when accept, room and registration allow, and shuts down exactly when the listener's reregistration fails |
| Server.Server.ConnectionEvent | src/server.rs:63-90 | as written: panics exactly as `ReadyPanics` says; the token stays exactly when `Survives` holds; the connection ends in its flushed state with store and log unchanged unless a line was handled, and then the line's effect is applied to the flushed state |
| Server.Server.ConnectionEventIsolated | src/server.rs:63-90 | corrected: panics exactly on a stray event; otherwise the same table, connection, store and log as `ConnectionEvent` |
| Server.Server.Ready | src/server.rs:45-91 | as written: panics exactly as `ReadyPanics` says; an error or hang-up resets the token (the listener's shuts down) and leaves the store and log; a readable listener event accepts as `Accept` says; for a connection's event the token stays exactly when `Survives` holds, the connection ends in its flushed state and the store and log are unchanged unless a line was handled, in which case the line's effect on them is stated; every other connection is left as it was |
| Server.Server.ReadyIsolated | src/server.rs:45-91 | corrected: panics exactly on stray events (Token(0), a writable listener event, a vacant token), and then changes nothing; otherwise the same table, connection, store and log as `Ready` |

## Left out

- Socket I/O is not modelled. This covers the `readable` drain loop with its 2048-byte buffer, `welcome`'s direct write with its recursive WouldBlock retry, and mio `register`/`reregister`. A read's result is a `ReadOutcome`, and a write's result is a `WriteOutcome`. A registration's result is a `bool`.
- Partial writes are not modelled. Any `Ok(Some(n))` from a write counts as the buffer written.
- Server.Server.Readable: `remaining() == capacity()` is taken as a flag on the read result, `atCapacity`, because the buffer's byte accounting is not modelled.
- Server.Server.Accept: the slab inserts the connection before registering it and removes it if registration fails. The model registers first and inserts only on success, which leaves the same table. Which vacant token the slab picks is not modelled, only that it is vacant and in range.
- Server.Server.Ready: after a panic only the panic itself is stated, not the state the handler stopped in.
- Server.Server.Timeout: how the write's outcome is chosen for each connection is a parameter. The iteration order of the slab and of HashMaps does not matter to any property stated.
- Server.Server.Valid: the per-connection invariant `Consistent` is not part of the server's invariant. It is proved per operation by the `...Consistent` lemmas in `Connection`.
- TransactionStorage.MessageLog.InsertRecord: ids are numbered from the rows the model holds. `createDB` keeps an existing table in the database file, so the source's ids continue from earlier runs.
- TransactionStorage.PlayerStore.SavePlayer, TransactionStorage.PlayerStore.SaveCharacter: a failed `db.insert`, which the source only logs, is not modelled; the model treats every save as successful, so the saved record is always appended and a saved player's name always becomes known.
- The SQLite query has no ORDER BY, so `GetRecord` promises only the multiset of rows. Which order the query returns is not modelled.
- Character.ProcessCommands: the attribute listing iterates a HashMap in an unspecified order. The model lists the keys in the fixed order str, agi, int, charm.
- Character.InitializeAttrWithBias: the random draw is a function argument. The possible panics of `gen_range` and the running budget's arithmetic are not modelled. An empty weight map (a division by zero in the source) is excluded by a requires.
- Character.UpdateAttr, Character.UpdateInfo: the source updates the map behind a mutable reference. The model returns the updated map, because the pure `ProcessCommands` uses them.
- The `storage` module and `GameHandler` are not part of this model. `user_exists`, `save_player` and `save_character` act on `PlayerStore`, and the game's answer is a function argument. Stored columns (such as stage "creation") are not modelled.
- Clocks are parameters: `time::now` is the hour, minute and second of a `Clock`, and `time::get_time` is its `now`. A `Timespec` is an `int`. One operation takes one reading, so every message of one heartbeat carries the same time.
- Input bytes are taken as a string. The UTF-8 decoding in `get_input_string`, and its panic on invalid bytes, are not modelled.
- Text.ParseI32: i32 arithmetic is modelled only where the source parses (`parse::<i32>`). Other integers are unbounded, and their wrap-around is not modelled.
- Login is not checked against a stored password (the source does not check it either).
- src/greetings.rs, src/heartbeat.rs, src/main.rs and logging are not part of this model.

## Findings

| source | as written | input that shows it | evidently intended | confidence | as-written member | corrected member |
|---|---|---|---|---|---|---|
| src/server.rs:63-89 | the writable arm resets the token when the write or its reregistration fails, and then the readable arm of the same event looks the token up again, indexing a vacant slab slot | an event that is writable and readable for a connection whose write fails | once a token is reset, the event is finished for it | not executed; high | Server.Server.Ready, Server.WriteFailureThenReadPanics | Server.Server.ReadyIsolated |
| src/server.rs:83-84 | when reregistration inside `Server::readable` fails, the token is reset there, `Ok(())` is returned, and `ready` then calls `find_connection_by_token` on the removed token | a readable event whose read does not fill the buffer and whose reregistration inside the loop fails | a token reset inside `readable` is not reregistered | not executed; high | Server.Server.ReadEvent, Server.LoopReregFailurePanics | Server.Server.ReadEventIsolated |
