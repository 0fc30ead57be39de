# Exam-scores Telegram bot: conversation core

The bot keeps a per-user conversation state and three SQLite tables:

- `profile`: one row per registered user.
- `educational_subjects`: one row per exam score entered, duplicates allowed.
- `message_from_users`: a log of the free text the bot could not handle.

A user can run two linear dialogs:

- registration: `/register` or the "register" button, then first name, then last name;
- score entry: `/enter_scores`, then subject name, then points 0..100.

`/cancel` leaves either dialog. A registration gate refuses to start registration for a user who already has a profile row. `/start` and `/help` answer with fixed texts and read no table. `/view_scores` answers from the scores table, and the "log in" button from the profile table. Any text no handler takes is logged and answered with an echo, except the literal `/register`.

The model is in Dafny, one module per source file plus the dispatcher:

- `Database` models `database/sqlite3.py`. A `Store` class holds the three tables as sequences. Its methods append rows or copy out the rows of one user. `LoadUser` and `LoadEducationalSubjects` are proved against the pure function `Select`, and `CreateProfile` against `InsertProfile`. `DbStart`, `CreateEducationalSubjects` and `CreateMessage` state their new tables directly: unchanged, or the old table with one row appended.
- `Registration` models `filters/regisration.py`. The filter method is proved equal to the decision function `Gate`.
- `UserHandlers` models `handlers/user_handlers.py`: `/start`, `/help`, the log-in answer and `/view_scores`. The `/view_scores` reply loop is a method proved against `ViewScoresReplies`.
- `OtherHandlers` models `handlers/other_handlers.py`: the echo fallback and its ignore list.
- `Fsm` models `handlers/fsm.py`:
  - the five states and the per-user data bag, as maps from user id;
  - a `Bot` class with eight methods for the eleven handler functions, each proved to do what a pure outcome function (`StartRegistration`, `SaveProfile`, ...) says. `ProcessStartRegistration` serves both registrations of `process_start_registracio`, and `WarningNot` stands for the four warning handlers, whose bodies differ only in the text sent;
  - the invariant `Inv`, which holds between messages.
- `Dispatch` models the handler precedence:
  - routers are tried in the order fsm, user_handlers, other_handlers (main.py);
  - within a router, handlers are tried in registration order;
  - filters are checked left to right.

  `Handle` runs one event against the `Bot` and its `Store`. It is proved equal to the pure transition function `Transition` and to keep `Inv`.
- `Properties` and `Scenarios` state what the bot promises over `Transition`, for all inputs and for concrete conversations.
- `Findings` models `login_menu` as written (see Findings below).

Three points where the code's behaviour is easy to misread:

- `profile.user_id` is declared `PRIMARY KEY` (database/sqlite3.py:43). So a second `create_profile` for the same user fails rather than adding a row, and `load_user` returns at most one row.
- Finishing either dialog sends the completion text and then calls `login_menu` (handlers/fsm.py:113-114, 165-166):
  - after registration this adds the greeting photo;
  - after score entry by a registered user it adds the greeting photo;
  - after score entry by an unregistered user, the code as written raises an error before the not-registered prompt is sent (see Findings). The main model (`Fsm.SaveSubject`, `Fsm.Bot.ProcessSaveSubject`, `Dispatch.Transition`) sends the intended prompt instead; the `Findings` module models the code as written and proves where the two differ.
- The dialogs cannot overwrite each other's data. `/register` and `/enter_scores` filter on the default state (handlers/fsm.py:56,125). Mid-dialog, a command text fails the step's letters-only or digits-only check and gets the step's error reply (`Properties.CommandsMidDialogRejected`).

## Model

| member | source | states |
|---|---|---|
| Database.Select | database/sqlite3.py:65 | a row is in the result exactly when it is in the table and belongs to the user, in table order |
| Database.SelectAppend | database/sqlite3.py:65 | selecting from a table with rows appended gives the old selection followed by the selection from the new rows |
| Database.SelectProfileEmpty | database/sqlite3.py:63-71 | load_user returns no rows exactly when the user has no profile row |
| Database.InsertProfile | database/sqlite3.py:43-57 | inserting a profile fails exactly when the user already has a row; on success the user has a row, the table grows by one and the primary key still holds |
| Database.LoadAfterCreate | database/sqlite3.py:55-71 | after creating the profile of an unregistered user, load_user returns exactly that one row |
| Database.SecondCreateFails | database/sqlite3.py:43-57 | a second profile insert for the same user fails |
| Database.AtMostOneProfile | database/sqlite3.py:43 | with the primary key in force load_user returns at most one row |
| Database.DuplicateScoresKept | database/sqlite3.py:75-78 | after adding a score row the user's scores are the old ones followed by the new row, even when an equal row already exists |
| Database.Collect | database/sqlite3.py:67-69 | the copy loop returns exactly the selected rows, in table order |
| Database.Store.constructor | database/sqlite3.py:36 | the module state before db_start assigns the globals `db` and `cur`: the tables already in the database file, not yet opened |
| Database.Store.DbStart | database/sqlite3.py:35-51 | after db_start the store is ready and every stored row is unchanged |
| Database.Store.CreateProfile | database/sqlite3.py:55-59 | succeeds exactly when the user had no profile row, then appends (user, first name, last name); otherwise the table is unchanged; only the profile table may change |
| Database.Store.LoadUser | database/sqlite3.py:63-71 | returns the user's profile rows in table order and changes nothing |
| Database.Store.CreateEducationalSubjects | database/sqlite3.py:75-78 | appends one (user, subject, points) row; only that table may change |
| Database.Store.LoadEducationalSubjects | database/sqlite3.py:82-89 | returns the user's score rows in table order and changes nothing |
| Database.Store.CreateMessage | database/sqlite3.py:93-96 | appends one (user, text, receipt day as DD.MM.YYYY) row; only the message log may change |
| Dates.FormatDate | database/sqlite3.py:94 | the day string is ten characters with dots at positions 2 and 5 |
| Dates.DateRoundTrip | database/sqlite3.py:94 | the stored day string reads back as the date it was made from |
| Dates.FormatDateInjective | database/sqlite3.py:94 | different receipt dates give different day strings |
| Strings.IsAlphaStr | handlers/fsm.py:83 | the `F.text.isalpha()` filter: a non-empty text of letters only (definition) |
| Strings.IsDigitStr | handlers/fsm.py:155 | the `isdigit()` half of the points filter: a non-empty text of digits only (definition) |
| Strings.IsCommand | handlers/fsm.py:56 | the `Command` filter: the first word of the text is "/" followed by the command name (definition) |
| Strings.ParseNat | handlers/fsm.py:154-160 | the value of a digit string of length n is below 10^n |
| Strings.ParseShowNat | handlers/fsm.py:155-159 | reading back the decimal form of n gives n |
| Strings.ParseLeadingZero | handlers/fsm.py:155-159 | a leading zero does not change the value read |
| Strings.ParsePad | database/sqlite3.py:94 | a zero-padded number reads back as itself |
| Strings.CommandIsNotInput | handlers/fsm.py:83-155 | a command text is neither a letters-only nor a digits-only text, so it never passes a dialog step's input filter |
| Registration.Gate | filters/regisration.py:38-55 | the gate passes exactly when the user has no profile row; on rejection it sends exactly one "already started" text; on passing it sends nothing |
| Registration.RegistrationFilter | filters/regisration.py:38-55 | the filter's verdict and replies are those of Gate over the profile table; it reads only through load_user and writes nothing |
| UserHandlers.StartBotReplies | handlers/user_handlers.py:28-32 | /start sends one text carrying the register + log in keyboard |
| UserHandlers.HelpReplies | handlers/user_handlers.py:65-68 | /help sends one help text |
| UserHandlers.LoginMenuReplies | handlers/user_handlers.py:37-61 | one reply: the greeting photo exactly when the user has a profile row, the not-registered text with the registration-only keyboard exactly when not |
| UserHandlers.LoginMenu | handlers/user_handlers.py:37-61 | the log-in answer computed through load_user is LoginMenuReplies of the profile table |
| UserHandlers.ScoreLines | handlers/user_handlers.py:80-81 | one line per row, in row order, each naming that row's subject and points |
| UserHandlers.ViewScoresReplies | handlers/user_handlers.py:76-84 | with k rows, k lines naming each row's subject and points in order; with none, exactly one "no data" text |
| UserHandlers.ViewScores | handlers/user_handlers.py:72-84 | the reply loop over load_educational_subjects sends ViewScoresReplies of the user's score rows |
| OtherHandlers.Echo | handlers/other_handlers.py:28-42 | exactly "/register" is ignored: no row, no reply; any other text appends one row (sender, text) to the log and gets one echo reply; profile and scores untouched |
| OtherHandlers.EchoLogsReceiptDay | database/sqlite3.py:93-96 | the logged row's day string reads back as the receipt date |
| OtherHandlers.SendEcho | handlers/other_handlers.py:30-42 | the fallback run on the store has the effect and replies of Echo and changes only the message log |
| Fsm.PointsAccepted | handlers/fsm.py:154-155 | the points filter: a digit text whose value lies in 0..100 (definition) |
| Fsm.UserInv | handlers/fsm.py:46-50 | what holds of one user between messages: the bag holds exactly the answers the current state has collected, each of which passed its filter, and a user in the registration dialog has no profile row (definition) |
| Fsm.Inv | database/sqlite3.py:43 | every user's part holds and the profile table keeps its primary key (definition) |
| Fsm.StartRegistration | handlers/fsm.py:57-70 | process_start_registracio: the first-name prompt and the first_name state (definition) |
| Fsm.CancelFlow | handlers/fsm.py:75-79 | process_cancel_command_state: the cancellation text, and state and bag cleared (definition) |
| Fsm.NameSent | handlers/fsm.py:84-91 | process_name_sent: the first name kept in the bag, the last-name prompt, the last_name state (definition) |
| Fsm.Warn | handlers/fsm.py:95-98 | the four warning handlers: one error text, nothing else changes (definition) |
| Fsm.SaveProfile | handlers/fsm.py:103-114 | process_save_profile: the last name kept, the profile row inserted from the bag, the state cleared, the completion text and the log-in answer; a rejected insert stops the handler after the bag update (definition) |
| Fsm.SaveProfileForNewUser | handlers/fsm.py:103-114 | for a user without a profile row, exactly the row (user, first name, last name) is appended, state and bag are cleared, and the replies are the completion text and the greeting |
| Fsm.EnterScores | handlers/fsm.py:126-131 | make_enter_name_subject: the subject prompt and the name_subject state, with no registration check (definition) |
| Fsm.SubjectSent | handlers/fsm.py:136-143 | make_enter_points_subject: the subject kept in the bag, the points prompt, the points_subject state (definition) |
| Fsm.SaveSubject | handlers/fsm.py:156-166 | process_save_subject: the points kept as an integer, the score row appended from the bag, the state cleared, the completion text and the intended log-in answer (definition) |
| Fsm.InvFromUser | handlers/fsm.py:46-50 | a change confined to one user's state and profile row keeps the invariant of every other user |
| Fsm.InvSameState | handlers/fsm.py:46-50 | a change that leaves states, bags and the profile table alone keeps the invariant |
| Fsm.StartRegistrationKeepsInv | handlers/fsm.py:55-70 | starting registration for an unregistered user keeps the invariant |
| Fsm.CancelKeepsInv | handlers/fsm.py:74-79 | /cancel keeps the invariant |
| Fsm.NameSentKeepsInv | handlers/fsm.py:83-91 | storing a first name keeps the invariant |
| Fsm.SaveProfileKeepsInv | handlers/fsm.py:102-114 | saving the profile keeps the invariant, the primary key included |
| Fsm.EnterScoresKeepsInv | handlers/fsm.py:125-131 | starting score entry keeps the invariant |
| Fsm.SubjectSentKeepsInv | handlers/fsm.py:135-143 | storing a subject name keeps the invariant |
| Fsm.SaveSubjectKeepsInv | handlers/fsm.py:154-166 | saving a score keeps the invariant |
| Fsm.Bot.constructor | main.py:59 | a fresh memory storage: nobody is in a dialog, and the store is the one given |
| Fsm.Bot.ProcessStartRegistration | handlers/fsm.py:55-70 | sends the first-name prompt and sets the user's state to first_name |
| Fsm.Bot.ProcessCancelCommandState | handlers/fsm.py:74-79 | sends the cancellation text and clears the user's state and bag |
| Fsm.Bot.ProcessNameSent | handlers/fsm.py:83-91 | stores the first name in the bag, asks for the last name, sets last_name |
| Fsm.Bot.WarningNot | handlers/fsm.py:95-98 | sends the step's error text and changes nothing (the same body as the warning handlers at lines 118-121, 147-150 and 170-173) |
| Fsm.Bot.ProcessSaveProfile | handlers/fsm.py:102-114 | stores the last name, creates the profile row from the bag, clears the state, sends the completion text and the log-in answer |
| Fsm.Bot.MakeEnterNameSubject | handlers/fsm.py:125-131 | asks for the subject and sets name_subject, with no registration check |
| Fsm.Bot.MakeEnterPointsSubject | handlers/fsm.py:135-143 | stores the subject name in the bag, asks for the points, sets points_subject |
| Fsm.Bot.ProcessSaveSubject | handlers/fsm.py:154-166 | stores the points as an integer, appends the score row from the bag, clears the state, sends the completion text and the log-in answer |
| Dispatch.Transition | main.py:70-72 | the effect of one event: a message goes to MessageOutcome, a button press to ButtonOutcome; the routers are tried in the order fsm, user_handlers, other_handlers (definition; its properties are the Properties lemmas) |
| Dispatch.MessageOutcome | handlers/fsm.py:56-70 | a message first meets the /register handler: command, default state, then the gate; a rejected gate's reply stays sent and FsmRest decides (definition) |
| Dispatch.FsmRest | handlers/fsm.py:74-173 | the fsm router's other handlers in registration order: /cancel outside the default state, then the handler of the user's state by its input filter, and in the default state /enter_scores or the next routers (definition) |
| Dispatch.ButtonOutcome | handlers/fsm.py:55-70 | a button press first meets start_reg in the default state behind the gate; a rejected gate's reply stays sent and the log-in button handler decides (definition) |
| Dispatch.LoginButton | handlers/user_handlers.py:37-61 | login_menu's callback registration: the "login" payload gets the log-in answer, any other payload nothing (definition) |
| Dispatch.DialogReachesFsmRest | handlers/fsm.py:56 | in a dialog state the /register handler's state filter fails, so every message is decided by the fsm router's other handlers |
| Dispatch.MenuEchoes | handlers/other_handlers.py:30-42 | the texts the menu router leaves to the fallback and the fallback does not ignore (definition) |
| Dispatch.ReachesEcho | handlers/other_handlers.py:30-42 | the messages whose text the fallback inserts into the log: default state, not /enter_scores, not a /register the gate lets through, and a text the menu leaves to the fallback (definition; Properties.LoggedExactlyWhenEchoed proves it is exactly when the log grows) |
| Dispatch.MenuOrEcho | main.py:71-72 | the menu router and the echo fallback never change states, bags, profiles or scores |
| Dispatch.TransitionKeepsInv | main.py:70-72 | every event, through every router, keeps the invariant |
| Dispatch.FsmRestKeepsInv | handlers/fsm.py:74-173 | every fsm-router handler keeps the invariant |
| Dispatch.MenuOrEchoKeepsInv | handlers/other_handlers.py:30-42 | the menu router and the fallback keep the invariant |
| Dispatch.Handle | main.py:70-72 | processing one event in place on the bot and its store has exactly the effect and replies of Transition, and keeps the invariant; quote-free text is needed only when the message reaches the echo fallback's insert |
| Dispatch.HandleMessage | handlers/fsm.py:56 | a message first meets /register in the default state behind the gate; a rejected gate's reply stays sent and the search goes on |
| Dispatch.RunFsmRest | handlers/fsm.py:74-173 | the fsm router's other handlers, tried in registration order, have the effect of FsmRest |
| Dispatch.RunMenuOrEcho | handlers/user_handlers.py:28-84 | the menu router, then the fallback, have the effect of MenuOrEcho |
| Dispatch.MenuOrEchoLogs | handlers/other_handlers.py:30-42 | the menu router and the fallback add a log row (user, text, day) exactly when no menu command takes the text and it is not the ignored /register; otherwise the log is unchanged |
| Dispatch.HandleButton | handlers/fsm.py:55 | a button press first meets start_reg in the default state behind the gate, then the log-in button |
| Dispatch.RunLoginButton | handlers/user_handlers.py:37 | the "login" payload gets the log-in answer; any other payload gets nothing |
| Properties.RegistrationStarts | handlers/fsm.py:55-70 | /register or the register button, from the default state, for an unregistered user: state first_name, one name prompt, nothing else changes |
| Properties.RegisteredUserRejected | filters/regisration.py:46-52 | a registered user asking to register in the default state gets exactly the gate's one rejection text, and nothing changes or is logged |
| Properties.RegisterMessageRejected | filters/regisration.py:46-52 | the /register text from a registered user in the default state gets only the gate's text; the fallback then ignores it, so nothing is logged |
| Properties.OnlyRegistrationEntersFirstName | handlers/fsm.py:55-70 | the user's state becomes first_name exactly when they were in the default state, unregistered, and asked to register |
| Properties.FirstNameStep | handlers/fsm.py:83-98 | in first_name, a letters-only text becomes the only bag entry and the state becomes last_name; any other text but /cancel gets one error reply with state, bag and tables unchanged |
| Properties.LastNameStep | handlers/fsm.py:102-114 | in last_name, a letters-only text appends exactly one profile row (user, bag's first name, text), leaves the user in the default state with an empty bag, and sends the completion text and greeting |
| Properties.LastNameRejected | handlers/fsm.py:118-121 | in last_name, any text that is not letters only, except /cancel, gets the error reply and changes nothing |
| Properties.EnterScoresStarts | handlers/fsm.py:125-131 | /enter_scores in the default state, registered or not, asks for the subject and sets name_subject |
| Properties.NameSubjectStep | handlers/fsm.py:135-150 | in name_subject, a letters-only text is kept as the subject and the state becomes points_subject; other text but /cancel changes nothing |
| Properties.PointsStep | handlers/fsm.py:154-173 | in points_subject, a digit string worth at most 100 appends one score row with that integer value and clears the state; anything else but /cancel gets the error reply and no row |
| Properties.PointsExamples | handlers/fsm.py:155 | "0", "100" and "007" are accepted as 0, 100 and 7; "101", "-5" and "8.5" are refused |
| Properties.EveryScoreAccepted | handlers/fsm.py:155-160 | every score 0..100, with any number of leading zeros, is accepted and stored as itself |
| Properties.CancelResets | handlers/fsm.py:74-79 | /cancel in any dialog step clears the state and bag and sends one cancellation text, before any step handler |
| Properties.CancelInDefaultEchoes | handlers/other_handlers.py:30-42 | /cancel in the default state is logged and echoed by the fallback |
| Properties.CommandsMidDialogRejected | handlers/fsm.py:74-173 | in a dialog step every command but /cancel gets that step's error text and changes nothing, so the dialogs cannot interleave |
| Properties.DialogMessagesStayInFsm | handlers/fsm.py:83-173 | in a dialog step a message gets at least one reply, never the echo, and is never logged |
| Properties.TablesOnlyGrow | database/sqlite3.py:55-96 | every event keeps each table's old rows in place at its start, so a registered user stays registered |
| Properties.LoggedExactlyWhenEchoed | handlers/other_handlers.py:30-42 | for every message, the log grows by exactly one row (user, text, day) when the message reaches the echo fallback, and is unchanged otherwise |
| Properties.FreeTextEchoed | handlers/other_handlers.py:34-42 | in the default state, text that is no command of the bot is logged with the receipt day and gets one echo |
| Properties.ViewScoresReadsOnly | handlers/user_handlers.py:72-84 | /view_scores in the default state answers from the user's stored scores and changes nothing |
| Properties.StartShowsMenu | handlers/user_handlers.py:28-32 | /start in the default state sends one text with the register + log in keyboard and changes nothing |
| Properties.LoginButtonAnswers | handlers/user_handlers.py:37-61 | the log-in button in any state changes nothing and gets the greeting exactly when the user is registered |
| Scenarios.RegisterFromFresh | handlers/fsm.py:55-70 | on a fresh bot, /register from user 42 sets first_name and sends the name prompt |
| Scenarios.FirstNameAnna | handlers/fsm.py:83-91 | then "Anna" is kept as the first name and the last name is asked for |
| Scenarios.LastNameIvanova | handlers/fsm.py:102-114 | then "Ivanova" completes registration: load_user returns exactly (42, "Anna", "Ivanova"), the state is cleared, the greeting is shown |
| Scenarios.EnterScoresFromFresh | handlers/fsm.py:125-131 | on a fresh bot, /enter_scores from unregistered user 7 asks for the subject |
| Scenarios.SubjectMath | handlers/fsm.py:135-143 | then "Math" is kept as the subject and the points are asked for |
| Scenarios.PointsEightySeven | handlers/fsm.py:154-166 | then "87" stores exactly the row (7, "Math", 87) and returns user 7 to the default state |
| Scenarios.SubjectWithDigitRejected | handlers/fsm.py:147-150 | "Math2" as the subject gets the error text and leaves user 7 in name_subject with nothing written |
| Findings.LoginMenuAsWritten | handlers/user_handlers.py:37-61 | login_menu as written fails exactly for an unregistered user reached through a message; otherwise it agrees with LoginMenuReplies |
| Findings.SaveSubjectAsWritten | handlers/fsm.py:156-166 | process_save_subject as written: the row is stored and the state cleared before login_menu, whose raise only cuts the replies short (definition) |
| Findings.UnregisteredScoreEntryLosesPrompt | handlers/fsm.py:154-166 | as written, an unregistered user finishing score entry gets only the completion text; the stored row and cleared state are as intended |
| Findings.RegisteredScoreEntryAgrees | handlers/fsm.py:154-166 | for a registered user the code as written and the intended behaviour agree |
| Findings.UnregisteredScoreEntryPrompts | handlers/fsm.py:154-166 | as intended, an unregistered user finishing score entry gets the completion text and the not-registered prompt with the registration keyboard |

## Left out

- Polling, async/await and the aiogram dispatcher internals are left out. Each event is processed to completion, one at a time, for one user id.
- Bot construction, configuration, logging and the keyboards' markup are left out. The keyboards are tags.
- Deleting the user's message, the photo file and the display names spliced into texts are left out. Replies are phrase tags; the log-in photo is a caption tag.
- Which chat a reply is addressed to (`event.message` versus `event`) is not modelled, except where it raises (see Findings).
- Python's `str.isalpha` is not modelled in full. Letters are ASCII plus the basic Cyrillic alphabet (А-я, Ё, ё); other Unicode letters are not letters here.
- Python's `str.isdigit` is not modelled in full. Digits are ASCII 0-9. A text such as "²" passes `isdigit` and then makes `int()` raise inside the points filter (handlers/fsm.py:155); in the model it is simply refused. Non-ASCII decimal digits such as "٨٧" or "８７" pass both `isdigit` and `int()` in the source, so the filter accepts them and handlers/fsm.py:159 stores 87; the model refuses them with the error reply.
- The Command filter is modelled as "the first whitespace-separated word is `/name`". Whitespace is space, tab, CR and LF. The `@botname` suffix form and other prefixes are not modelled.
- Non-text messages (no `text`) are left out. Callback payloads other than start_reg and login get no handler and no reply.
- SQL string building is not modelled. Values are spliced into SQL between single quotes (database/sqlite3.py:56,65,76,83,95), so a quote in a value breaks the statement. The model keeps the intended insert/select meaning and excludes such values:
- Dispatch.Handle: requires a message text without a single quote only when the message reaches the echo fallback's insert (`ReachesEcho`; `Properties.LoggedExactlyWhenEchoed` shows this is exactly when the log grows). Names and subjects that reach the other inserts pass the letters-only check, which already excludes a quote. The same condition is carried by `Dispatch.HandleMessage`, `Dispatch.RunFsmRest` and `Dispatch.RunMenuOrEcho`.
- Database.Store.CreateProfile: requires names without a single quote.
- Database.Store.CreateEducationalSubjects: requires a subject without a single quote.
- Database.Store.CreateMessage: requires a text without a single quote.
- OtherHandlers.SendEcho: requires a text without a single quote.
- The clock is a parameter. `date.today()` is passed in as `today`, with a four-digit year.
- Storage I/O errors are not modelled. The one failure the model keeps is the primary-key violation in `create_profile`; under the invariant it cannot occur in the dialog.
- The user id column is TEXT in the schema. The model uses the integer id, which is what the code formats into it.
- `login_menu`'s message registration, `@r.message(F.data.in_(['login']))` (handlers/user_handlers.py:38), filters on a callback payload a text message never has. It therefore never matches, and the dispatcher leaves it out.
- Fsm.SaveSubject: for a user without a profile it gives the intended not-registered prompt after the completion text, where the code as written raises before that prompt (see Findings; `Findings.SaveSubjectAsWritten` models the code as written).
- Dispatch.Transition: uses `Fsm.SaveSubject`, so after score entry by a user without a profile it gives the intended prompt rather than the code's exception (see Findings).
- Fsm.Bot.ProcessSaveSubject: for a user without a profile it sends the intended not-registered prompt after the completion text, where the code as written raises before that prompt (see Findings; `Findings.SaveSubjectAsWritten` models the code as written).
- Properties.PointsStep: states the intended replies for a user without a profile, not the code's exception (see Findings).
- Scenarios.PointsEightySeven: its last reply is the intended not-registered prompt; as written, user 7 gets only the completion text (see Findings).
- aiogram keys the FSM state and data by (chat, user). The model keys them by user id only, which is the same for the private chats the bot serves; group chats with several users are not modelled.
- The in-memory state storage is lost when the process restarts. The model starts from an empty storage (`Fsm.Bot.constructor`).

## Findings

| source | as written | input that shows it | evidently intended | confidence | as-written member | corrected member |
|---|---|---|---|---|---|---|
| handlers/user_handlers.py:44-48, called from handlers/fsm.py:166 | `login_menu(message)` answers an unregistered user through `event.message`, which a Message does not have. So finishing score entry without a profile raises after the completion text, and the not-registered prompt is never sent | user 7, no profile, sends /enter_scores, "Math", "87" | the completion text followed by the not-registered prompt with the registration keyboard, as the log-in button gives | medium, not executed | Findings.UnregisteredScoreEntryLosesPrompt | Findings.UnregisteredScoreEntryPrompts |
