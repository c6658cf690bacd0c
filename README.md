# TMP Murcia bus alerts: a Dafny model

This project models the four core pieces of a bus-alert service for the transit operator of Murcia.

- **Subscription store** (`subscriptions.dfy`). Each Telegram chat id maps to the lines it follows and to whether it takes general alerts.
  - The store is a value, `Table`: the records kept in a map, plus their chat ids in insertion order. The order matters because recipients come out in that order.
  - The store's operations are pure functions on the table.
  - `SubscriptionManager` is a class holding one table. Its methods change the table in place, as the program does. Each write to the subscriptions file is recorded as a snapshot in `saved`.
- **Alert monitor** (`scraper.dfy`).
  - The line number is extracted from a title (`Línea`, whitespace, digits; case-insensitive).
  - The links of the news page are turned into alerts.
  - Alerts are filtered down to those some subscriber wants, then diffed against the stored history.
  - `send_telegram_notifications` counts the successful deliveries.
  - `main` is modelled as a specification function `Run` that returns a result and the ordered log of outside effects. The method `RunMonitor` does the run step by step.
- **Bot command layer** (`bot.dfy`).
  - `text.split(maxsplit=1)` and the lowercased command route each message to its handler.
  - Handlers check their arguments, change the store and send one reply each.
  - `process_updates` moves the offset past every update, including one whose processing raised.
  - The spec functions `MessageEffect` and `UpdatesEffect` describe what messages and batches do. The class `TelegramBot` does it in place. Its outgoing messages go to an `outbox` log.
- **Migration** (`migrate.dfy`). A configured chat is subscribed to lines 11 and 44, and general alerts are switched on for it.

`common.dfy` holds `Option`, Python truthiness of an optional string, subsequences and reversal. `text.dfy` holds:
- Python's whitespace class;
- ASCII lowercasing;
- substring search and `str.split(sep)[1]`;
- Python's ordering of strings and `sorted` of a set.

Outside inputs are parameters:
- what loading a file returned: `None` for a missing subscriptions or history file, or one that is not valid JSON; for the offset file, `None` for any failure to read it;
- the chat id and the bot token from the environment;
- the links BeautifulSoup found (`None` when the request failed);
- the Telegram updates;
- a per-recipient success predicate standing for the HTTP transport;
- the time of a run.

Behaviour of the code that is easy to misread and that the model keeps:
- **The alert code.** `href.split('codigo=')[1]` is the text between the first and the second `codigo=`, not everything after the first. `SecondPiece` models exactly that.
- **Lines are a list, not a set.** A record's `lines` is a list that a loaded file may hold with repetitions.
  - Unsubscribing removes only the first copy.
  - "Absent afterwards" is proved only for records without repetitions.
  - Subscribing never adds a second copy.
- **Reads create records.** Every access creates a missing record, including `get_subscribed_lines` and `get_receive_general` and so `/mis_lineas`. Creation alone does not write the file.
- **Whitespace-only messages raise.** A text made only of whitespace makes `parts[0]` raise `IndexError`. A message without a chat raises `KeyError`. Both are `Raised` outcomes. `process_updates` swallows them, and the offset still advances.
- **The argument keeps trailing whitespace.** `split(maxsplit=1)` strips only the whitespace before it, so `/suscribir 11 ` subscribes to `"11 "`.
- **The offset comes from the last update with an id.** It is that update's `update_id + 1`, not a running maximum. An update without `update_id` raises `KeyError` before the offset is set. The handler prints `update.get('update_id')`, which gives `None` and does not raise. So that update is skipped, its message is not handled, the offset stays where it was, and the loop goes on.

## Model

| member | source | states |
|---|---|---|
| Text.IsSpace | bot.py:218 | the characters `str.isspace()` accepts, used by `split()` and by the regex class `\s` (`LowerChar` keeps them whitespace) |
| Common.ReverseMirrors | scraper.py:211 | `reversed` keeps the length and puts at position k the element k places from the end |
| Text.LowerChar | bot.py:219 | lowercasing maps `A`–`Z` to `a`–`z`, leaves every other character alone and keeps whitespace whitespace |
| Text.Lower | bot.py:219 | `str.lower()` keeps the length and lowercases each character in place |
| Text.FindFrom | scraper.py:56 | a found position is at or after the start and `pat` really occurs there |
| Text.FindFromLeftmost | scraper.py:56 | no occurrence is skipped: none lies between the start and the found position, and none at all when nothing is found |
| Text.ContainsSpec | scraper.py:56 | `pat in s` holds exactly when `pat` occurs at some position of `s` |
| Text.SecondPiece | scraper.py:58 | `split(sep)[1]` exists exactly when `sep` occurs; the piece is shorter than the text by at least `sep` |
| Text.SecondPieceSpec | scraper.py:58 | the piece starts right after the leftmost `sep`, is that slice of the text, and ends at the text's end or at the next `sep` |
| Text.SecondPieceHasNoSeparator | scraper.py:58 | the piece holds no `sep` of its own |
| Text.LessOrder | subscriptions.py:123 | Python's `<` on strings is irreflexive and transitive |
| Text.LessTotal | subscriptions.py:123 | any two different strings are ordered one way or the other |
| Text.SortedSet | subscriptions.py:123 | `sorted(set)` is strictly increasing, has as many elements as the set and holds exactly its elements |
| Text.SortedUnique | subscriptions.py:123 | a strictly increasing sequence is determined by its elements, so `sorted` has only one possible result |
| Subscriptions.OnlyTouchesTrans | subscriptions.py:42-69 | two store operations that each change only the record of `id` together change only it |
| Subscriptions.TableSize | subscriptions.py:109 | the number of records equals the number of chat ids in insertion order |
| Subscriptions.Touch | subscriptions.py:32-40 | a lookup returns the record; for an unknown chat id it creates `{lines: [], receive_general: true}` and the table grows by one, and it changes nothing else |
| Subscriptions.Subscribe | subscriptions.py:42-49 | reports true exactly when the line was absent; the line is then held, appended at the end, with the flag and every other record untouched; when the line was already there the table is unchanged |
| Subscriptions.SubscribeNoDuplicates | subscriptions.py:45-46 | a line that subscribing adds is held exactly once, and a record without repetitions stays without them |
| Subscriptions.RemoveFirst | subscriptions.py:55 | `list.remove` drops exactly one copy of a present element (multiset minus one) and leaves a list without it unchanged |
| Subscriptions.RemoveFirstAt | subscriptions.py:55 | `list.remove` takes out the first copy and keeps the others in order: when k is the first position holding the element, the result is the list without position k |
| Subscriptions.RemoveFirstDistinct | subscriptions.py:55 | in a list without repetitions, removal removes the element altogether and keeps the list repetition-free |
| Subscriptions.Unsubscribe | subscriptions.py:51-58 | reports true exactly when the line was present; the lines become the list with that line removed, it is absent afterwards in a list without repetitions, the record stays, nothing else changes |
| Subscriptions.SetGeneral | subscriptions.py:65-69 | only the flag of that chat changes, to the given value; its lines and every other record are unchanged |
| Subscriptions.General | subscriptions.py:74 | the flag as every reader sees it: a missing flag counts as true (also lines 95 and 119) |
| Subscriptions.Wants | subscriptions.py:90-96 | a truthy line wants a record holding it; a None or empty line wants a record taking general alerts |
| Subscriptions.Select | subscriptions.py:86-98 | the walk over records keeps an order-preserving subsequence: exactly the ids with a record that wants the alert |
| Subscriptions.RecipientsFor | subscriptions.py:86-98 | the recipients are exactly the subscribers who want the alert (the line's holders for a non-empty line, the general-alert takers, missing flag as true, otherwise), each once, in insertion order |
| Subscriptions.LinesOf | subscriptions.py:103-104 | the union taken over some records holds exactly the lines one of them holds |
| Subscriptions.AllLines | subscriptions.py:100-105 | the monitored lines are exactly the lines some subscriber holds |
| Subscriptions.CountHolders | subscriptions.py:114-115 | the count of holders of a line is at most the number of records, and positive exactly when some record holds it |
| Subscriptions.CountGeneral | subscriptions.py:118-119 | the number of general-alert takers is at most the number of records |
| Subscriptions.LineCounts | subscriptions.py:112-116 | the keys are exactly the monitored lines, each mapped to its number of holders, which lies between 1 and the number of records |
| Subscriptions.StatsOf | subscriptions.py:107-126 | `total_users` is the number of records; `monitored_lines` is sorted and holds exactly the monitored lines; `line_counts` has exactly those keys with counts from 1 to `total_users`; `general_alerts_users` is at most `total_users` |
| Subscriptions.HoldersAreRecipients | subscriptions.py:114-115 | the number of holders of a non-empty line is the number of recipients of an alert for it |
| Subscriptions.GeneralAreRecipients | subscriptions.py:118-119 | the number of general-alert takers is the number of recipients of a general alert |
| Subscriptions.StatsMatchRecipients | subscriptions.py:107-126 | each per-line count in the statistics is how many users an alert for that line reaches, and the general figure is how many a general alert reaches |
| Subscriptions.SubscribeTwice | subscriptions.py:42-49 | subscribing twice to an absent line reports true then false, the second call changes nothing, and the line is held once |
| Subscriptions.UnsubscribeKeepsRecord | subscriptions.py:51-58 | removing a user's last line leaves the record in place with no lines and the number of users unchanged |
| Subscriptions.SubscriptionManager.constructor | subscriptions.py:13-25 | the store starts from what the file held, or from no users when the file is missing or not valid JSON |
| Subscriptions.SubscriptionManager.GetUserData | subscriptions.py:32-40 | returns the record or the fresh default; the table becomes `Touch` of the old one; nothing is saved |
| Subscriptions.SubscriptionManager.SubscribeLine | subscriptions.py:42-49 | the new table and the flag are those of `Subscribe`; exactly one save happens when it returns true, none otherwise |
| Subscriptions.SubscriptionManager.UnsubscribeLine | subscriptions.py:51-58 | the new table and the flag are those of `Unsubscribe`; exactly one save happens when it returns true, none otherwise |
| Subscriptions.SubscriptionManager.GetSubscribedLines | subscriptions.py:60-63 | returns the chat's lines (empty for a new chat), creates the record if missing, saves nothing |
| Subscriptions.SubscriptionManager.SetReceiveGeneral | subscriptions.py:65-69 | the table becomes `SetGeneral` of the old one and one save happens |
| Subscriptions.SubscriptionManager.GetReceiveGeneral | subscriptions.py:71-74 | returns the flag with a missing flag as true, creates the record if missing, saves nothing |
| Subscriptions.SubscriptionManager.GetUsersForAlert | subscriptions.py:86-98 | the loop over the records in insertion order returns exactly `RecipientsFor` |
| Subscriptions.SubscriptionManager.GetAllMonitoredLines | subscriptions.py:100-105 | the loop returns exactly the monitored lines |
| Subscriptions.SubscriptionManager.GetStats | subscriptions.py:107-126 | the counting loops return exactly `StatsOf` of the store |
| Scraper.MatchAt | scraper.py:38 | a match at one position captures a non-empty run of digits |
| Scraper.MatchAtCorrect | scraper.py:38 | `MatchAt` returns exactly what a match of `Línea\s+(\d+)` starting at that position can capture, and it finds any such match |
| Scraper.MatchAtUnique | scraper.py:38 | a match at a position can only use the longest whitespace run and the longest digit run there |
| Scraper.SearchFrom | scraper.py:38 | a search result is a non-empty run of digits |
| Scraper.SearchFromNone | scraper.py:38-41 | the search finds nothing exactly when no position from the start on matches |
| Scraper.SearchFromFirst | scraper.py:38-40 | what the search finds is the capture at the leftmost matching position |
| Scraper.ExtractLineNumber | scraper.py:36-41 | a returned line number is a non-empty run of digits |
| Scraper.ExtractLineNumberLeftmost | scraper.py:36-41 | None exactly when `Línea`, whitespace and digits occur nowhere; otherwise the digits of the leftmost such match |
| Scraper.MarkerHasKey | scraper.py:56-58 | a link holding `Cuerpo.asp?codigo=` holds `codigo=`, so the `else None` of the code split never fires there |
| Scraper.AlertOfLink | scraper.py:55-67 | the alert a link stands for; its contract is `AlertOfLinkSpec` |
| Scraper.AlertOfLinkSpec | scraper.py:54-67 | a link yields an alert exactly when its href holds the detail marker, the code after `codigo=` is non-empty and the title is non-empty; the alert has that code, the title, the title's line number and the url `https://tmpmurcia.es/` + href |
| Scraper.ReadLink | scraper.py:55-67 | the body of the link loop produces exactly the alert the link stands for |
| Scraper.ScrapedAlerts | scraper.py:53-70 | the scrape yields at most one alert per link |
| Scraper.ScrapedMembers | scraper.py:54-67 | an alert is scraped exactly when some link of the page stands for it |
| Scraper.ScrapeTmpAlerts | scraper.py:43-74 | a failed request gives no alerts; otherwise the loop over the links gives exactly `ScrapedAlerts` |
| Scraper.IsMonitored | scraper.py:99-102 | an alert is kept when its line is empty or None, or is monitored |
| Scraper.MonitoredAlerts | scraper.py:97-102 | the kept alerts are an order-preserving subsequence of the input, holding exactly the general alerts and those whose line is monitored |
| Scraper.MonitoredCounts | scraper.py:97-102 | every copy of a wanted alert is kept and no copy of another; with the subsequence property this leaves one possible result, repetitions included |
| Scraper.GetMonitoredAlerts | scraper.py:76-109 | the loop returns exactly `MonitoredAlerts` of the page's alerts and the store's monitored lines |
| Scraper.HistoryCodes | scraper.py:113 | the history codes are exactly the codes of the stored alerts |
| Scraper.FreshAlerts | scraper.py:114 | the kept alerts are an order-preserving subsequence holding exactly the alerts whose code is not in the set |
| Scraper.FreshCounts | scraper.py:114 | every copy of an alert with an unknown code is kept and no copy of one with a known code |
| Scraper.FindNewAlerts | scraper.py:111-117 | the new alerts are an order-preserving subsequence of the current ones; none has a code found in the history, and every current alert whose code is missing from it is included |
| Scraper.NewAlertCounts | scraper.py:111-117 | every copy of a current alert whose code the history lacks is new, and no copy of one whose code it holds, so a repeated new alert is sent once per copy |
| Scraper.NothingFreshAgainstItself | scraper.py:113-114 | against a history holding every code of the alerts, nothing is new |
| Scraper.CountDelivered | scraper.py:147-168 | the delivered count is at most the number of recipients |
| Scraper.AllDelivered | scraper.py:159-160 | the count equals the number of recipients exactly when every delivery succeeded |
| Scraper.FailureIsIsolated | scraper.py:148-165 | a failure for one recipient lowers the count by exactly one, and every other recipient is counted as before |
| Scraper.SameOutcomesSameCount | scraper.py:148-165 | the count depends only on the outcomes for the recipients actually tried |
| Scraper.Attempts | scraper.py:121-132 | without a token nobody is tried; with one, exactly the subscribers who want the alert are |
| Scraper.SendTelegramNotifications | scraper.py:119-168 | tries exactly `Attempts`, each recipient once and in order, with no stop after a failure, and returns how many succeeded (0 without a token or without recipients) |
| Scraper.Deliveries | scraper.py:148-157 | one delivery effect per recipient |
| Scraper.DispatchLog | scraper.py:210-215 | the deliveries for the alerts sent one after the other; `DispatchStep` and `DispatchOnlyDelivers` state its properties |
| Scraper.TotalSent | scraper.py:210-215 | the sum of the per-alert delivered counts; `DispatchStep` states how it grows |
| Scraper.DispatchStep | scraper.py:211-215 | dispatching one more alert appends its deliveries to the log and its count to the total |
| Scraper.DeliveriesOnly | scraper.py:148-157 | the k-th effect of a batch is the delivery to the k-th recipient |
| Scraper.DispatchOnlyDelivers | scraper.py:208-216 | the dispatch loop only delivers: it neither loads, fetches nor saves |
| Scraper.Run | scraper.py:170-231 | with no users nothing at all is done; the run ends with status 1 exactly when there are users and the fetch gave no alerts, and then the history is loaded and the page fetched but nothing is saved; a completed run starts by loading and fetching and ends by saving the history it reports |
| Scraper.RunResult.ExitCode | scraper.py:196-199 | only an empty fetch exits with status 1; `Run` states exactly when that happens |
| Scraper.DispatchNewAlerts | scraper.py:208-216 | goes through the new alerts from last to first, recording exactly the deliveries of `DispatchLog` and the count of `TotalSent` |
| Scraper.RunMonitor | scraper.py:170-231 | the run done step by step has exactly the result and the effects `Run` specifies |
| Scraper.DispatchOldestFirst | scraper.py:211 | the dispatched alerts are the new alerts in reverse order |
| Scraper.NewMeansUnseen | scraper.py:202-205 | no reported alert has a code found in the loaded history, and every monitored alert whose code it lacks is reported |
| Scraper.SavedIsMonitored | scraper.py:202-226 | the saved history is the time of the run with exactly the monitored alerts, so an alert for a line nobody follows never enters it |
| Scraper.QuietRun | scraper.py:205-226 | a run that finds nothing new sends nothing, counts zero and only saves the monitored alerts |
| Scraper.SecondRunQuiet | scraper.py:202-226 | a second run on the same page and store, fed the history the first run saved, finds nothing new, sends nothing and saves the same alerts again |
| Scraper.ResubscribeReplays | scraper.py:202-226 | an alert left out of the history because nobody followed its line is new in a later run once someone subscribes to that line |
| Scraper.TransportDoesNotSteer | scraper.py:157-165 | the transport's answers never change which deliveries are attempted or what is saved |
| Bot.Then | bot.py:252-262 | a raised message leaves the bot state as it was; a handled one replaces the table and appends its saves and replies |
| Bot.SkipSpace | bot.py:218 | stops at the first non-whitespace position or the end, skipping only whitespace |
| Bot.SkipWord | bot.py:218 | stops at the first whitespace position or the end, skipping no whitespace |
| Bot.SplitCommand | bot.py:218-220 | `split(maxsplit=1)` fails (no `parts[0]`) exactly for an all-whitespace text; otherwise the command is a non-empty token without whitespace and the argument is empty or starts with a non-space |
| Bot.SkipSpaceAt | bot.py:218 | the whitespace scan stops exactly at the end of a whitespace run |
| Bot.SkipWordAt | bot.py:218 | the token scan stops exactly at the end of a run without whitespace |
| Bot.SplitRoundTrip | bot.py:218-220 | splitting leading whitespace + command + whitespace + argument gives back the command and the argument |
| Bot.SplitDecomposes | bot.py:218-220 | conversely, a text that splits is leading whitespace, the command, whitespace and the argument |
| Bot.Route | bot.py:225-240 | a command is unrecognized exactly when it is none of the ten names; the three alias pairs select the same handler |
| Bot.SubscribeCommand | bot.py:98-108 | one reply to the sender; an empty line earns the usage reply and changes nothing; otherwise the new table is exactly that of `Subscribe` (the line held, the sender's other lines and flag kept, only that chat's record changed), and the reply and the single save follow whether the store reported a change |
| Bot.UnsubscribeCommand | bot.py:110-120 | one reply to the sender; an empty line earns the usage reply and changes nothing; otherwise the new table is exactly that of `Unsubscribe` (first copy removed, the rest and the flag kept, only that chat's record changed); the reply and the single save follow whether the line was there, and it is gone from a list without repetitions |
| Bot.GeneralCommand | bot.py:147-159 | only `on`/`off` in any case are accepted; they set the flag to true/false with one save; anything else, the empty argument included, earns the usage reply and changes nothing |
| Bot.MyLinesCommand | bot.py:122-145 | replies with the chat's lines and flag (missing flag as true), creates the record if missing and saves nothing |
| Bot.CommandEffect | bot.py:225-240 | exactly one reply to the sender; an unknown command earns one "unrecognized" reply and changes nothing; `/start`, `/ayuda`, `/help` and `/stats` change nothing |
| Bot.MessageEffect | bot.py:207-240 | no chat raises; an empty or missing text does nothing and sends nothing; with a chat, it raises exactly for a non-empty all-whitespace text; at most one reply |
| Bot.UpdateEffect | bot.py:252-262 | an update without an id or without a message changes nothing; otherwise the state moves on by the effect of its message; the store stays well formed |
| Bot.UpdatesEffect | bot.py:252-262 | a batch sends at most one reply per update |
| Bot.OffsetAfter | bot.py:252-255 | after a batch whose last update has an id the offset is that id + 1; when no update has an id it is unchanged |
| Bot.OffsetFromLastId | bot.py:252-262 | the offset after a batch is one past the id of the last update that has one, whatever follows without an id |
| Bot.UpdatesStep | bot.py:252-262 | handling one more update is applying its effect after the earlier ones |
| Bot.UpdatesAppend | bot.py:252-262 | handling a batch in two stretches is handling it in one |
| Bot.CommandFromText | bot.py:218-220 | a message is dispatched on its first token lowercased, with the rest as argument, so `/SUSCRIBIR 11` does what `/suscribir 11` does and a bare `/AYUDA` does what `/ayuda` does |
| Bot.AliasesAgree | bot.py:231-236 | `/mis_lineas` and `/mislineas`, `/alertas_generales` and `/alertasgenerales`, `/ayuda` and `/help` have the same effect |
| Bot.PoisonUpdateSkipped | bot.py:252-262 | an update without an id or without a message, or whose message raises, is skipped: the batch does exactly what it would do without it |
| Bot.TelegramBot.constructor | bot.py:12-21 | the bot starts with the given store, the stored offset or 0, and nothing sent or saved |
| Bot.TelegramBot.SendMessage | bot.py:54-67 | appends exactly one message to the outbox and changes nothing else |
| Bot.TelegramBot.HandleSubscribe | bot.py:98-108 | the store, the saves and the replies change exactly as `SubscribeCommand` says |
| Bot.TelegramBot.HandleUnsubscribe | bot.py:110-120 | the store, the saves and the replies change exactly as `UnsubscribeCommand` says |
| Bot.TelegramBot.HandleMyLines | bot.py:122-145 | the store, the saves and the replies change exactly as `MyLinesCommand` says |
| Bot.TelegramBot.HandleGeneralAlerts | bot.py:147-159 | the store, the saves and the replies change exactly as `GeneralCommand` says |
| Bot.TelegramBot.HandleStats | bot.py:190-205 | sends one report of exactly `StatsOf` of the store |
| Bot.TelegramBot.ProcessMessage | bot.py:207-240 | the whole bot state changes exactly as `MessageEffect` says; it reports raising exactly when that outcome raises, and then nothing changed |
| Bot.TelegramBot.ProcessUpdates | bot.py:242-266 | the state changes as `UpdatesEffect` says; the offset ends as `OffsetAfter` says, at the last `update_id` + 1 when the last update has one, also past updates whose message raised; a non-empty batch saves it exactly once; an empty batch changes and saves nothing |
| Migration.SubscribeAll | migrate_v1_to_v2.py:36-38 | subscribing to no lines changes nothing |
| Migration.SubscribeAllSpec | migrate_v1_to_v2.py:36-38 | subscribing to each line changes only that chat's record, which afterwards holds every one of the lines and the lines it held before, with its flag unchanged |
| Migration.SetGeneralIdle | subscriptions.py:65-69 | setting the flag to the value it already has changes nothing |
| Migration.SubscribeAllHeld | subscriptions.py:45-49 | subscribing to lines the record already holds changes nothing |
| Migration.Migrated | migrate_v1_to_v2.py:11-41 | without a configured chat id (missing or empty) the store is unchanged |
| Migration.MigratedSpec | migrate_v1_to_v2.py:31-41 | with a chat id, only that chat's record changes; it holds "11" and "44" besides its earlier lines and takes general alerts |
| Migration.MigrationSettled | migrate_v1_to_v2.py:34-41 | a record already holding both lines with general alerts on is left as it is |
| Migration.MigrationIdempotent | migrate_v1_to_v2.py:36-41 | migrating twice gives the same store as migrating once |
| Migration.SubscribeEach | migrate_v1_to_v2.py:36-38 | the loop leaves the store as `SubscribeAll` of the lines |
| Migration.MigrateToSubscriptions | migrate_v1_to_v2.py:11-41 | the store becomes exactly `Migrated` of the old one; without a chat id nothing is saved, otherwise the last save is the final store |

## Left out
- HTTP: `requests.get` and `requests.post` in `get_updates`, `send_message`, `scrape_tmp_alerts` and the delivery loop. The page, the updates and the transport's answers are parameters. `send_message`'s own return value is not modelled, since no caller uses it.
- HTML parsing with BeautifulSoup. The model starts from the `(href, stripped text)` pairs of the page's anchors.
- JSON and file persistence: the file formats, `ensure_ascii` and indentation, and exceptions raised while writing. Loaded values are parameters. A missing subscriptions or history file, or one that is not valid JSON, is `None` and yields the empty default. Saves are recorded as snapshots or effects.
- A subscriptions or history file that exists but cannot be read, or is not valid UTF-8, raises and stops the program in the source, because only `JSONDecodeError` is caught (subscriptions.py:19-24, scraper.py:23-28). The model has no such outcome: loading either gives a value or `None`.
- `datetime.now`, `os.environ`, every `print`, and the wording and emoji of every message. Replies are modelled by what they say, not by their text.
- The bot constructor's check for a missing token and its `sys.exit(1)`. The bot is built from an already loaded store and offset.
- The process exit of `main`. It becomes the `ExitCode` of the run's result, and the model does not end the process.
- The first loop of `get_monitored_alerts`, which only counts alerts for the printed summary.
- Scraper.ScrapedAlerts: `ScrapedMembers` proves which alerts are present but not their order. The order is pinned down only by the loop's equality with `ScrapedAlerts`.
- Unicode case folding and Unicode digits. Lowercasing covers ASCII letters only. The case-insensitive keyword covers ASCII letters and `í`/`Í`. `\d` covers ASCII digits, which is also all a line number ever holds.
- handle_start and handle_help are modelled as fixed replies (`Welcome(first name)`, `Help`). handle_stats and handle_my_lines carry their figures instead of rendered text.
- Subscriptions.UserData: `lines` is always present. The source's readers use `.get("lines", [])` and so tolerate a loaded record without it (subscriptions.py:91, 104, 115). Its writers index `user["lines"]` and raise `KeyError` on such a record (subscriptions.py:45-46, 54-55, 63). The model has neither behaviour. Only the general-alerts flag may be missing (`Option<bool>`).
- The migration script builds its own `SubscriptionManager` from the file. The model takes the manager as a parameter. The top-level try/except and `sys.exit(1)` around it are left out.
