# Resale-chat moderation bot: verified model of its core

This project models the logic of a Telegram bot that moderates a resale chat. Four parts are modelled:

- **Post cooldown ledger** (`Cooldowns`, from cooldown_manager.py). It stores:
  - the last post time per user and per category (`buy`/`sell`);
  - retry counters;
  - per-user window overrides.

  It also models the parser for durations such as `30m` and the formatter for remaining time.
- **XP ledger** (`XpStore`, from database.py). Users are a map and the history is an append-only sequence. The rules are:
  - a 60-second cooldown between grants;
  - a daily cap of 100 XP that restarts when the date changes;
  - administrative grants that bypass the cap;
  - removals that never go below zero;
  - resets to the base rank;
  - the leaderboard query.
- **Rank and XP policy** (`XpRanks`, from xp_system.py). It covers:
  - rank lookup against the thresholds 0/50/150/300/600/1000;
  - the spam filter;
  - the one-XP grant per chat message, with promotion that never replaces a special rank;
  - profiles with the next rank;
  - the administrative adjustments.
- **Moderation rules** (`Moderation`, from bot.py). It covers:
  - price selection from the matches of the two price patterns;
  - the prioritised checks in the monitored resale thread;
  - the checks elsewhere in the chat;
  - the set of media groups already evaluated, which `cleanup_task` empties.

`Wrappers` holds `Option`. `Text` holds the string functions of the Python standard library that the rules rely on: `lower`, `strip`, substring search, `startswith` and decimal digits. In the bot, these modules are independent: bot.py uses neither the cooldown ledger nor the XP system.

Modelling choices:

- Time is passed in as parameters: `now` in whole seconds and `today` as a day number.
- The Telegram side is reduced to boolean inputs: whether the sender is an administrator and whether a deletion succeeds.
- The price regular expressions are replaced by their matches, given as inputs.

## Model

| member | source | states |
|---|---|---|
| Cooldowns.CooldownManager.constructor | cooldown_manager.py:13-31 | The default window is the one given; all three tables start empty. |
| Cooldowns.CooldownManager.Default | cooldown_manager.py:13-31 | Built without arguments, the default window is one hour (3600 s); all three tables start empty. |
| Cooldowns.CooldownManager.GetUserCooldownSeconds | cooldown_manager.py:93-108 | The window is the user's override for the category when one is set, else the default. |
| Cooldowns.CooldownManager.CheckCooldown | cooldown_manager.py:63-91 | No record for the user or category gives `(False, None)`. In cooldown iff elapsed < window, and then the remaining time is stamp + window − now > 0 (at most the window once now ≥ stamp). Otherwise `(False, None)`. |
| Cooldowns.CooldownManager.RecordSuccessfulPost | cooldown_manager.py:110-133 | Stamps the pair at now and drops only that pair's retry counter. The pair is in cooldown exactly during [now, now + window), with remaining now + window − t. Every other pair's status is unchanged. |
| Cooldowns.CooldownManager.GetAttempts | cooldown_manager.py:153-165 | 0 for an unseen pair, else the stored count. |
| Cooldowns.CooldownManager.RecordAttempt | cooldown_manager.py:135-151 | Returns the previous count + 1 and stores it; nothing else changes. |
| Cooldowns.CooldownManager.ResetAttempts | cooldown_manager.py:167-177 | Removes only that pair's counter; afterwards the count is 0. |
| Cooldowns.CooldownManager.ResetCooldown | cooldown_manager.py:199-226 | Result by category: <br>• unknown user: false; <br>• `all`: true iff the user had an entry, and the entry is removed; <br>• `buy`/`sell`: true iff that category was stored, and only it is removed; <br>• anything else: false with no change. <br>On success the cleared categories are out of cooldown at every time; other users are unchanged. |
| Cooldowns.CooldownManager.SetCustomCooldown | cooldown_manager.py:228-260 | Result by case: <br>• negative seconds: false with no change; <br>• `all`: sets both `buy` and `sell`; <br>• `buy`/`sell`: sets that one; <br>• unknown category: false, leaving an empty per-user entry. <br>On success the window now in force is the given length; other users' windows are unchanged. |
| Cooldowns.ParseTimeString | cooldown_manager.py:262-291 | Some iff the string is digits followed by one unit letter s/m/h/d in either case, with an optional final line feed. The value is the digits' value times 1/60/3600/86400, never negative. |
| Cooldowns.ParseTimeStringRoundTrip | cooldown_manager.py:262-291 | For every count n and unit letter u, the decimal spelling of n followed by u parses to n × the unit's seconds. |
| Cooldowns.Decompose | cooldown_manager.py:189-191 | Hours, minutes and seconds, with minutes and seconds in [0, 60), recombine to n; hours are non-negative for n ≥ 0. |
| Cooldowns.FormatRemainingTime | cooldown_manager.py:179-197 | The three display forms. With at least an hour, hours and minutes (seconds dropped). With at least a minute, minutes and seconds. Otherwise seconds alone. Singular and plural endings follow the counts. |
| XpStore.XPDatabase.constructor | database.py:11-13 | Users and history start empty. |
| XpStore.XPDatabase.GetUser | database.py:60-77 | Some iff the user is stored, and then it is the stored row. |
| XpStore.Registered | database.py:79-101 | The row after registration carries the new names and update time. A new user starts with xp 0, the base rank, no last grant and daily counter 0 dated today. A known user keeps every other field. |
| XpStore.XPDatabase.CreateOrUpdateUser | database.py:79-101 | Always true. Only `u`'s row changes, and it becomes the registered row. |
| XpStore.XPDatabase.CanGainXp | database.py:103-125 | True for an unknown user. Otherwise true iff the last grant is not within 60 s and the counter dated today is below 100. When true, a one-XP ordinary grant is granted in full. |
| XpStore.Grantable | database.py:135-147 | An administrator's amount is granted in full. Any amount within what is left of today's cap is granted in full. An ordinary request over the cap is clamped to max(0, 100 − earned today), e.g. 10 of 20 with 90 earned. A positive ordinary grant never exceeds the cap. Nothing is left once the cap is reached. A counter dated another day counts as 0. |
| XpStore.XPDatabase.AddXp | database.py:127-171 | True iff the user exists and the granted amount is positive; otherwise nothing changes. On success: xp grows by exactly the granted amount, the counter is dated today, the last grant is now, and one history entry is appended. An ordinary grant leaves the daily counter ≤ 100; an administrator's grant adds the full amount. |
| XpStore.DailyCapHolds | database.py:135-150 | Any sequence of ordinary grant requests on one day keeps a user who starts within the cap within it. |
| XpStore.XPDatabase.RemoveXp | database.py:173-202 | True iff the user exists. xp becomes max(0, xp − amount), never negative. The history records −amount even when clamped. Nothing changes for an unknown user. |
| XpStore.XPDatabase.SetRank | database.py:204-226 | Always true and always logs one entry. The rank is replaced only when the user exists. |
| XpStore.XPDatabase.ResetXp | database.py:228-250 | Always true and always logs one entry. A known user gets xp 0, the base rank and daily counter 0; the counter's date and the last grant time are kept. |
| XpStore.XPDatabase.GetTopUsers | database.py:252-269 | Returns min(limit, #users) rows, or all rows for a negative limit. Each row is a faithful summary of a distinct stored user. Rows are in non-increasing XP order, and no user left out has more XP than any listed one. |
| XpStore.HighestXpExists | database.py:256-260 | Every non-empty set of stored users has a member with the most XP. |
| XpRanks.CalculateRankFromXp | xp_system.py:49-54 | The name paired with the largest threshold ≤ xp, and the base rank for negative xp. Never a special rank. |
| XpRanks.ReachedAmongFirst | xp_system.py:51-53 | The downward scan stops at the largest reached threshold: every threshold above it is greater than xp. |
| XpRanks.CalculateRankMonotone | xp_system.py:14-24 | More XP never gives a lower rank in the threshold order. |
| XpRanks.NextRankAfter | xp_system.py:120-129 | None iff xp ≥ 1000. Otherwise the first threshold strictly above xp, with xp_needed = threshold − xp > 0. |
| XpRanks.NextRankIsOneUp | xp_system.py:120-129 | For 0 ≤ xp < 1000, the next rank is the one right after the current rank, and its threshold has exactly that rank. |
| XpRanks.IsSpamMessage | xp_system.py:35-47 | True iff the text is empty or, once stripped and lowered, has at most two characters, is made only of `+`/`-`, or is one of ок/ok/да/не/нет. |
| XpRanks.SpamIffShapes | xp_system.py:26-33 | On a stripped text, the five anchored patterns together match exactly those shapes. |
| XpRanks.GetAvailableRanks | xp_system.py:255-258 | The six threshold ranks in ascending order, then the two special ranks; all distinct. Every computed rank is among the first six. |
| XpRanks.GetRankEmoji | xp_system.py:237-249 | `❓` iff the name is not one of the eight available ranks; each available rank gets its own badge, in list order 🌱 👤 ⭐ 👑 🏆 💎 💰 🔥. |
| XpRanks.XPSystem.constructor | xp_system.py:10-11 | The ledger is fresh, with no users and an empty history. |
| XpRanks.Settled | xp_system.py:83-89 | The rank check changes only the rank (and the update time): a special rank stays, an ordinary one becomes the rank of the XP. XP, names, grant time and daily counter are kept. |
| XpRanks.RankLog | database.py:214-218 | The rank check writes exactly one audit entry, with no XP change and the acting administrator, iff an ordinary rank moves; otherwise none. |
| XpRanks.XPSystem.ProcessMessageXp | xp_system.py:56-106 | The user is always registered, and no other user changes. A result is returned iff the message is not spam and a grant was allowed before the message. With no result, the history is unchanged. With a result: the final row is the registered row with one XP granted now and counted against today (daily counter = earned today + 1, within the cap of 100), then rank-settled; the history gains the one-XP message entry and, when the rank moved, the rank entry. A special rank stays; an ordinary one becomes the rank of the new XP. The result is a promotion iff the rank changed, reporting old and new rank. |
| XpRanks.XPSystem.GrantForMessage | xp_system.py:63-102 | For a registered user, the same exact new row (`GrantedOnce`), the same history entries and the same condition for a result. |
| XpRanks.XPSystem.SettleRank | xp_system.py:83-102 | The new row is exactly the rank-settled row (`Settled`), and the history gains exactly the rank entry when the rank moved (`RankLog`). A result that is not a promotion reports the stored rank, and a special rank is always reported unchanged. The result is a promotion, with old and new rank, iff an ordinary rank changed. |
| XpRanks.XPSystem.GetUserProfile | xp_system.py:108-143 | Some iff the user is stored, with the stored id, names, XP and daily counter. Administrators display the administrator rank. The next rank is the first threshold above the XP (`NextRankAfter`) for an ordinary non-admin user, else absent; it is absent iff admin, special rank or xp ≥ 1000, and when present xp_needed > 0 and xp + xp_needed = threshold. |
| XpRanks.XPSystem.AddXpAdmin | xp_system.py:145-168 | True iff the user exists and the amount is positive. Then the row is the granted row, rank-settled: xp grows by the full amount, the last grant time becomes now and today's counter grows by the amount (so chat XP is blocked for 60 s and the daily cap can be used up). The history gains the grant entry and, when the rank moved, the rank entry. A special rank is kept; otherwise the rank becomes the rank of the new XP. Other users are unchanged. |
| XpRanks.XPSystem.RemoveXpAdminAsWritten | xp_system.py:170-195 | As written: always false and nothing changes (see Findings). |
| XpRanks.XPSystem.RemoveXpAdmin | xp_system.py:178-189 | As intended: true iff the user exists. The row becomes the stored row with xp max(0, xp − amount), rank-settled; nothing else changes. The history gains the difference entry and, when the rank moved, the rank entry. Other users are unchanged. |
| XpRanks.XPSystem.SetXpAdminAsWritten | xp_system.py:197-215 | As written: always false and nothing changes (see Findings). |
| XpRanks.XPSystem.SetXpAdmin | xp_system.py:197-215 | As intended: true iff the user exists. The row becomes the stored row with xp = amount, rank-settled; nothing else changes. The history gains the difference entry and, when the rank moved, the rank entry. Other users are unchanged. |
| XpRanks.XPSystem.ResetXpAdminAsWritten | xp_system.py:217-219 | As written: always false (it delegates to the failing setter). |
| XpRanks.XPSystem.ResetXpAdmin | xp_system.py:217-219 | As intended: true iff the user exists. The row becomes the stored row with xp 0, rank-settled, so an ordinary rank returns to the base rank. The history gains the difference entry and, when the rank moved, the rank entry. Other users are unchanged. |
| XpRanks.XPSystem.SetRankAdmin | xp_system.py:221-227 | Always true. A known user gets the rank, special ones included; an unknown user changes nothing. The old log is kept and gains exactly the entry "Ранг изменен на: <rank>" with no XP change and the acting administrator. |
| XpRanks.XPSystem.GetLeaderboard | xp_system.py:229-235 | As written: always the empty list, since the ledger has no such query. |
| Moderation.Scaled | bot.py:51-52 | Units k/к/тис (in any case) multiply by 1000; any other unit, or none, leaves the number as is. |
| Moderation.MaxScaledIsMaximum | bot.py:60-68 | The running maximum is ≥ 0 and ≥ every scaled match, and it is either 0 or one of the matches. |
| Moderation.PriceSelection | bot.py:42-76 | A labelled match wins whatever its value, 0 included. Without one: no price iff no match is > 0, and otherwise the largest scaled match, which is > 0. |
| Moderation.ExtractPrice | bot.py:42-76 | The loop over the fallback matches computes exactly the selected price. |
| Moderation.MessageText | bot.py:190 | Text if non-empty, else caption, else the empty string. |
| Moderation.InThreadViolation | bot.py:256-279 | The price reason iff the text contains `#продам` and the price is missing or < 3000. MissingHashtag iff the text is non-empty and has neither hashtag. The content reason iff the text has no `#продам`, is empty or has `#куплю`, and the message is a sticker or a textless animation, video or photo. Never the length reason. |
| Moderation.OutOfThreadViolation | bot.py:294-346 | Stickers, animations, videos, textless photos and empty texts never violate. Too long iff the text has over 500 characters. The price reason iff the text starts with `#продам`, has at most 500 characters and its price is missing or < 3000. |
| Moderation.Act | bot.py:281-289 | A deletion is attempted iff there is a reason. A warning is sent iff there is a reason and the deletion succeeded, and then it is for that reason. |
| Moderation.Decide | bot.py:185-292 | Commands (`/`) and administrators' messages are never acted on. A warning implies a successful deletion. Outside the thread or without an album, the evaluated set is unchanged. In the thread: a message of an album already evaluated is only deleted, without a warning; any other message, with or without an album, gets the thread checks' action, and its album, if any, is recorded. Elsewhere the out-of-thread checks decide. |
| Moderation.AlbumJudgedOnce | bot.py:244-254 | Over a new album posted in the thread, with no cleanup between its messages, the first message is judged like any other, every later one is only deleted, and the album is recorded once. |
| Moderation.AlbumWarnsAtMostOnce | bot.py:244-289 | An album whose messages arrive with no cleanup between them draws at most one warning, and none when its first message passes. |
| Moderation.AlbumSplitByCleanup | bot.py:244-279 | The cleanup forgets every album, so an album split by it is judged twice: a photo captioned "hello" draws the hashtag warning, and after the cleanup a captionless photo of the same album draws the content warning. |
| Moderation.Moderator.constructor | bot.py:39-40 | The monitored thread is the one given; no album has been evaluated. |
| Moderation.Moderator.HandleMessage | bot.py:185-292 | The outcome and the new evaluated-album set are those of `Decide` on the old state. |
| Moderation.Moderator.Cleanup | bot.py:378-388 | The evaluated-album set becomes empty. |

## Left out

- Persistence: the SQLite schema and connections, and the JSON file the cooldown ledger loads and saves. The tables are in-memory maps and sequences, and a save is a no-op.
- Telegram transport: sending, deleting and answering messages, administrator lookup, the bot's permission check, polling and start-up. "Is the sender an administrator" and "did the deletion succeed" are inputs.
- Asynchronous timing: the 5-second self-deleting warnings, the 60-second sleep of `cleanup_task` and the interleaving of concurrent handlers. Only the clearing of the evaluated-album set is modelled.
- The HTTP health-check server in bot.py, and healthcheck.py. Both are network and process I/O.
- Clocks: `time.time()` and `datetime.now()` become the integer parameters `now` (seconds) and `today` (a day number). Sub-second timestamps are not modelled: `int(window − elapsed)` equals the exact difference here.
- The regular-expression engine of the price patterns. Their matches are inputs (`PriceScan`), so which substrings they capture is not modelled.
- Number parsing and IEEE floating point: prices are `real`, so float rounding of the `float(...)` conversion and of the ×1000 scaling is not modelled.
- `Text.Lower`: only ASCII, the Cyrillic capitals and Ґ are lowered. Other scripts' case mappings are not modelled, and neither is `re.IGNORECASE` on characters outside them.
- `Text.IsDigit`: only ASCII digits count. Python's `\d` and `isdigit` also accept other Unicode decimal digits.
- The `/resale_topic` command that sets the monitored thread, and the notification and rules commands. The monitored thread is a constructor argument of `Moderator`.
- `format_xp_number`, logging and the exact wording of user-facing messages. Warnings are represented by their reason.
- Exceptions raised by the database driver or the network, which the source turns into False, None or []. The exceptions that follow from calls to missing ledger operations are modelled (see Findings).
- XpStore.XPDatabase.SetXp: database.py defines no `set_xp`. It is a stand-in absolute setter, added here (store the value, log the difference), used only by the corrected administrative commands.
- XpRanks.XPSystem.GetLeaderboard: database.py defines no `get_leaderboard`, so no leaderboard behaviour is invented. The as-written result is always empty; `XpStore.XPDatabase.GetTopUsers` models the existing ranking query.
- XpStore.XPDatabase.GetTopUsers: among users with equal XP, SQLite's order is unspecified, and the model picks any of them.

## Findings

| source | as written | input that shows it | evidently intended | confidence | as-written member | corrected member |
|---|---|---|---|---|---|---|
| xp_system.py:181 | `remove_xp_admin` calls `self.db.set_xp`, which `XPDatabase` does not define; the AttributeError is caught and the command returns False | any stored user, e.g. xp 120 and amount 20 | xp becomes max(0, xp − amount) and the rank is recomputed unless special | high, not executed | XpRanks.XPSystem.RemoveXpAdminAsWritten | XpRanks.XPSystem.RemoveXpAdmin |
| xp_system.py:200 | `set_xp_admin` calls the missing `self.db.set_xp` first, so it returns False for every user, and `reset_xp_admin` with it | any stored user, e.g. amount 0 | xp becomes the amount and the rank follows it unless special | high, not executed | XpRanks.XPSystem.SetXpAdminAsWritten | XpRanks.XPSystem.SetXpAdmin |
