# telegram-week-bot, modelled in Dafny

The bot keeps a sign-up sheet for two weeks: the current week (`week.json`)
and the next week (`next_week.json`). Each week maps each of the seven Russian
weekday names to the names entered for that day, in the order they came. A
user sends `<name> <day>` to add an entry for the current week, or
`<name> <day>*` for the next week. `/list` and `/next` reply with the listing of
one week. On Mondays, `/list` first empties the current week.

The model covers the logic of `bot.py` that does not depend on Telegram:

- `text.dfy` (module `Text`): Python's whitespace test, `str.split()`,
  `str.strip()`, and the part of `lower()` / `upper()` the day names need.
- `days.dfy` (module `Days`): the `DAYS` table as a datatype `Day` with a
  fixed order, name lookup, and the upper-case headings.
- `messages.dfy` (module `Messages`): the parse and validation done by
  `handle_message`, as a pure function `ParseMessage` returning a `Command`
  (a rejection with its reason, or `Add(week, day, name)`), and the reply
  texts.
- `schedule.dfy` (module `Schedules`): one week as `map<Day, seq<string>>`.
  This module holds the default empty week and the append of one name.
- `listing.dfy` (module `Listings`): the listing text as a function, and the
  rendering loop of `list_all` / `list_next` as a method proved against it.
- `storage.dfy` (module `Storage`): a class `Store` whose two fields are the
  contents of the two files. Its methods are `handle_message`,
  `reset_week_if_needed`, `list_all` and `list_next`. The module ends with
  client methods that chain an add with a listing.

Three facts about `bot.py` shape the model:

- The bot stores names exactly as typed (bot.py:108). It does not capitalise them.
- Only a trailing `*` on the day token selects the next week (bot.py:97-99).
- Each week has its own file (bot.py:8-9).

## Model

| member | source | states |
|---|---|---|
| Text.IsSpace | bot.py:89-90 | the whitespace set of `str.strip()` and `str.split()`: the characters `str.isspace()` accepts |
| Text.Split | bot.py:90 | every token is non-empty and contains no whitespace |
| Text.SplitJoin | bot.py:90 | splitting words joined by single spaces gives back exactly those words |
| Text.SplitSeparated | bot.py:90 | a word followed by a run of whitespace of any kind and length is one token, followed by the tokens of the rest |
| Text.SplitTwoWords | bot.py:90-91 | two words with any whitespace around them and a non-empty run of any whitespace between them split into exactly those two tokens |
| Text.SplitStrip | bot.py:89-90 | stripping the text before splitting does not change the tokens |
| Text.TrimStart | bot.py:89 | the result is a suffix of the input, only whitespace was removed, and it does not start with whitespace |
| Text.TrimEnd | bot.py:89 | the result is a prefix of the input, only whitespace was removed, and it does not end with whitespace |
| Text.Strip | bot.py:89 | the stripped text is empty, or it neither starts nor ends with whitespace |
| Text.StripShape | bot.py:89 | the stripped text is the part of the message between a whitespace-only prefix and a whitespace-only suffix |
| Text.LowerChar | bot.py:96 | lower-casing never creates or removes a `*` |
| Text.UpperChar | bot.py:58 | `upper()` on one character: the inverse table of `LowerChar`; it never creates or removes a `*` |
| Text.Upper | bot.py:58 | `upper()` on a string, character by character through `UpperChar` |
| Text.Lower | bot.py:96 | lower-casing keeps the length, keeps every `*` where it is and creates no new one, leaves lower-case letters alone, and turns each upper-case letter of the tables into the lower-case letter whose upper-case form it is |
| Text.LowerUpper | bot.py:96 | lower-casing the upper-case form of a lower-case word gives the word back |
| Days.Name | bot.py:11-14 | the seven lower-case Russian day names of `DAYS` |
| Days.DaysComplete | bot.py:11-14 | `DAYS` has seven entries, lists every day and repeats none |
| Days.Index | bot.py:11-14 | each day has a position in `DAYS` |
| Days.NameInjective | bot.py:11-14 | no two days share a name |
| Days.Find | bot.py:103 | the day found carries the searched name; nothing is found exactly when no listed day has that name |
| Days.FromName | bot.py:103 | a string is accepted as a day exactly when it is one of the seven names |
| Days.NameIsLowerWord | bot.py:11-14 | each name is one lower-case token with no whitespace and no star |
| Days.HeadingIsUpper | bot.py:58 | the section heading of a day is the upper-case form of its name |
| Days.Heading | bot.py:58 | `day.upper()` of each day name, the heading of its section (also bot.py:63) |
| Days.HeadingLowers | bot.py:96 | a heading typed back is lower-cased to the day name |
| Days.Title | bot.py:110 | `day.title()` of a day name: the first letter upper-cased, the rest as in the name |
| Days.TitleLowers | bot.py:110 | lower-casing the capitalised name in a confirmation gives the day name back |
| Messages.SelectWeek | bot.py:97-101 | the next week is chosen exactly when the token ends in `*`; the remaining text plus the star (if any) is the token |
| Messages.ParseDayToken | bot.py:97-105 | a lower-cased token is accepted exactly when it is a day name, optionally followed by one star, and the result names that day and week |
| Messages.ParseMessage | bot.py:89-105 | format error exactly when there are not two tokens; unknown day exactly when two tokens and the second, lower-cased, is no day name with an optional star; otherwise the add names the first token and the day and week the second spells |
| Messages.ReplyText | bot.py:91-110 | only an accepted entry gets a reply starting with `Добавлено: `, and that reply quotes the name right after it; the two rejections get the other two texts |
| Messages.ParseDependsOnTokens | bot.py:89-90 | two texts with the same tokens give the same outcome |
| Messages.DayTokenUnique | bot.py:97-103 | a day token spells only one day and one week |
| Messages.WellFormedMessage | bot.py:89-103 | `<name><whitespace><token>` with any whitespace before, between (at least one character) and after, where the lower-cased token is a day name with an optional star, gives that add, whatever the token's letter case |
| Messages.DayTokenAccepted | bot.py:89-103 | a name followed by a day name, with or without the star, is an add for that day and week |
| Messages.DoubleStarRejected | bot.py:97-105 | a day name with two stars keeps one star after stripping and is rejected |
| Messages.LoneStarRejected | bot.py:97-105 | a lone `*` becomes the empty name and is rejected |
| Messages.ExampleCurrentWeek | bot.py:88-103 | `Иванов понедельник` adds `Иванов` to Monday of the current week |
| Messages.ExampleReply | bot.py:110 | the confirmation for that entry is `Добавлено: Иванов → Понедельник` |
| Messages.ExampleNextWeek | bot.py:96-103 | `Петров СРЕДА*` adds `Петров` to Wednesday of the next week |
| Messages.ExampleWhitespace | bot.py:89-103 | ` Иванов<tab><tab>понедельник<newline>` adds `Иванов` to Monday of the current week |
| Schedules.EmptyShape | bot.py:20 | the default week has exactly the seven day keys, each with no entries |
| Schedules.Empty | bot.py:20 | the default week (also the reset week of bot.py:29) has every day as a key, each with no entries |
| Schedules.Entries | bot.py:56 | `data.get(day, [])`: the stored list of a key, and no entries for a missing key (the same lookup is bot.py:75); `AppendEntries` and `SectionsFrame` state what it gives after an add and across weeks |
| Schedules.Append | bot.py:108 | same keys; the day's list grows by one, keeps its old entries in order and ends with the name; every other day is unchanged |
| Schedules.AppendComplete | bot.py:108 | adding keeps every day addressable |
| Schedules.AppendEntries | bot.py:108 | read with a missing-means-empty lookup, the day gains the name at the end and no other day changes |
| Listings.Render | bot.py:55-66 | the loop builds the title followed by one section per day in `DAYS` order (the same loop is `list_next`'s at bot.py:74-85) |
| Listings.AppendSection | bot.py:56-66 | one round of the loop appends exactly the section of that day, for any week whose entries for the day are the given names |
| Listings.Listing | bot.py:52-66 | the reply: the title, then the sections of all days in `DAYS` order (also the text of bot.py:71-85) |
| Listings.Section | bot.py:57-66 | one day: its upper-case heading line, then its entry lines or the `- (пусто)` placeholder, then a blank line |
| Listings.EntryLines | bot.py:58-61 | the entry lines are empty exactly when there are no names, and otherwise end with a newline |
| Listings.PlaceholderLooksEmpty | bot.py:58-66 | a day whose only entry is the name `(пусто)` renders exactly like a day with no entries |
| Listings.SectionsAppend | bot.py:55-66 | the sections for two runs of days are the two renderings one after the other |
| Listings.EntryLinesAppend | bot.py:58-61 | the entry lines for two runs of names are the two renderings one after the other |
| Listings.EntryLinesAt | bot.py:58-61 | each stored name has its own `- name` line, after the lines of earlier names and before those of later ones |
| Listings.ListingAt | bot.py:55-66 | each day's section sits between the sections of the days before and after it in `DAYS` |
| Listings.SectionsFrame | bot.py:55-66 | days with the same entries in two weeks render the same |
| Listings.ListingAfterAppend | bot.py:55-66 | after an add, that day's section is its heading, its old entry lines, then a `- name` line (a day that was empty loses its `- (пусто)` line); every other section is unchanged |
| Storage.ResetCurrent | bot.py:26-30 | on weekday 0 the current week becomes the default week; on any other weekday it stays as it was |
| Storage.Store.constructor | bot.py:16-20 | with no files, both weeks start as the default week |
| Storage.Store.Open | bot.py:16-19 | with both files present, the weeks are their contents |
| Storage.Store.Load | bot.py:107 | `load_data` on the file of the selected week: the current week's content or the next week's |
| Storage.Store.Save | bot.py:22-24 | saving one week replaces that week and leaves the other alone |
| Storage.Store.HandleMessage | bot.py:88-110 | the reply is the text for the parsed outcome; a rejection changes neither week; an add appends to the selected week only and leaves the other week unchanged |
| Storage.Store.ResetIfNeeded | bot.py:26-30 | the current week is reset by the weekday rule; the next week is never touched |
| Storage.Store.ListCurrent | bot.py:49-67 | after the reset rule, the reply is the listing of the current week |
| Storage.Store.ListNext | bot.py:69-86 | the reply is the listing of the next week |
| Storage.AddThenListCurrent | bot.py:107-110 | on a day other than Monday, an added name is confirmed and then appears in the current listing as the added entry |
| Storage.AddThenListNext | bot.py:97-99 | a starred entry appears in the next-week listing only; the current listing shows the current week after the reset rule, without the entry |
| Storage.MondayListShowsEmptyWeek | bot.py:50 | on Monday, `/list` shows every day empty, even right after an add |

## Left out

- Telegram plumbing is not modelled: the handlers, `reply_text` (replies are returned as strings), the keyboard, the `/start` and `/help` texts, handler registration and routing, the bot token and `print`. These are foreign library calls and asynchronous I/O.
- JSON storage is not modelled. Each file is a `Schedule` field, `load_data` reads the field and `save_data` writes it back. The crash on a malformed file is not modelled, and neither is how the JSON text is laid out.
- Keys that are not day names cannot be represented by `map<Day, seq<string>>`. The source keeps such keys in a file but never shows them.
- Storage.Store.Valid: the model requires every day key to be present in both weeks for `Open`, `HandleMessage`, `ResetIfNeeded` and `ListCurrent`. Every file the bot writes itself has all seven keys: the default and reset weeks of bot.py:20 and 29, and appends that keep the keys. A hand-edited file that lacks the target day makes `data[day]` at bot.py:108 raise `KeyError`, which is not modelled. Rendering a partial week is modelled: `Listings.Listing` takes any map, and `data.get` reads a missing day as empty.
- The clock is a parameter: the weekday is passed in instead of read from `datetime.now()`.
- Text.LowerChar: covers only ASCII and the Cyrillic block U+0400–U+045F; the rest of Python's Unicode case mapping is left out. Python maps no other character to a letter of the day names or to `*`, so this does not change which tokens are accepted as days.
- Days.Title: is `str.title()` only for the seven day names: it upper-cases their first letter.
- The read-modify-write race between concurrent messages is concurrency, and the source has no locking.
