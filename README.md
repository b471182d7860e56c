# Quest Journal Tracker: the record stores, in Dafny

This project models the service in `quest_journal.py`. The service keeps two
independent tables behind CRUD handlers:

- quests: title, objectives, rewards, a free-text status and an optional campaign;
- journal entries: an optional character, a text, a date and an optional campaign.

The SQLite database is a `Database` object (module `QuestJournal`). It holds
each table as a map from primary key to row. The create, update and delete
handlers are methods on it. Each method changes one map and states the whole
new map in terms of the old one. The get, list and filter handlers are pure
functions over a map (module `Queries`). They answer either `Ok` or
`NotFound`, with the detail text the handler raises. The sample sessions of
the client scripts `quest_test.py` and `journal_test.py` are restated in
module `Scenarios` as statements proved from the contracts.

Modules:

- `Basics`: `Option`, the per-field PATCH value `Patch` (`Unset` or `Set(v)`),
  and the handler answer `Reply`.
- `Dates`: entry dates, ordered lexicographically by year, month and day.
- `Tables`: keys in ascending order, SQLite's choice of a new ROWID, and the
  rows a `SELECT ... WHERE` yields, with a proof that each matching row
  appears exactly once.
- `Records`: the row, create-body and update-body shapes, their defaults,
  and the partial-update merge.
- `Ordering`: `ORDER BY entry_date`, as an insertion sort proved to give a
  date-ordered permutation.
- `Queries`: the seven read-only handlers.
- `QuestJournal`: the `Database` class with the six state-changing handlers.
- `Scenarios`: the sample sessions of the two client scripts.

Two details of the code that the model keeps:

- The create handlers take the table model itself as the body
  (quest_journal.py:83, 146), so a client may supply its own primary key.
  The model allows this when the key is free.
- Each handler's not-found detail is kept verbatim. `delete_entry` says
  "Entry ID not found." while `get_entry` and `update_entry` say
  "Journal Entry ID not found.".

## Model

| member | source | states |
|---|---|---|
| Records.NewQuest | quest_journal.py:11-19 | a created quest row keeps the body's title, objectives, rewards and campaign, carries the key it is stored under, and has status "Incomplete" when the body has none, else the body's status |
| Records.NewEntry | quest_journal.py:34-42 | a created entry row keeps the body's character, text and campaign, carries its key, and is dated today when the body gives no date, else with the body's date |
| Records.ApplyQuestUpdate | quest_journal.py:22-27 | merging a quest PATCH body: every set field, including a campaign set to null, takes the body's value; every unset field and quest_ID keep the old value |
| Records.ApplyEntryUpdate | quest_journal.py:45-49 | merging an entry PATCH body: every set field, including a character or campaign set to null, takes the body's value; every unset field and entry_ID keep the old value |
| Records.QuestUpdateEmpty | quest_journal.py:124-125 | a quest PATCH that sets no field leaves the row as it was |
| Records.QuestUpdateIdempotent | quest_journal.py:124-125 | applying the same quest PATCH twice gives the row that applying it once gives |
| Records.EntryUpdateEmpty | quest_journal.py:187-188 | an entry PATCH that sets no field leaves the row as it was |
| Records.EntryUpdateIdempotent | quest_journal.py:187-188 | applying the same entry PATCH twice gives the row that applying it once gives |
| Tables.KeysAscending | quest_journal.py:95 | the rows of a table listed by key: every key exactly once, in strictly ascending order |
| Tables.NextRowId | quest_journal.py:19 | the key SQLite gives a row inserted without one is larger than every key in the table: one more than the largest, or 1 in an empty table |
| Tables.NextRowIdAfterRun | quest_journal.py:19 | in a table holding keys 1..n, the next key handed out is n + 1 |
| Tables.AssignRowId | quest_journal.py:83-85 | a created row is stored under a key not yet in the table: the client's own key when it supplied one, else the next ROWID |
| Tables.RowsOf | quest_journal.py:95 | the rows fetched for a list of keys, one per key and in the keys' order |
| Tables.Select | quest_journal.py:134 | a filtered select yields one row per key whose row satisfies the filter |
| Tables.SelectCount | quest_journal.py:134 | a filtered select over a table whose rows carry their own keys holds each stored row that satisfies the filter exactly once, and no other value |
| Tables.RowsOfCount | quest_journal.py:95 | rows fetched for distinct stored keys hold each of those rows exactly once |
| Ordering.InsertByDate | quest_journal.py:197 | inserting an entry into a date-ordered list keeps it date-ordered and adds just that entry |
| Ordering.SortByDate | quest_journal.py:197 | ordering by entry_date yields a permutation of the rows in non-decreasing date order |
| Queries.GetAllQuests | quest_journal.py:91-98 | answers "No quests were found." exactly when the quest table is empty, and otherwise every stored quest exactly once |
| Queries.GetQuest | quest_journal.py:101-106 | answers the row stored under the key exactly when the key is present, else "Quest ID not found." |
| Queries.GetCampaignQuests | quest_journal.py:132-137 | answers exactly the stored quests whose campaign_ID equals the argument, each once and in no promised order; "not found" exactly when there is none (a quest with no campaign never matches) |
| Queries.GetAllEntries | quest_journal.py:154-161 | answers "No entries were found." exactly when the entry table is empty, and otherwise every stored entry exactly once |
| Queries.GetEntry | quest_journal.py:163-169 | answers the row stored under the key exactly when the key is present, else "Journal Entry ID not found." |
| Queries.DatedJournal | quest_journal.py:197-200 | a filtered journal listing is a date-ordered list of exactly the matching entries, each once, or "not found" exactly when none match |
| Queries.GetCharacterJournal | quest_journal.py:195-200 | answers exactly the character's entries, each once, in non-decreasing entry_date order; "not found" exactly when the character has none |
| Queries.GetCampaignJournal | quest_journal.py:203-208 | answers exactly the campaign's entries, each once, in non-decreasing entry_date order; "not found" exactly when the campaign has none |
| QuestJournal.Database.constructor | quest_journal.py:59-60 | a new database has both tables empty |
| QuestJournal.Database.CreateQuest | quest_journal.py:81-88 | stores the new quest under a key that was not in the table, changes no other quest and no entry, and answers "Quest created successfully." |
| QuestJournal.Database.DeleteQuest | quest_journal.py:108-116 | for an absent key, answers "Quest ID not found." and changes nothing; otherwise removes exactly that key; either way a following get of the key is "not found" |
| QuestJournal.Database.UpdateQuest | quest_journal.py:118-129 | for an absent key, answers "Quest ID not found." and changes nothing; otherwise merges the body into that row only; an empty body changes nothing |
| QuestJournal.Database.CreateEntry | quest_journal.py:144-151 | stores the new entry under a key that was not in the table, dated today when the body gives no date, and changes nothing else |
| QuestJournal.Database.DeleteEntry | quest_journal.py:171-179 | for an absent key, answers "Entry ID not found." and changes nothing; otherwise removes exactly that key; a following get of the key is "not found" |
| QuestJournal.Database.UpdateEntry | quest_journal.py:181-192 | for an absent key, answers "Journal Entry ID not found." and changes nothing; otherwise merges the body into that row only; an empty body changes nothing |
| QuestJournal.QuestsPatched | quest_journal.py:121-127 | a quest PATCH merges the body into row id, keeps the table's keys and every other row, and keeps each row under its own quest_ID |
| QuestJournal.EntriesPatched | quest_journal.py:184-190 | an entry PATCH merges the body into row id, keeps the table's keys and every other row, and keeps each row under its own entry_ID |
| QuestJournal.QuestPatchTwice | quest_journal.py:119-129 | sending the same quest PATCH twice leaves the table as sending it once does |
| QuestJournal.EntryPatchTwice | quest_journal.py:182-192 | sending the same entry PATCH twice leaves the table as sending it once does |
| Scenarios.CreateSampleQuests | quest_test.py:59-62 | the script's three creates on a new database store its three quests under keys 1, 2 and 3 |
| Scenarios.DraftOfStores | journal_test.py:7-12 | an entry body that gives its date is stored with that date, whatever day it is |
| Scenarios.CreateSample | journal_test.py:32-35 | one create of the script adds exactly that entry under the next key |
| Scenarios.CreateSampleJournal | journal_test.py:47-52 | the script's four creates store its four entries under keys 1 to 4 |
| Scenarios.CharacterOneRows | journal_test.py:7-30 | of the script's entries, exactly the first and the fourth belong to character 1 |
| Scenarios.OrderedPair | journal_test.py:54-55 | a date-ordered listing of the 2010-10-01 and 2013-01-14 entries puts 2010-10-01 first |
| Scenarios.CharacterOneSelection | journal_test.py:54-55 | character 1's journal holds the 2010-10-01 and 2013-01-14 entries, once each, in date order |
| Scenarios.CharacterOneJournal | journal_test.py:54-55 | character 1's journal on the script's data is exactly [2010-10-01 entry, 2013-01-14 entry] |

The methods `Scenarios.QuestSession` and `Scenarios.JournalSession` restate
the rest of the two scripts as assertions. After the PATCH, quest 1 reads back with its
new rewards and status and its other fields unchanged. It is then listed
under campaign 1. After quest 3 is deleted, reading it is "not found".

## Left out

- HTTP routing, status codes, response models and JSON coercion by FastAPI
  and pydantic. A handler's result is `Ok` or `NotFound(detail)`, and the
  success body is reduced to its message text.
- The SQLite engine and the session lifecycle: add, commit, refresh and
  `check_same_thread`. The database is two in-memory maps, and a handler's
  change is atomic by construction.
- Aliasing of the row object that `session.get` returns. The update merges
  into a row value and stores it back in the map.
- `date.today()` is a clock read. The create-entry handler takes `today` as
  a parameter.
- A create whose body supplies a key that is already taken fails in the
  database with an integrity error. That code is not part of this model, so
  `CreateQuest` and `CreateEntry` require a supplied key to be free.
- A PATCH that sets title, objectives, rewards, status, entry_text or
  entry_date to null passes the handler. Those are NOT NULL columns, so the
  commit then fails inside the database. The update payload types cannot
  express that null.
- SQLite's 64-bit limit on keys, and its random choice of key once the
  largest key is in use. Keys are unbounded integers.
- Calendar validity of dates. It is checked when a body is parsed. Dates
  are compared as (year, month, day) triples, which orders ISO date text
  the same way.
- The row order of `select` without `ORDER BY`. The model lists rows in
  ascending key order, but no contract promises it. Among entries with the
  same date, the journal listings promise no order either.
- Concurrent requests and last-writer-wins between them. Each handler is
  modelled as running alone.
- The campaign journal listing of `journal_test.py` (line 58) is not
  restated as a scenario. `Queries.GetCampaignJournal`'s contract covers it.
