/** The state-changing handlers of quest_journal.py. The SQLite database is a
    Database object holding the quest table and the journal entry table as maps
    from primary key to row; each handler changes one of them and leaves the
    other alone. */
module QuestJournal {
  import opened Basics
  import opened Dates
  import opened Tables
  import opened Records
  import opened Queries

  class Database {
    var quests: map<int, Quest>
    var entries: map<int, Entry>

    /** Every row sits under its own primary key. */
    ghost predicate Valid()
      reads this
    {
      ValidQuests(quests) && ValidEntries(entries)
    }

    /** The tables as create_db_and_tables leaves a new database file: empty. */
    constructor ()
      ensures Valid()
      ensures quests == map[] && entries == map[]
    {
      quests := map[];
      entries := map[];
    }

    /** POST /quests/: stores a new quest under a key that was free (id), with
        status "Incomplete" when the payload has none. */
    method CreateQuest(draft: QuestDraft) returns (r: Reply<string>, ghost id: int)
      requires Valid()
      requires draft.questId.Some? ==> draft.questId.value !in quests
      modifies this
      ensures Valid()
      ensures id == AssignRowId(draft.questId, old(quests).Keys)
      ensures id !in old(quests)
      ensures quests == old(quests)[id := NewQuest(draft, id)]
      ensures GetQuest(quests, id) == Ok(NewQuest(draft, id))
      ensures entries == old(entries)
      ensures r == Ok("Quest created successfully.")
    {
      var key := AssignRowId(draft.questId, quests.Keys);
      quests := quests[key := NewQuest(draft, key)];
      id := key;
      r := Ok("Quest created successfully.");
    }

    /** DELETE /quests/{quest_ID}: removes exactly that row, or answers
        "not found" and changes nothing. */
    method DeleteQuest(id: int) returns (r: Reply<string>)
      requires Valid()
      modifies this
      ensures Valid()
      ensures id !in old(quests) ==> r == NotFound("Quest ID not found.") && quests == old(quests)
      ensures id in old(quests) ==> r == Ok("Quest deleted successfully.") && quests == old(quests) - {id}
      ensures GetQuest(quests, id).NotFound?
      ensures entries == old(entries)
    {
      match GetQuest(quests, id)
      case NotFound(detail) =>
        r := NotFound(detail);
      case Ok(_) =>
        quests := quests - {id};
        r := Ok("Quest deleted successfully.");
    }

    /** PATCH /quests/{quest_ID}: merges the fields the client set into that row,
        or answers "not found" and changes nothing. */
    method UpdateQuest(id: int, u: QuestUpdate) returns (r: Reply<string>)
      requires Valid()
      modifies this
      ensures Valid()
      ensures id !in old(quests) ==> r == NotFound("Quest ID not found.") && quests == old(quests)
      ensures id in old(quests) ==> r == Ok("Quest updated successfully.")
      ensures id in old(quests) ==> quests == QuestsPatched(old(quests), id, u)
      ensures u == NoQuestChange ==> quests == old(quests)
      ensures entries == old(entries)
    {
      match GetQuest(quests, id)
      case NotFound(detail) =>
        r := NotFound(detail);
      case Ok(row) =>
        QuestUpdateEmpty(row);
        quests := quests[id := ApplyQuestUpdate(row, u)];
        r := Ok("Quest updated successfully.");
    }

    /** POST /journal/entries/: stores a new entry under a key that was free (id),
        dated today when the payload has no date. */
    method CreateEntry(draft: EntryDraft, today: Date) returns (r: Reply<string>, ghost id: int)
      requires Valid()
      requires draft.entryId.Some? ==> draft.entryId.value !in entries
      modifies this
      ensures Valid()
      ensures id == AssignRowId(draft.entryId, old(entries).Keys)
      ensures id !in old(entries)
      ensures entries == old(entries)[id := NewEntry(draft, id, today)]
      ensures GetEntry(entries, id) == Ok(NewEntry(draft, id, today))
      ensures quests == old(quests)
      ensures r == Ok("Entry created successfully.")
    {
      var key := AssignRowId(draft.entryId, entries.Keys);
      entries := entries[key := NewEntry(draft, key, today)];
      id := key;
      r := Ok("Entry created successfully.");
    }

    /** DELETE /journal/entries/{entry_ID}: removes exactly that row, or answers
        "not found" and changes nothing. */
    method DeleteEntry(id: int) returns (r: Reply<string>)
      requires Valid()
      modifies this
      ensures Valid()
      ensures id !in old(entries) ==> r == NotFound("Entry ID not found.") && entries == old(entries)
      ensures id in old(entries) ==> r == Ok("Journal Entry deleted successfully.") && entries == old(entries) - {id}
      ensures GetEntry(entries, id).NotFound?
      ensures quests == old(quests)
    {
      if id !in entries {
        r := NotFound("Entry ID not found.");
      } else {
        entries := entries - {id};
        r := Ok("Journal Entry deleted successfully.");
      }
    }

    /** PATCH /journal/entries/{entry_ID}: merges the fields the client set into
        that row, or answers "not found" and changes nothing. */
    method UpdateEntry(id: int, u: EntryUpdate) returns (r: Reply<string>)
      requires Valid()
      modifies this
      ensures Valid()
      ensures id !in old(entries) ==> r == NotFound("Journal Entry ID not found.") && entries == old(entries)
      ensures id in old(entries) ==> r == Ok("Journal entry updated successfully.")
      ensures id in old(entries) ==> entries == EntriesPatched(old(entries), id, u)
      ensures u == NoEntryChange ==> entries == old(entries)
      ensures quests == old(quests)
    {
      match GetEntry(entries, id)
      case NotFound(detail) =>
        r := NotFound(detail);
      case Ok(row) =>
        EntryUpdateEmpty(row);
        entries := entries[id := ApplyEntryUpdate(row, u)];
        r := Ok("Journal entry updated successfully.");
    }
  }

  /** The quest table after a PATCH of row id with payload u. */
  function QuestsPatched(t: map<int, Quest>, id: int, u: QuestUpdate): (t': map<int, Quest>)
    requires id in t
    ensures t'.Keys == t.Keys
    ensures t'[id] == ApplyQuestUpdate(t[id], u)
    ensures forall k :: k in t && k != id ==> t'[k] == t[k]
    ensures ValidQuests(t) ==> ValidQuests(t')
  {
    t[id := ApplyQuestUpdate(t[id], u)]
  }

  /** The entry table after a PATCH of row id with payload u. */
  function EntriesPatched(t: map<int, Entry>, id: int, u: EntryUpdate): (t': map<int, Entry>)
    requires id in t
    ensures t'.Keys == t.Keys
    ensures t'[id] == ApplyEntryUpdate(t[id], u)
    ensures forall k :: k in t && k != id ==> t'[k] == t[k]
    ensures ValidEntries(t) ==> ValidEntries(t')
  {
    t[id := ApplyEntryUpdate(t[id], u)]
  }

  /** Repeating a quest PATCH leaves the table as the first one left it. */
  lemma QuestPatchTwice(t: map<int, Quest>, id: int, u: QuestUpdate)
    requires id in t
    ensures QuestsPatched(QuestsPatched(t, id, u), id, u) == QuestsPatched(t, id, u)
  {
    QuestUpdateIdempotent(t[id], u);
  }

  /** Repeating an entry PATCH leaves the table as the first one left it. */
  lemma EntryPatchTwice(t: map<int, Entry>, id: int, u: EntryUpdate)
    requires id in t
    ensures EntriesPatched(EntriesPatched(t, id, u), id, u) == EntriesPatched(t, id, u)
  {
    EntryUpdateIdempotent(t[id], u);
  }
}
