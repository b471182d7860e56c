/** The read-only handlers of quest_journal.py: SELECTs over the two tables,
    answering "not found" when the lookup or the filter yields no row. */
module Queries {
  import opened Basics
  import opened Tables
  import opened Records
  import opened Ordering

  /** The quest table: every row sits under its own quest_ID. */
  ghost predicate ValidQuests(t: map<int, Quest>)
  {
    KeyedBy(t, QuestKey)
  }

  /** The journal entry table: every row sits under its own entry_ID. */
  ghost predicate ValidEntries(t: map<int, Entry>)
  {
    KeyedBy(t, EntryKey)
  }

  /** q is a row of the quest table. */
  predicate QuestStored(t: map<int, Quest>, q: Quest)
  {
    q.questId in t && t[q.questId] == q
  }

  /** e is a row of the journal entry table. */
  predicate EntryStored(t: map<int, Entry>, e: Entry)
  {
    e.entryId in t && t[e.entryId] == e
  }

  // ---------------------------------------------------------------- quests

  /** GET /quests/: every quest, each once; "not found" on an empty table. */
  function GetAllQuests(t: map<int, Quest>): (r: Reply<seq<Quest>>)
    requires ValidQuests(t)
    ensures r.NotFound? <==> t == map[]
    ensures r.NotFound? ==> r.detail == "No quests were found."
    ensures r.Ok? ==> forall q :: multiset(r.value)[q] == if QuestStored(t, q) then 1 else 0
  {
    var rows := Select(t, (q: Quest) => true);
    SelectCount(t, QuestKey, (q: Quest) => true);
    assert forall k :: k in t ==> t[k] in multiset(rows) by {
      forall k | k in t ensures t[k] in multiset(rows) {
        assert multiset(rows)[t[k]] == 1;
      }
    }
    if |rows| == 0 then
      assert t.Keys == {};
      NotFound("No quests were found.")
    else
      assert rows[0] in multiset(rows);
      Ok(rows)
  }

  /** GET /quests/{quest_ID}: the row stored under id. */
  function GetQuest(t: map<int, Quest>, id: int): (r: Reply<Quest>)
    ensures r.Ok? <==> id in t
    ensures r.Ok? ==> r.value == t[id]
    ensures r.NotFound? ==> r.detail == "Quest ID not found."
  {
    if id in t then Ok(t[id]) else NotFound("Quest ID not found.")
  }

  /** GET /quests/progress/{campaign_ID}: the quests of one campaign, each once,
      in no promised order; "not found" when no quest belongs to it. */
  function GetCampaignQuests(t: map<int, Quest>, campaign: int): (r: Reply<seq<Quest>>)
    requires ValidQuests(t)
    ensures r.NotFound? <==> forall k :: k in t ==> t[k].campaignId != Some(campaign)
    ensures r.NotFound? ==> r.detail == "No quests found for the given campaign ID."
    ensures r.Ok? ==> forall q :: multiset(r.value)[q] ==
                                 if QuestStored(t, q) && q.campaignId == Some(campaign) then 1 else 0
  {
    var inCampaign := (q: Quest) => q.campaignId == Some(campaign);
    var rows := Select(t, inCampaign);
    SelectCount(t, QuestKey, inCampaign);
    if |rows| == 0 then
      assert forall k :: k in t ==> t[k].campaignId != Some(campaign) by {
        forall k | k in t ensures t[k].campaignId != Some(campaign) {
          assert multiset(rows)[t[k]] == 0;
        }
      }
      NotFound("No quests found for the given campaign ID.")
    else
      assert rows[0] in multiset(rows);
      Ok(rows)
  }

  // ---------------------------------------------------------------- journal

  /** GET /journal/entries/: every entry, each once; "not found" on an empty table. */
  function GetAllEntries(t: map<int, Entry>): (r: Reply<seq<Entry>>)
    requires ValidEntries(t)
    ensures r.NotFound? <==> t == map[]
    ensures r.NotFound? ==> r.detail == "No entries were found."
    ensures r.Ok? ==> forall e :: multiset(r.value)[e] == if EntryStored(t, e) then 1 else 0
  {
    var rows := Select(t, (e: Entry) => true);
    SelectCount(t, EntryKey, (e: Entry) => true);
    assert forall k :: k in t ==> t[k] in multiset(rows) by {
      forall k | k in t ensures t[k] in multiset(rows) {
        assert multiset(rows)[t[k]] == 1;
      }
    }
    if |rows| == 0 then
      assert t.Keys == {};
      NotFound("No entries were found.")
    else
      assert rows[0] in multiset(rows);
      Ok(rows)
  }

  /** GET /journal/{entry_ID}: the row stored under id. */
  function GetEntry(t: map<int, Entry>, id: int): (r: Reply<Entry>)
    ensures r.Ok? <==> id in t
    ensures r.Ok? ==> r.value == t[id]
    ensures r.NotFound? ==> r.detail == "Journal Entry ID not found."
  {
    if id in t then Ok(t[id]) else NotFound("Journal Entry ID not found.")
  }

  /** SELECT entries WHERE p ORDER BY entry_date, or "not found" with the given
      detail when no entry satisfies p. */
  function DatedJournal(t: map<int, Entry>, p: Entry -> bool, detail: string): (r: Reply<seq<Entry>>)
    requires ValidEntries(t)
    ensures r.NotFound? <==> forall k :: k in t ==> !p(t[k])
    ensures r.NotFound? ==> r.detail == detail
    ensures r.Ok? ==> SortedByDate(r.value)
    ensures r.Ok? ==> forall e :: multiset(r.value)[e] == if EntryStored(t, e) && p(e) then 1 else 0
  {
    var selected := Select(t, p);
    SelectCount(t, EntryKey, p);
    var rows := SortByDate(selected);
    assert |rows| == |selected| by {
      assert |multiset(rows)| == |multiset(selected)|;
    }
    if |rows| == 0 then
      assert forall k :: k in t ==> !p(t[k]) by {
        forall k | k in t ensures !p(t[k]) {
          assert multiset(selected)[t[k]] == 0;
        }
      }
      NotFound(detail)
    else
      assert selected[0] in multiset(selected);
      Ok(rows)
  }

  /** GET /journal/entries/{character_ID}: one character's entries, each once,
      in non-decreasing entry_date order; "not found" when the character has none. */
  function GetCharacterJournal(t: map<int, Entry>, character: int): (r: Reply<seq<Entry>>)
    requires ValidEntries(t)
    ensures r.NotFound? <==> forall k :: k in t ==> t[k].characterId != Some(character)
    ensures r.NotFound? ==> r.detail == "No journal entries found for that character."
    ensures r.Ok? ==> SortedByDate(r.value)
    ensures r.Ok? ==> forall e :: multiset(r.value)[e] ==
                                 if EntryStored(t, e) && e.characterId == Some(character) then 1 else 0
  {
    DatedJournal(t, (e: Entry) => e.characterId == Some(character),
                 "No journal entries found for that character.")
  }

  /** GET /campaign/journal/{campaign_ID}: one campaign's entries, each once,
      in non-decreasing entry_date order; "not found" when the campaign has none. */
  function GetCampaignJournal(t: map<int, Entry>, campaign: int): (r: Reply<seq<Entry>>)
    requires ValidEntries(t)
    ensures r.NotFound? <==> forall k :: k in t ==> t[k].campaignId != Some(campaign)
    ensures r.NotFound? ==> r.detail == "No journal entries found for that campaign."
    ensures r.Ok? ==> SortedByDate(r.value)
    ensures r.Ok? ==> forall e :: multiset(r.value)[e] ==
                                 if EntryStored(t, e) && e.campaignId == Some(campaign) then 1 else 0
  {
    DatedJournal(t, (e: Entry) => e.campaignId == Some(campaign),
                 "No journal entries found for that campaign.")
  }
}
