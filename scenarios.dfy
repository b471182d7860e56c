/** The sample sessions of quest_test.py and journal_test.py, restated as
    statements proved about the model: the records they send and what the
    handlers must answer. */
module Scenarios {
  import opened Basics
  import opened Dates
  import opened Tables
  import opened Records
  import opened Ordering
  import opened Queries
  import opened QuestJournal

  const SaveTheCat: QuestDraft :=
    QuestDraft(None, "Save the cat!", "Rescue the cat from the tree.", "5 gold coins", Some("Incomplete"), Some(1))
  const FeedADog: QuestDraft :=
    QuestDraft(None, "Feed a dog.", "Give the dog some meat.", "3 gold coins", Some("Complete"), Some(1))
  const SlayTheDragon: QuestDraft :=
    QuestDraft(None, "Slay the Dragon!", "Kill the dragon.", "500 gold coins", Some("Incomplete"), Some(2))

  /** The PATCH body of test_update_quest. */
  const RewardRaise: QuestUpdate :=
    QuestUpdate(Unset, Unset, Set("500 gold coins"), Set("Complete"), Unset)

  /** The quest table after quest_test.py's three creates. */
  function SampleQuests(): (t: map<int, Quest>)
    ensures ValidQuests(t)
  {
    map[1 := NewQuest(SaveTheCat, 1), 2 := NewQuest(FeedADog, 2), 3 := NewQuest(SlayTheDragon, 3)]
  }

  /** quest_test.py's three creates on a new database get keys 1, 2 and 3. */
  method CreateSampleQuests() returns (db: Database)
    ensures fresh(db) && db.Valid() && db.quests == SampleQuests()
  {
    db := new Database();
    var r;
    ghost var id;
    r, id := db.CreateQuest(SaveTheCat);
    assert id == 1;
    r, id := db.CreateQuest(FeedADog);
    assert id == 2;
    r, id := db.CreateQuest(SlayTheDragon);
    assert id == 3;
  }

  /** quest_test.py after the creates: a PATCH of quest 1 and a read of it,
      the campaign 1 listing, then a delete of quest 3 and a read of it. */
  method QuestSession()
  {
    var db := CreateSampleQuests();
    var r := db.UpdateQuest(1, RewardRaise);
    assert r == Ok("Quest updated successfully.");
    var cat := Quest(1, "Save the cat!", "Rescue the cat from the tree.", "500 gold coins", "Complete", Some(1));
    assert db.quests[1] == cat;

    var progress := GetCampaignQuests(db.quests, 1);
    assert progress.Ok? by {
      assert db.quests[1].campaignId == Some(1);
    }
    assert cat in progress.value by {
      assert QuestStored(db.quests, cat);
    }

    r := db.DeleteQuest(3);
    assert r == Ok("Quest deleted successfully.");
    assert GetQuest(db.quests, 3) == NotFound("Quest ID not found.");
  }

  const Entry1: Entry := Entry(1, Some(1), "Sample Text 1", Date(2010, 10, 1), Some(1))
  const Entry2: Entry := Entry(2, Some(2), "Sample Text 2", Date(2009, 1, 30), Some(1))
  const Entry3: Entry := Entry(3, Some(3), "Sample Text 3", Date(2014, 11, 21), Some(3))
  const Entry4: Entry := Entry(4, Some(1), "Sample Text 4", Date(2013, 1, 14), Some(1))

  /** The entry table journal_test.py builds. */
  const SampleJournal: map<int, Entry> := map[1 := Entry1, 2 := Entry2, 3 := Entry3, 4 := Entry4]

  /** The create body that stores e when the table hands out e's key. */
  function DraftOf(e: Entry): EntryDraft
  {
    EntryDraft(None, e.characterId, e.text, Some(e.date), e.campaignId)
  }

  /** A body that gives its date is stored as given, whatever day it is. */
  lemma DraftOfStores(e: Entry, today: Date)
    ensures NewEntry(DraftOf(e), e.entryId, today) == e
  {
  }

  /** One create of journal_test.py: e's body, when the table hands out e's key. */
  method CreateSample(db: Database, e: Entry, today: Date)
    requires db.Valid() && e.entryId >= 1
    requires forall k :: k in db.entries <==> 1 <= k < e.entryId
    modifies db
    ensures db.Valid() && db.entries == old(db.entries)[e.entryId := e]
  {
    var r;
    ghost var id;
    NextRowIdAfterRun(db.entries.Keys, e.entryId - 1);
    r, id := db.CreateEntry(DraftOf(e), today);
    DraftOfStores(e, today);
  }

  /** journal_test.py's four creates, dates given, build SampleJournal
      whatever day it is. */
  method CreateSampleJournal(today: Date) returns (db: Database)
    ensures fresh(db) && db.Valid()
    ensures db.entries == map[1 := Entry1, 2 := Entry2, 3 := Entry3, 4 := Entry4]
  {
    db := new Database();
    CreateSample(db, Entry1, today);
    CreateSample(db, Entry2, today);
    CreateSample(db, Entry3, today);
    CreateSample(db, Entry4, today);
  }

  /** journal_test.py: after the creates, character 1's journal. */
  method JournalSession(today: Date)
  {
    var db := CreateSampleJournal(today);
    CharacterOneJournal(db.entries);
    assert GetCharacterJournal(db.entries, 1) == Ok([Entry1, Entry4]);
  }

  /** Of the sample rows, exactly Entry1 and Entry4 belong to character 1. */
  lemma CharacterOneRows(e: Entry)
    ensures EntryStored(SampleJournal, e) && e.characterId == Some(1) <==> e == Entry1 || e == Entry4
  {
    var t := SampleJournal;
    if EntryStored(t, e) {
      assert e.entryId in {1, 2, 3, 4};
    }
  }

  /** A date-ordered listing holding Entry1 and Entry4 once each is [Entry1, Entry4]. */
  lemma OrderedPair(s: seq<Entry>)
    requires SortedByDate(s)
    requires multiset(s) == multiset{Entry1, Entry4}
    ensures s == [Entry1, Entry4]
  {
    assert |s| == 2 by {
      assert |multiset(s)| == 2;
    }
    assert s[0] in multiset(s) && s[1] in multiset(s);
    assert NotAfter(s[0].date, s[1].date);
    assert s == [s[0], s[1]];
  }

  /** A journal whose character 1 rows are Entry1 and Entry4 lists them once each. */
  lemma CharacterOneSelection(t: map<int, Entry>, r: Reply<seq<Entry>>)
    requires ValidEntries(t) && 1 in t && t[1].characterId == Some(1)
    requires forall e :: EntryStored(t, e) && e.characterId == Some(1) <==> e == Entry1 || e == Entry4
    requires r == GetCharacterJournal(t, 1)
    ensures r.Ok? && SortedByDate(r.value)
    ensures multiset(r.value) == multiset{Entry1, Entry4}
  {
    var m := multiset(r.value);
    forall e ensures m[e] == multiset{Entry1, Entry4}[e] {
      assert m[e] == if EntryStored(t, e) && e.characterId == Some(1) then 1 else 0;
    }
  }

  /** Character 1's journal lists 2010-10-01 before 2013-01-14. */
  lemma CharacterOneJournal(t: map<int, Entry>)
    requires t == SampleJournal
    ensures GetCharacterJournal(t, 1) == Ok([Entry1, Entry4])
  {
    forall e ensures EntryStored(t, e) && e.characterId == Some(1) <==> e == Entry1 || e == Entry4 {
      CharacterOneRows(e);
    }
    var r := GetCharacterJournal(t, 1);
    CharacterOneSelection(t, r);
    OrderedPair(r.value);
  }
}
