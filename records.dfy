/** The Quest and Entry record shapes: the stored rows, the create payloads
    with their defaults, and the partial-update payloads with their merge. */
module Records {
  import opened Basics
  import opened Dates

  /** Status a quest gets when the create payload leaves it out. */
  const DefaultStatus: string := "Incomplete"

  /** A stored row of the quest table. */
  datatype Quest = Quest(
    questId: int,
    title: string,
    objectives: string,
    rewards: string,
    status: string,
    campaignId: Option<int>)

  /** The body of a create-quest request; None marks a field the client left out. */
  datatype QuestDraft = QuestDraft(
    questId: Option<int>,
    title: string,
    objectives: string,
    rewards: string,
    status: Option<string>,
    campaignId: Option<int>)

  /** The body of a PATCH on a quest. title, objectives, rewards and status are
      NOT NULL columns; campaignId may be set to null. */
  datatype QuestUpdate = QuestUpdate(
    title: Patch<string>,
    objectives: Patch<string>,
    rewards: Patch<string>,
    status: Patch<string>,
    campaignId: Patch<Option<int>>)

  const NoQuestChange: QuestUpdate := QuestUpdate(Unset, Unset, Unset, Unset, Unset)

  /** A stored row of the journal entry table. */
  datatype Entry = Entry(
    entryId: int,
    characterId: Option<int>,
    text: string,
    date: Date,
    campaignId: Option<int>)

  /** The body of a create-entry request; None marks a field the client left out. */
  datatype EntryDraft = EntryDraft(
    entryId: Option<int>,
    characterId: Option<int>,
    text: string,
    date: Option<Date>,
    campaignId: Option<int>)

  /** The body of a PATCH on a journal entry. entry_text and entry_date are
      NOT NULL columns; characterId and campaignId may be set to null. */
  datatype EntryUpdate = EntryUpdate(
    characterId: Patch<Option<int>>,
    text: Patch<string>,
    date: Patch<Date>,
    campaignId: Patch<Option<int>>)

  const NoEntryChange: EntryUpdate := EntryUpdate(Unset, Unset, Unset, Unset)

  function QuestKey(q: Quest): int { q.questId }

  function EntryKey(e: Entry): int { e.entryId }

  /** The row a create-quest request stores under primary key id. */
  function NewQuest(d: QuestDraft, id: int): (q: Quest)
    ensures q.questId == id
    ensures d.status.None? ==> q.status == "Incomplete"
    ensures d.status.Some? ==> q.status == d.status.value
    ensures q.title == d.title && q.objectives == d.objectives && q.rewards == d.rewards
    ensures q.campaignId == d.campaignId
  {
    Quest(id, d.title, d.objectives, d.rewards,
          match d.status case Some(s) => s case None => DefaultStatus,
          d.campaignId)
  }

  /** The row a create-entry request stores under primary key id, on day today. */
  function NewEntry(d: EntryDraft, id: int, today: Date): (e: Entry)
    ensures e.entryId == id
    ensures d.date.None? ==> e.date == today
    ensures d.date.Some? ==> e.date == d.date.value
    ensures e.characterId == d.characterId && e.text == d.text && e.campaignId == d.campaignId
  {
    Entry(id, d.characterId, d.text,
          match d.date case Some(day) => day case None => today,
          d.campaignId)
  }

  /** sqlmodel_update with the fields the client set: each set field takes the
      payload value, every other field and the primary key keep theirs. */
  function ApplyQuestUpdate(q: Quest, u: QuestUpdate): (r: Quest)
    ensures r.questId == q.questId
    ensures u.title.Set? ==> r.title == u.title.value
    ensures u.title.Unset? ==> r.title == q.title
    ensures u.objectives.Set? ==> r.objectives == u.objectives.value
    ensures u.objectives.Unset? ==> r.objectives == q.objectives
    ensures u.rewards.Set? ==> r.rewards == u.rewards.value
    ensures u.rewards.Unset? ==> r.rewards == q.rewards
    ensures u.status.Set? ==> r.status == u.status.value
    ensures u.status.Unset? ==> r.status == q.status
    ensures u.campaignId.Set? ==> r.campaignId == u.campaignId.value
    ensures u.campaignId.Unset? ==> r.campaignId == q.campaignId
  {
    q.(title := Merge(u.title, q.title),
       objectives := Merge(u.objectives, q.objectives),
       rewards := Merge(u.rewards, q.rewards),
       status := Merge(u.status, q.status),
       campaignId := Merge(u.campaignId, q.campaignId))
  }

  /** The same merge for a journal entry. */
  function ApplyEntryUpdate(e: Entry, u: EntryUpdate): (r: Entry)
    ensures r.entryId == e.entryId
    ensures u.characterId.Set? ==> r.characterId == u.characterId.value
    ensures u.characterId.Unset? ==> r.characterId == e.characterId
    ensures u.text.Set? ==> r.text == u.text.value
    ensures u.text.Unset? ==> r.text == e.text
    ensures u.date.Set? ==> r.date == u.date.value
    ensures u.date.Unset? ==> r.date == e.date
    ensures u.campaignId.Set? ==> r.campaignId == u.campaignId.value
    ensures u.campaignId.Unset? ==> r.campaignId == e.campaignId
  {
    e.(characterId := Merge(u.characterId, e.characterId),
       text := Merge(u.text, e.text),
       date := Merge(u.date, e.date),
       campaignId := Merge(u.campaignId, e.campaignId))
  }

  /** A PATCH whose body sets nothing changes nothing. */
  lemma QuestUpdateEmpty(q: Quest)
    ensures ApplyQuestUpdate(q, NoQuestChange) == q
  {
  }

  /** Sending the same PATCH twice has the effect of sending it once. */
  lemma QuestUpdateIdempotent(q: Quest, u: QuestUpdate)
    ensures ApplyQuestUpdate(ApplyQuestUpdate(q, u), u) == ApplyQuestUpdate(q, u)
  {
  }

  lemma EntryUpdateEmpty(e: Entry)
    ensures ApplyEntryUpdate(e, NoEntryChange) == e
  {
  }

  lemma EntryUpdateIdempotent(e: Entry, u: EntryUpdate)
    ensures ApplyEntryUpdate(ApplyEntryUpdate(e, u), u) == ApplyEntryUpdate(e, u)
  {
  }
}
