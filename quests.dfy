/**
 * Quest tracking: active quests with an objective and a progress count,
 * and the set of completed quest ids.
 */
module Quests {
  import opened Wrappers

  datatype Quest = Quest(objective: string, progress: int)

  /** What `to_dict` produces and `load_from_dict` accepts; either key may be missing. */
  datatype QuestData = QuestData(active: Option<map<string, Quest>>, completed: Option<set<string>>)

  /** `update_progress`: only an active quest's progress moves, by `amount`. */
  function Advanced(active: map<string, Quest>, questId: string, amount: int): (r: map<string, Quest>)
    ensures r.Keys == active.Keys
    ensures questId in active ==> r[questId] == Quest(active[questId].objective, active[questId].progress + amount)
    ensures forall q :: q in active && q != questId ==> r[q] == active[q]
  {
    if questId in active then
      active[questId := Quest(active[questId].objective, active[questId].progress + amount)]
    else active
  }

  /** `get_progress`: the progress of an active quest, 0 for any other. */
  function ProgressOf(active: map<string, Quest>, questId: string): (r: int)
    ensures questId !in active ==> r == 0
  {
    if questId in active then active[questId].progress else 0
  }

  /** Progress adds up over updates of an active quest and stays 0 for an inactive one. */
  lemma AdvancedAccumulates(active: map<string, Quest>, questId: string, a: int, b: int)
    ensures ProgressOf(Advanced(Advanced(active, questId, a), questId, b), questId)
         == if questId in active then ProgressOf(active, questId) + a + b else 0
  {
  }

  class QuestManager {
    var active: map<string, Quest>
    var completed: set<string>

    constructor ()
      ensures active == map[] && completed == {}
    {
      active := map[];
      completed := {};
    }

    /** A new (or restarted) quest with progress 0. */
    method Add(questId: string, objective: string)
      modifies this`active
      ensures active == old(active)[questId := Quest(objective, 0)]
      ensures ProgressOf(active, questId) == 0
    {
      active := active[questId := Quest(objective, 0)];
    }

    method UpdateProgress(questId: string, amount: int := 1)
      modifies this`active
      ensures active == Advanced(old(active), questId, amount)
    {
      if questId in active {
        var q := active[questId];
        active := active[questId := Quest(q.objective, q.progress + amount)];
      }
    }

    /** An active quest moves to `completed`; any other id changes nothing. */
    method Complete(questId: string)
      modifies this
      ensures old(questId in active) ==> active == old(active) - {questId} && completed == old(completed) + {questId}
      ensures old(questId !in active) ==> active == old(active) && completed == old(completed)
    {
      if questId in active {
        active := active - {questId};
        completed := completed + {questId};
      }
    }

    function IsCompleted(questId: string): bool
      reads this
    {
      questId in completed
    }

    function GetProgress(questId: string): int
      reads this
    {
      ProgressOf(active, questId)
    }

    function ToDict(): QuestData
      reads this
    {
      QuestData(Some(active), Some(completed))
    }

    /** A missing key loads as empty. */
    method LoadFromDict(data: QuestData)
      modifies this
      ensures active == (if data.active.Some? then data.active.value else map[])
      ensures completed == (if data.completed.Some? then data.completed.value else {})
    {
      active := if data.active.Some? then data.active.value else map[];
      completed := if data.completed.Some? then data.completed.value else {};
    }
  }

  /** Loading what was just saved restores both active and completed quests. */
  method SaveLoadScenario(qm: QuestManager)
    modifies qm
    ensures qm.active == old(qm.active) && qm.completed == old(qm.completed)
  {
    var saved := qm.ToDict();
    qm.LoadFromDict(saved);
  }

  /** Add a quest, progress it by 2, complete it. */
  method QuestScenario()
  {
    var qm := new QuestManager();
    qm.Add("q1", "Collect things");
    qm.UpdateProgress("q1", 2);
    assert qm.GetProgress("q1") == 2;
    qm.Complete("q1");
    assert qm.IsCompleted("q1") && "q1" !in qm.active;
    assert qm.GetProgress("q1") == 0;
  }
}
