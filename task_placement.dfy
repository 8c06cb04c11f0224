/** The task -> core map of the construction loop (src/lib.rs:120, 155-158, 172), stated over
    the allocated-task fields of the sorted cores, in loop order. */
module TaskPlacement {
  import opened Types

  /** The map after inserting `task -> index` for each core that declares a task, in order,
      a later insert overwriting an earlier one: every entry points at a core declaring that
      task and no later core declares it. */
  function TaskCoreMap(tasks: seq<Option<u16>>): (m: map<u16, nat>)
    ensures forall t :: t in m ==> m[t] < |tasks| && tasks[m[t]] == Some(t)
    ensures forall t, j :: t in m && m[t] < j < |tasks| ==> tasks[j] != Some(t)
    decreases |tasks|
  {
    if |tasks| == 0 then map[]
    else
      var m := TaskCoreMap(tasks[..|tasks| - 1]);
      match tasks[|tasks| - 1]
      case None => m
      case Some(t) => m[t := |tasks| - 1]
  }

  lemma TaskCoreMapSnoc(tasks: seq<Option<u16>>, task: Option<u16>)
    ensures TaskCoreMap(tasks + [task])
            == if task.Some? then TaskCoreMap(tasks)[task.value := |tasks|] else TaskCoreMap(tasks)
  {
    assert (tasks + [task])[..|tasks|] == tasks;
  }

  /** The map's keys are exactly the tasks some core declares; cores without a task add none. */
  lemma {:induction false} TaskCoreMapKeys(tasks: seq<Option<u16>>)
    ensures forall t :: t in TaskCoreMap(tasks) <==> exists i :: 0 <= i < |tasks| && tasks[i] == Some(t)
    decreases |tasks|
  {
    if |tasks| > 0 {
      var front := tasks[..|tasks| - 1];
      TaskCoreMapKeys(front);
      forall t | exists i :: 0 <= i < |tasks| && tasks[i] == Some(t)
        ensures t in TaskCoreMap(tasks)
      {
        var i :| 0 <= i < |tasks| && tasks[i] == Some(t);
        if i < |tasks| - 1 {
          assert front[i] == tasks[i];
        }
      }
    }
  }

  /** Each mapped task goes to the LAST core declaring it. */
  lemma TaskCoreMapLatest(tasks: seq<Option<u16>>, t: u16, i: nat)
    requires i < |tasks| && tasks[i] == Some(t)
    ensures t in TaskCoreMap(tasks) && i <= TaskCoreMap(tasks)[t]
  {
    TaskCoreMapKeys(tasks);
  }
}
