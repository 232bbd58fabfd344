/**
 The task tables of the store. A write is one transaction: a violated key half
 way through puts every table back.
 */
module CoreStore {
  import opened TaskGraph
  import opened TaskModel
  import opened Wrappers

  class Store {
    var tasks: map<TaskId, TaskRecord>
    var dependencyRows: set<(TaskId, TaskId)>
    var artifactRows: set<(TaskId, ArtifactKind, string)>
    var log: seq<Event>

    function State(): (t: Tables)
      reads this
    {
      Tables(tasks, dependencyRows, artifactRows, log)
    }

    constructor ()
      ensures State() == Tables(map[], {}, {}, [])
    {
      tasks, dependencyRows, artifactRows, log := map[], {}, {}, [];
    }

    /** `INSERT` row by row; false is a violated primary key. */
    method InsertDependencies(record: TaskRecord) returns (ok: bool)
      requires forall d :: (record.id, d) !in dependencyRows
      modifies this`dependencyRows
      ensures ok <==> Distinct(record.dependencies)
      ensures ok ==> dependencyRows == old(dependencyRows) + DependencyRowsOf(record)
    {
      var values := record.dependencies;
      for i := 0 to |values|
        invariant Distinct(values[..i])
        invariant dependencyRows == old(dependencyRows) + set d | d in values[..i] :: (record.id, d)
      {
        if (record.id, values[i]) in dependencyRows {
          assert exists k :: 0 <= k < i && values[k] == values[i];
          return false;
        }
        dependencyRows := dependencyRows + {(record.id, values[i])};
        assert values[..i + 1] == values[..i] + [values[i]];
      }
      assert values[..|values|] == values;
      return true;
    }

    method InsertArtifacts(taskId: TaskId, kind: ArtifactKind, values: seq<string>) returns (ok: bool)
      requires forall v :: (taskId, kind, v) !in artifactRows
      modifies this`artifactRows
      ensures ok <==> Distinct(values)
      ensures ok ==> artifactRows == old(artifactRows) + set v | v in values :: (taskId, kind, v)
    {
      for i := 0 to |values|
        invariant Distinct(values[..i])
        invariant artifactRows == old(artifactRows) + set v | v in values[..i] :: (taskId, kind, v)
      {
        if (taskId, kind, values[i]) in artifactRows {
          assert exists k :: 0 <= k < i && values[k] == values[i];
          return false;
        }
        artifactRows := artifactRows + {(taskId, kind, values[i])};
        assert values[..i + 1] == values[..i] + [values[i]];
      }
      assert values[..|values|] == values;
      return true;
    }

    method InsertEventRows(events: seq<Event>) returns (ok: bool)
      modifies this`log
      ensures ok <==> FreshIds(old(log), events)
      ensures ok ==> log == old(log) + events
    {
      for i := 0 to |events|
        invariant log == old(log) + events[..i]
        invariant FreshIds(old(log), events[..i])
      {
        if exists k :: 0 <= k < |log| && log[k].id == events[i].id {
          return false;
        }
        assert forall k :: 0 <= k < |old(log)| ==> log[k] == old(log)[k];
        assert forall k :: 0 <= k < i ==> log[|old(log)| + k] == events[k];
        log := log + [events[i]];
      }
      return true;
    }

    method InsertEvent(event: Event) returns (ok: bool)
      modifies this
      ensures ok <==> FreshIds(old(log), [event])
      ensures State() == if ok then old(State()).(log := old(log) + [event]) else old(State())
    {
      var saved := log;
      ok := InsertEventRows([event]);
      if !ok {
        log := saved;
      }
    }

    /** The statements inside the transaction, up to the first violated key. */
    method WriteRows(record: TaskRecord, events: seq<Event>) returns (ok: bool)
      modifies this
      ensures ok <==>
                && Distinct(record.dependencies) && Distinct(record.artifacts) && Distinct(record.evidence)
                && FreshIds(old(log), events)
      ensures ok ==> State() == Put(old(State()), record, events)
    {
      tasks := tasks[record.id := record];
      dependencyRows := set row | row in dependencyRows && row.0 != record.id;
      ok := InsertDependencies(record);
      if !ok {
        return;
      }
      artifactRows := set row | row in artifactRows && row.0 != record.id;
      ok := InsertArtifacts(record.id, Artifact, record.artifacts);
      if !ok {
        return;
      }
      ok := InsertArtifacts(record.id, Evidence, record.evidence);
      if !ok {
        return;
      }
      ok := InsertEventRows(events);
    }

    method PutTask(record: TaskRecord, events: seq<Event>) returns (ok: bool)
      modifies this
      ensures ok <==> CanPut(old(State()), record, events)
      ensures State() == if ok then Put(old(State()), record, events) else old(State())
    {
      if events == [] {
        return false;
      }
      var began := State();
      ok := WriteRows(record, events);
      if !ok {
        tasks, dependencyRows, artifactRows, log := began.tasks, began.dependencyRows, began.artifactRows, began.log;
      }
    }
  }
}
