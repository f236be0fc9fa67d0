/** Durable run records (src/storage/mod.rs): one value per run, replaced whole. */
module Store {
  import opened Wrappers
  import opened Model

  /**
   * How a write ended. A failed write may still have been published: the directory is synced after
   * the file is renamed into place (src/storage/file.rs:47-60).
   */
  datatype WriteOutcome = Written | NotWritten | PublishedButFailed | AlreadyExists

  class RunStore {
    var records: map<RunId, Record>
    ghost var faults: nat      // how many calls reported a failure

    constructor ()
      ensures records == map[]
    {
      records, faults := map[], 0;
    }

    /** Loads one run; None when it does not exist or cannot be read. */
    method Get(id: RunId) returns (r: Result<Option<Record>, ()>)
      modifies this`faults
      ensures faults == old(faults) + if r.Err? then 1 else 0
      ensures r.Ok? ==> r.value == if id in records then Some(records[id]) else None
    {
      if * {
        faults := faults + 1;
        return Err(());
      }
      r := Ok(if id in records then Some(records[id]) else None);
    }

    /** Loads every run, or fails if any cannot be read. */
    method LoadAll() returns (r: Result<map<RunId, Record>, ()>)
      modifies this`faults
      ensures faults == old(faults) + if r.Err? then 1 else 0
      ensures r.Ok? ==> r.value == records
    {
      if * {
        faults := faults + 1;
        return Err(());
      }
      r := Ok(records);
    }

    /** Adds a record under a run id that has none; it never replaces one. */
    method Create(record: Record) returns (o: WriteOutcome)
      modifies this
      ensures faults == old(faults) + if o.NotWritten? || o.PublishedButFailed? then 1 else 0
      ensures o.AlreadyExists? ==> record.request.runId in old(records)
      ensures o.Written? || o.PublishedButFailed? ==>
                && record.request.runId !in old(records)
                && records == old(records)[record.request.runId := record]
      ensures o.NotWritten? || o.AlreadyExists? ==> records == old(records)
    {
      if * {
        faults := faults + 1;
        return NotWritten;
      }
      if record.request.runId in records {
        return AlreadyExists;
      }
      records := records[record.request.runId := record];
      if * {
        faults := faults + 1;
        return PublishedButFailed;
      }
      o := Written;
    }

    /** Replaces a record with its latest state. */
    method Save(record: Record) returns (o: WriteOutcome)
      modifies this
      ensures faults == old(faults) + if o.NotWritten? || o.PublishedButFailed? then 1 else 0
      ensures !o.AlreadyExists?
      ensures o.NotWritten? ==> records == old(records)
      ensures !o.NotWritten? ==> records == old(records)[record.request.runId := record]
    {
      if * {
        faults := faults + 1;
        return NotWritten;
      }
      records := records[record.request.runId := record];
      if * {
        faults := faults + 1;
        return PublishedButFailed;
      }
      o := Written;
    }
  }
}
