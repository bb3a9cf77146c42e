/** Job results by id.  A job is pending until it is given one of three outcomes. */
module JobStore {
  import opened Cobs

  datatype JobStatus = Pending | Done | TimedOut | Cancelled

  /** `qr` holds the bytes of a string. */
  datatype JobResult = JobResult(status: JobStatus, message: string, qr: Option<seq<byte>>)

  /** How a job can end. */
  datatype Outcome = Completed(qr: seq<byte>) | Expired | Aborted

  const NEW: JobResult := JobResult(Pending, "PENDING", None)

  function ResultOf(o: Outcome): JobResult {
    match o
    case Completed(qr) => JobResult(Done, "OK", Some(qr))
    case Expired => JobResult(TimedOut, "TIMEOUT", None)
    case Aborted => JobResult(Cancelled, "CANCELLED", None)
  }

  function Label(s: JobStatus): string {
    match s
    case Pending => "PENDING"
    case Done => "OK"
    case TimedOut => "TIMEOUT"
    case Cancelled => "CANCELLED"
  }

  /** A value is stored exactly for a job that is done, and the message fits the status. */
  predicate Sound(r: JobResult) {
    (r.status.Done? <==> r.qr.Some?) && r.message == Label(r.status)
  }

  class Store {
    var jobs: map<string, JobResult>

    ghost predicate Valid()
      reads this
    {
      forall id :: id in jobs ==> Sound(jobs[id])
    }

    constructor ()
      ensures Valid() && jobs == map[]
    {
      jobs := map[];
    }

    method Create(id: string)
      requires Valid()
      modifies this
      ensures Valid() && jobs == old(jobs)[id := JobResult(Pending, "PENDING", None)]
    {
      jobs := jobs[id := NEW];
    }

    method Exists(id: string) returns (found: bool)
      ensures found <==> id in jobs
    {
      found := id in jobs;
    }

    /** The source throws for an unknown id; that is `None` here. */
    method Get(id: string) returns (r: Option<JobResult>)
      requires Valid()
      ensures r.Some? <==> id in jobs
      ensures r.Some? ==> r.value == jobs[id] && Sound(r.value)
    {
      if id in jobs {
        return Some(jobs[id]);
      }
      return None;
    }

    /** The three setters throw for an unknown id, and then change nothing: `known` is false. */
    method SetDone(id: string, qr: seq<byte>) returns (known: bool)
      requires Valid()
      modifies this
      ensures Valid() && known == (id in old(jobs))
      ensures jobs == if known then old(jobs)[id := JobResult(Done, "OK", Some(qr))] else old(jobs)
    {
      if id !in jobs {
        return false;
      }
      var r := jobs[id].(status := Done);
      r := r.(message := "OK");
      r := r.(qr := Some(qr));
      jobs := jobs[id := r];
      return true;
    }

    method SetTimeout(id: string) returns (known: bool)
      requires Valid()
      modifies this
      ensures Valid() && known == (id in old(jobs))
      ensures jobs == if known then old(jobs)[id := JobResult(TimedOut, "TIMEOUT", None)] else old(jobs)
    {
      if id !in jobs {
        return false;
      }
      var r := jobs[id].(status := TimedOut, message := "TIMEOUT");
      r := r.(qr := None);
      jobs := jobs[id := r];
      return true;
    }

    method SetCancelled(id: string) returns (known: bool)
      requires Valid()
      modifies this
      ensures Valid() && known == (id in old(jobs))
      ensures jobs == if known then old(jobs)[id := JobResult(Cancelled, "CANCELLED", None)] else old(jobs)
    {
      if id !in jobs {
        return false;
      }
      var r := jobs[id].(status := Cancelled, message := "CANCELLED");
      r := r.(qr := None);
      jobs := jobs[id := r];
      return true;
    }
  }
}
