/** The locked status file and the controller's compare-and-swap over it. */
module StatusStore {
  import opened Outcomes
  import opened Ledger
  import opened LedgerRuns

  /** One cluster file: its status, and the identity and spec a swap must find unchanged. */
  class StatusFile {
    var status: Status
    var identity: int

    constructor (status: Status, identity: int)
      ensures this.status == status && this.identity == identity
    {
      this.status := status;
      this.identity := identity;
    }

    /** Replace the status when file identity and current status are the expected ones. The
        replacement can become durable and still be reported as a failure. */
    method Swap(identity: int, expected: Status, desired: Status, fault: Fault) returns (r: Outcome<Status>)
      modifies this`status
      ensures r.Ok? <==> this.identity == identity && old(status) == expected && fault == NoFault
      ensures r.Ok? ==> r.value == desired
      ensures status == if this.identity == identity && old(status) == expected && fault != BeforeCommit then desired
              else old(status)
    {
      if fault == BeforeCommit {
        return Fail;
      }
      if this.identity != identity {
        return Fail;
      }
      if status != expected {
        return Fail;
      }
      status := desired;
      if fault == AfterCommit {
        return Fail;
      }
      var readback := status;
      if readback != desired {
        return Fail;
      }
      return Ok(readback);
    }
  }

  /** A controller's in-memory copy of the status over a shared file. */
  class Ledgerkeeper {
    var status: Status
    const identity: int
    const file: StatusFile

    constructor (status: Status, identity: int, file: StatusFile)
      ensures this.status == status && this.identity == identity && this.file == file
    {
      this.status := status;
      this.identity := identity;
      this.file := file;
    }

    /** One ledger transition: memory, file and report move exactly as one swap of the run model. */
    method Persist(op: Op, fault: Fault) returns (ok: bool)
      modifies this`status, file`status
      ensures var swap := CompareAndSwap(old(status), old(file.status), Perform(op, old(status)),
                                         if file.identity == identity then fault else BeforeCommit);
              status == swap.memory && file.status == swap.stored && ok == swap.ok
    {
      var wanted := Perform(op, status);
      if wanted.Fail? {
        return false;
      }
      if wanted.value == status {
        return true;
      }
      var persisted := file.Swap(identity, status, wanted.value, fault);
      if persisted.Fail? || persisted.value != wanted.value {
        return false;
      }
      status := persisted.value;
      return true;
    }
  }
}
