/** The classes of packages/middleware/src/invoice-store.ts and invoice-store-file.ts. */
module InvoiceStores {
  import opened Basics
  import opened Invoices

  /** A write to disk threw: the caller sees an exception instead of an answer. */
  datatype WriteError = WriteThrew

  /** Invoices in memory only. */
  class MemoryInvoiceStore {
    var invoices: Image
    const graceMs: int

    constructor (sweepIntervalMs: int, retentionMs: Option<int>)
      ensures invoices == map[]
      ensures graceMs == if retentionMs.Some? then retentionMs.value else sweepIntervalMs
    {
      invoices := map[];
      graceMs := if retentionMs.Some? then retentionMs.value else sweepIntervalMs;
    }

    method Put(invoice: Invoice)
      modifies this
      ensures invoices == Invoices.Put(old(invoices), invoice)
    {
      invoices := invoices[invoice.nonce := invoice];
    }

    method Get(nonce: nat) returns (found: Option<Invoice>)
      ensures found == Invoices.Get(invoices, nonce)
    {
      found := if nonce in invoices then Some(invoices[nonce]) else None;
    }

    method MarkUsed(nonce: nat) returns (consumed: bool)
      modifies this
      ensures consumed == Burnable(old(invoices), nonce)
      ensures invoices == Invoices.MarkUsed(old(invoices), nonce)
    {
      if nonce !in invoices || invoices[nonce].used {
        return false;
      }
      invoices := invoices[nonce := invoices[nonce].(used := true)];
      consumed := true;
    }

    method Release(nonce: nat)
      modifies this
      ensures invoices == Invoices.Release(old(invoices), nonce)
    {
      if nonce in invoices {
        invoices := invoices[nonce := invoices[nonce].(used := false)];
      }
    }

    method Sweep(now: int)
      modifies this
      ensures invoices == Invoices.Sweep(old(invoices), now, graceMs)
    {
      var cutoff := now - graceMs;
      var todo := invoices.Keys;
      while todo != {}
        invariant todo <= old(invoices).Keys
        invariant invoices == map nonce | nonce in old(invoices)
                                && (nonce in todo || !Lapsed(old(invoices)[nonce], now, graceMs)) ::
                                    old(invoices)[nonce]
      {
        var nonce :| nonce in todo;
        if invoices[nonce].expiresAt < cutoff {
          invoices := map other | other in invoices && other != nonce :: invoices[other];
        }
        todo := todo - {nonce};
      }
    }
  }

  /** Invoices in memory, mirrored to a file that every change rewrites atomically. The
      parameter `writes` of a method is the file system's: whether the rewrite succeeds. */
  class FileInvoiceStore {
    var invoices: Image
    var disk: Image
    const graceMs: int

    /** Opens the store on what the file holds. */
    constructor (disk: Image, sweepIntervalMs: int, retentionMs: Option<int>)
      ensures State() == FileState(disk, disk)
      ensures graceMs == if retentionMs.Some? then retentionMs.value else sweepIntervalMs
    {
      this.disk := disk;
      invoices := disk;
      graceMs := if retentionMs.Some? then retentionMs.value else sweepIntervalMs;
    }

    function State(): FileState
      reads this
    {
      FileState(invoices, disk)
    }

    method Persist(writes: bool) returns (outcome: Result<(), WriteError>)
      modifies this`disk
      ensures disk == if writes then invoices else old(disk)
      ensures outcome == if writes then Ok(()) else Err(WriteThrew)
    {
      if !writes {
        return Err(WriteThrew);
      }
      disk := invoices;
      outcome := Ok(());
    }

    method Put(invoice: Invoice, writes: bool) returns (outcome: Result<(), WriteError>)
      modifies this
      ensures State() == ApplyFile(old(State()), PutOp(invoice), writes, graceMs)
      ensures outcome.Ok? <==> writes
    {
      invoices := invoices[invoice.nonce := invoice];
      outcome := Persist(writes);
    }

    method Get(nonce: nat) returns (found: Option<Invoice>)
      ensures found == Invoices.Get(invoices, nonce)
    {
      found := if nonce in invoices then Some(invoices[nonce]) else None;
    }

    method MarkUsed(nonce: nat, writes: bool) returns (outcome: Result<bool, WriteError>)
      modifies this
      ensures State() == ApplyFile(old(State()), MarkUsedOp(nonce), writes, graceMs)
      ensures outcome == if !Burnable(old(invoices), nonce) then Ok(false)
                         else if writes then Ok(true) else Err(WriteThrew)
    {
      if nonce !in invoices || invoices[nonce].used {
        return Ok(false);
      }
      invoices := invoices[nonce := invoices[nonce].(used := true)];
      var flushed := Persist(writes);
      outcome := if flushed.Ok? then Ok(true) else Err(WriteThrew);
    }

    method Release(nonce: nat, writes: bool) returns (outcome: Result<(), WriteError>)
      modifies this
      ensures State() == ApplyFile(old(State()), ReleaseOp(nonce), writes, graceMs)
      ensures outcome.Ok? <==> writes || !Flushes(old(invoices), ReleaseOp(nonce), graceMs)
    {
      if !Flushes(invoices, ReleaseOp(nonce), graceMs) {
        QuietMeansUnchanged(invoices, ReleaseOp(nonce), graceMs);
      }
      outcome := Ok(());
      if nonce in invoices && invoices[nonce].used {
        invoices := invoices[nonce := invoices[nonce].(used := false)];
        outcome := Persist(writes);
      }
    }

    method Sweep(now: int, writes: bool) returns (outcome: Result<(), WriteError>)
      modifies this
      ensures State() == ApplyFile(old(State()), SweepOp(now), writes, graceMs)
      ensures outcome.Ok? <==> writes || !Flushes(old(invoices), SweepOp(now), graceMs)
    {
      var cutoff := now - graceMs;
      var changed := false;
      var todo := invoices.Keys;
      while todo != {}
        invariant todo <= old(invoices).Keys && disk == old(disk)
        invariant invoices == map nonce | nonce in old(invoices)
                                && (nonce in todo || !Lapsed(old(invoices)[nonce], now, graceMs)) ::
                                    old(invoices)[nonce]
        invariant changed <==> exists nonce :: nonce in old(invoices) && nonce !in todo
                                 && Lapsed(old(invoices)[nonce], now, graceMs)
      {
        var nonce :| nonce in todo;
        if invoices[nonce].expiresAt < cutoff {
          invoices := map other | other in invoices && other != nonce :: invoices[other];
          changed := true;
        }
        todo := todo - {nonce};
      }
      outcome := Ok(());
      if changed {
        outcome := Persist(writes);
      }
    }
  }
}
