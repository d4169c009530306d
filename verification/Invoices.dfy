/** What the invoice stores keep (packages/middleware/src/invoice-store.ts and
    invoice-store-file.ts): one function per operation on an image, the map from nonce to
    invoice. The file store also has a disk image, which an operation rewrites whole, or not
    at all when the write throws. The classes are in `InvoiceStores`.
    Nonces are numbers: an issued nonce is a canonical decimal string, and a presented
    string that is not canonical matches no key. */
module Invoices {
  import opened Basics

  datatype Invoice = Invoice(nonce: nat, serviceId: nat, priceWei: nat, expiresAt: int, used: bool)

  type Image = m: map<nat, Invoice> | forall nonce :: nonce in m ==> m[nonce].nonce == nonce witness map[]

  function Put(image: Image, invoice: Invoice): Image {
    image[invoice.nonce := invoice]
  }

  function Get(image: Image, nonce: nat): Option<Invoice> {
    if nonce in image then Some(image[nonce]) else None
  }

  predicate Burnable(image: Image, nonce: nat) {
    nonce in image && !image[nonce].used
  }

  function MarkUsed(image: Image, nonce: nat): Image {
    if Burnable(image, nonce) then image[nonce := image[nonce].(used := true)] else image
  }

  function Release(image: Image, nonce: nat): Image {
    if nonce in image then image[nonce := image[nonce].(used := false)] else image
  }

  predicate Lapsed(invoice: Invoice, now: int, retentionMs: int) {
    invoice.expiresAt < now - retentionMs
  }

  function Sweep(image: Image, now: int, retentionMs: int): Image {
    map nonce | nonce in image && !Lapsed(image[nonce], now, retentionMs) :: image[nonce]
  }

  // ---- runs over both stores ---------------------------------------------------

  datatype Op =
    | PutOp(invoice: Invoice)
    | MarkUsedOp(burnt: nat)
    | ReleaseOp(released: nat)
    | SweepOp(now: int)

  function Apply(image: Image, op: Op, retentionMs: int): Image {
    match op
    case PutOp(invoice) => Put(image, invoice)
    case MarkUsedOp(nonce) => MarkUsed(image, nonce)
    case ReleaseOp(nonce) => Release(image, nonce)
    case SweepOp(now) => Sweep(image, now, retentionMs)
  }

  /** Whether the file store flushes: always after a put, otherwise only on a change. */
  predicate Flushes(image: Image, op: Op, retentionMs: int) {
    match op
    case PutOp(_) => true
    case MarkUsedOp(nonce) => Burnable(image, nonce)
    case ReleaseOp(nonce) => nonce in image && image[nonce].used
    case SweepOp(now) => exists nonce :: nonce in image && Lapsed(image[nonce], now, retentionMs)
  }

  datatype FileState = FileState(memory: Image, disk: Image)

  /** `writes` tells whether the flush, if there is one, reaches the disk or throws. */
  function ApplyFile(state: FileState, op: Op, writes: bool, retentionMs: int): FileState {
    var memory := Apply(state.memory, op, retentionMs);
    FileState(memory, if Flushes(state.memory, op, retentionMs) && writes then memory else state.disk)
  }

  function Run(start: Image, ops: seq<(Op, bool)>, retentionMs: int): Image {
    if ops == [] then start
    else Apply(Run(start, ops[..|ops| - 1], retentionMs), ops[|ops| - 1].0, retentionMs)
  }

  function RunFile(start: Image, ops: seq<(Op, bool)>, retentionMs: int): FileState {
    if ops == [] then FileState(start, start)
    else ApplyFile(RunFile(start, ops[..|ops| - 1], retentionMs), ops[|ops| - 1].0, ops[|ops| - 1].1, retentionMs)
  }

  /** Where no flush is due nothing has changed. */
  lemma QuietMeansUnchanged(image: Image, op: Op, retentionMs: int)
    requires !Flushes(image, op, retentionMs)
    ensures Apply(image, op, retentionMs) == image
  {
    match op
    case ReleaseOp(nonce) =>
      if nonce in image {
        assert image[nonce].(used := false) == image[nonce];
      }
    case _ =>
  }

  /** A flush is due after a put, and otherwise exactly where something has changed. */
  lemma {:induction false} FlushMeansChange(image: Image, op: Op, retentionMs: int)
    ensures Flushes(image, op, retentionMs) <==> op.PutOp? || Apply(image, op, retentionMs) != image
  {
    if !Flushes(image, op, retentionMs) {
      QuietMeansUnchanged(image, op, retentionMs);
    }
    match op
    case MarkUsedOp(nonce) =>
      if Burnable(image, nonce) {
        assert Apply(image, op, retentionMs)[nonce] != image[nonce];
      }
    case ReleaseOp(nonce) =>
      if nonce in image && image[nonce].used {
        assert Apply(image, op, retentionMs)[nonce] != image[nonce];
      }
    case SweepOp(now) =>
      if nonce: nat :| nonce in image && Lapsed(image[nonce], now, retentionMs) {
        assert nonce !in Apply(image, op, retentionMs);
      }
    case PutOp(_) =>
  }

  /** The last operation after which the disk was known to hold the memory image. */
  function LastGood(start: Image, ops: seq<(Op, bool)>, retentionMs: int): (k: nat)
    ensures k <= |ops|
  {
    if ops == [] then 0
    else
      var before := ops[..|ops| - 1];
      var image := RunFile(start, before, retentionMs).memory;
      var last := ops[|ops| - 1];
      if Flushes(image, last.0, retentionMs) then
        if last.1 then |ops| else LastGood(start, before, retentionMs)
      else if LastGood(start, before, retentionMs) == |before| then |ops|
      else LastGood(start, before, retentionMs)
  }

  /** The file store refines the memory store, whatever writes fail: its memory image, and so
      every answer it gives, is the memory store's, and its disk holds the image that store
      had at the last point where the two agreed. */
  lemma {:induction false} FileRefinesMemory(start: Image, ops: seq<(Op, bool)>, retentionMs: int)
    ensures RunFile(start, ops, retentionMs).memory == Run(start, ops, retentionMs)
    ensures RunFile(start, ops, retentionMs).disk ==
            Run(start, ops[..LastGood(start, ops, retentionMs)], retentionMs)
  {
    if ops == [] {
    } else {
      var before, last := ops[..|ops| - 1], ops[|ops| - 1];
      FileRefinesMemory(start, before, retentionMs);
      var k := LastGood(start, ops, retentionMs);
      var k' := LastGood(start, before, retentionMs);
      assert before[..k'] == ops[..k'];
      assert ops[..|ops|] == ops;
      var image := RunFile(start, before, retentionMs).memory;
      if !Flushes(image, last.0, retentionMs) {
        QuietMeansUnchanged(image, last.0, retentionMs);
        assert before[..|before|] == before;
      }
    }
  }

  /** When every write reaches the disk, a reload gives the memory store's image back. */
  lemma {:induction false} ReloadIsExact(start: Image, ops: seq<(Op, bool)>, retentionMs: int)
    requires forall i :: 0 <= i < |ops| ==> ops[i].1
    ensures RunFile(start, ops, retentionMs).disk == Run(start, ops, retentionMs)
  {
    FileRefinesMemory(start, ops, retentionMs);
    AlwaysGood(start, ops, retentionMs);
    assert ops[..|ops|] == ops;
  }

  lemma {:induction false} AlwaysGood(start: Image, ops: seq<(Op, bool)>, retentionMs: int)
    requires forall i :: 0 <= i < |ops| ==> ops[i].1
    ensures LastGood(start, ops, retentionMs) == |ops|
  {
    if ops != [] {
      AlwaysGood(start, ops[..|ops| - 1], retentionMs);
    }
  }

  /** Of any two attempts to burn the same nonce with no release or put of it in between,
      the second fails: an invoice stays used until someone gives it back. */
  lemma {:induction false} StaysBurnt(start: Image, ops: seq<(Op, bool)>, nonce: nat, retentionMs: int)
    requires !Burnable(start, nonce)
    requires forall i :: 0 <= i < |ops| ==>
        ops[i].0 != ReleaseOp(nonce) && !(ops[i].0.PutOp? && ops[i].0.invoice.nonce == nonce)
    ensures !Burnable(Run(start, ops, retentionMs), nonce)
  {
    if ops != [] {
      StaysBurnt(start, ops[..|ops| - 1], nonce, retentionMs);
    }
  }

  /** Whether some sweep of the run came later than `deadline`. */
  predicate SweptAfter(ops: seq<(Op, bool)>, deadline: int) {
    if ops == [] then false
    else
      var last := ops[|ops| - 1].0;
      SweptAfter(ops[..|ops| - 1], deadline) || (last.SweepOp? && deadline < last.now)
  }

  lemma OneOpOn(image: Image, op: Op, nonce: nat, retentionMs: int)
    requires !(op.PutOp? && op.invoice.nonce == nonce)
    ensures nonce in Apply(image, op, retentionMs) <==>
            nonce in image && !(op.SweepOp? && Lapsed(image[nonce], op.now, retentionMs))
    ensures nonce in Apply(image, op, retentionMs) ==>
            Apply(image, op, retentionMs)[nonce].(used := false) == image[nonce].(used := false)
  {
  }

  /** Retention: a run that does not put an invoice again drops it exactly when some sweep of
      the run came later than its expiry plus the retention time, and changes only its flag. */
  lemma {:induction false} SweptExactlyWhenLapsed(start: Image, ops: seq<(Op, bool)>, nonce: nat, retentionMs: int)
    requires nonce in start
    requires forall i :: 0 <= i < |ops| ==> !(ops[i].0.PutOp? && ops[i].0.invoice.nonce == nonce)
    ensures nonce !in Run(start, ops, retentionMs) <==> SweptAfter(ops, start[nonce].expiresAt + retentionMs)
    ensures nonce in Run(start, ops, retentionMs) ==>
            Run(start, ops, retentionMs)[nonce].(used := false) == start[nonce].(used := false)
  {
    hide Apply;
    if ops != [] {
      var before, last := ops[..|ops| - 1], ops[|ops| - 1].0;
      SweptExactlyWhenLapsed(start, before, nonce, retentionMs);
      OneOpOn(Run(start, before, retentionMs), last, nonce, retentionMs);
    }
  }
}
