/** Durable replacement of the credential file: every operation may fail, the context may end at
    every checkpoint, and the process may stop between any two operations. */
module FileWrite {
  import opened Session

  datatype Temp = Temp(content: Bytes, synced: bool)

  /** `durable`: the destination's bytes have been synced. `litter` counts temp files left behind. */
  datatype Disk = Disk(dest: Option<Bytes>, durable: bool, directorySynced: bool, temp: Option<Temp>, litter: nat)

  datatype Operation =
    | Inspect | Encode | CreateTemp | Secure | Write | Sync | Close | Reinspect | Rename | SyncDirectory

  /** `cancelAt` is the first checkpoint that sees the context ended (there are nine); a failing
      write leaves `written` bytes; the first `removeFailures` removals fail. */
  datatype Plan = Plan(fails: set<Operation>, cancelAt: nat, written: nat, removeFailures: nat)

  const CHECKPOINTS: nat := 9

  datatype Outcome = Written | WriteCancelled | WriteFailed(operation: Operation)

  /** The bytes before, or the complete and synced bytes after; nothing in between. */
  predicate OldOrNew(before: Disk, data: Bytes, d: Disk) {
    (d.dest == before.dest && d.durable == before.durable) || (d.dest == Some(data) && d.durable)
  }

  /** Close and remove the temp file; the deferred function tries once more if the first removal failed. */
  method Cleanup(before: Disk, log: seq<Disk>, plan: Plan) returns (after: Disk, trace: seq<Disk>)
    requires before.temp.Some?
    ensures after == before.(temp := None, litter := if plan.removeFailures >= 2 then before.litter + 1 else before.litter)
    ensures trace == log + [after]
  {
    var removed := plan.removeFailures < 1;
    if !removed {
      removed := plan.removeFailures < 2;
    }
    after := before.(temp := None, litter := if removed then before.litter else before.litter + 1);
    trace := log + [after];
  }

  /** Nothing but the temp file and the litter has changed. */
  predicate Unreplaced(before: Disk, d: Disk) {
    d == before.(temp := d.temp, litter := d.litter)
  }

  predicate AllUnreplaced(before: Disk, trace: seq<Disk>) {
    forall i :: 0 <= i < |trace| ==> Unreplaced(before, trace[i])
  }

  /** From the new temp file to the last look at the context, without the cleaning up. */
  method FillTemp(before: Disk, data: Bytes, plan: Plan) returns (r: Outcome, after: Disk, trace: seq<Disk>)
    requires before.temp.Some?
    ensures AllUnreplaced(before, trace) && Unreplaced(before, after)
    ensures after.temp.Some? && after.litter == before.litter
    ensures r.Written? ==> after.temp == Some(Temp(data, true))
    ensures r.WriteCancelled? ==> plan.cancelAt < CHECKPOINTS
    ensures r.WriteFailed? ==> r.operation in plan.fails && r.operation != SyncDirectory
    ensures r.Written? <==> plan.cancelAt >= CHECKPOINTS && plan.fails !! {Secure, Write, Sync, Close, Reinspect}
  {
    after := before;
    trace := [];
    if plan.cancelAt <= 3 { return WriteCancelled, after, trace; }
    if Secure in plan.fails { return WriteFailed(Secure), after, trace; }
    if plan.cancelAt <= 4 { return WriteCancelled, after, trace; }
    if Write in plan.fails {
      after := after.(temp := Some(Temp(if plan.written <= |data| then data[..plan.written] else data, false)));
      return WriteFailed(Write), after, [after];
    }
    after := after.(temp := Some(Temp(data, false)));
    trace := trace + [after];
    if plan.cancelAt <= 5 { return WriteCancelled, after, trace; }
    if Sync in plan.fails { return WriteFailed(Sync), after, trace; }
    after := after.(temp := Some(Temp(data, true)));
    trace := trace + [after];
    if plan.cancelAt <= 6 { return WriteCancelled, after, trace; }
    if Close in plan.fails { return WriteFailed(Close), after, trace; }
    if plan.cancelAt <= 7 { return WriteCancelled, after, trace; }
    if Reinspect in plan.fails { return WriteFailed(Reinspect), after, trace; }
    // The last look at the context: from here on the replacement may be visible.
    if plan.cancelAt <= 8 { return WriteCancelled, after, trace; }
    return Written, after, trace;
  }

  lemma NothingFails(fails: set<Operation>)
    requires fails !! {Secure, Write, Sync, Close, Reinspect}
    requires Inspect !in fails && Encode !in fails && CreateTemp !in fails && Rename !in fails && SyncDirectory !in fails
    ensures fails == {}
  {
    if op: Operation :| op in fails {
      match op
      case Inspect => case Encode => case CreateTemp => case Secure => case Write =>
      case Sync => case Close => case Reinspect => case Rename => case SyncDirectory =>
    }
  }

  /** `trace` lists the disk after each operation. */
  method WriteStorageState(before: Disk, data: Bytes, plan: Plan) returns (r: Outcome, after: Disk, trace: seq<Disk>)
    requires before.temp.None?
    ensures forall d <- trace :: OldOrNew(before, data, d)
    ensures trace != [] && trace[|trace| - 1] == after && after.temp.None?
    ensures r.Written? <==> plan.fails == {} && plan.cancelAt >= CHECKPOINTS
    ensures r.Written? ==> after == Disk(Some(data), true, true, None, before.litter)
    ensures r == WriteFailed(SyncDirectory) ==> after == Disk(Some(data), true, false, None, before.litter)
    ensures !r.Written? && r != WriteFailed(SyncDirectory) ==> after == before.(litter := after.litter)
    ensures after.litter != before.litter ==> after.litter == before.litter + 1 && plan.removeFailures >= 2
    ensures r.WriteCancelled? ==> plan.cancelAt < CHECKPOINTS
    ensures r.WriteFailed? ==> r.operation in plan.fails
  {
    after := before;
    trace := [after];
    if plan.cancelAt <= 0 { return WriteCancelled, after, trace; }
    if Inspect in plan.fails { return WriteFailed(Inspect), after, trace; }
    if plan.cancelAt <= 1 { return WriteCancelled, after, trace; }
    if Encode in plan.fails { return WriteFailed(Encode), after, trace; }
    if plan.cancelAt <= 2 { return WriteCancelled, after, trace; }
    if CreateTemp in plan.fails { return WriteFailed(CreateTemp), after, trace; }
    after := after.(temp := Some(Temp([], false)));
    trace := trace + [after];
    var filling;
    r, after, filling := FillTemp(after, data, plan);
    assert forall d <- filling :: OldOrNew(before, data, d);
    trace := trace + filling;
    if r.Written? && Rename in plan.fails {
      r := WriteFailed(Rename);
    }
    if !r.Written? {
      after, trace := Cleanup(after, trace, plan);
      return;
    }
    after := after.(dest := Some(after.temp.value.content), durable := after.temp.value.synced,
                    directorySynced := false, temp := None);
    trace := trace + [after];
    if SyncDirectory in plan.fails { return WriteFailed(SyncDirectory), after, trace; }
    after := after.(directorySynced := true);
    trace := trace + [after];
    NothingFails(plan.fails);
  }
}
