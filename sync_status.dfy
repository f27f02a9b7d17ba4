/**
 * The progress report of the chain synchroniser: how far the stored sync
 * state has come towards the chain's current block. The stored state and
 * the current block number, which the handler reads from the database and
 * the RPC node, are inputs here; a failed block-number call is `None`.
 */
module SyncStatusReport {
  import opened Optional

  datatype Status = NotStarted | Syncing | Synced | Error

  /** The stored sync row: the last block processed and the block the sync began at (0 for unset). Block numbers are never negative. */
  datatype SyncState = SyncState(lastBlock: nat, startBlock: nat)

  datatype SyncReport = SyncReport(
    startBlock: Option<nat>,
    lastSyncedBlock: nat,
    targetBlock: Option<nat>,
    progress: real,
    status: Status,
    remainingBlocks: int,
    syncedBlocks: int,
    totalBlocks: int)

  /** `x || 0` on a nullable block number. */
  function OrZero(x: Option<nat>): nat {
    if x.Some? then x.value else 0
  }

  /** The status report for a sync state and the chain's current block. */
  method GetSyncStatus(syncState: Option<SyncState>, currentBlock: Option<nat>) returns (report: SyncReport)
    ensures report.remainingBlocks >= 0
    ensures report.targetBlock == currentBlock
    // No stored state: nothing synced yet, everything up to the current block remains.
    ensures syncState.None? ==>
              && report.status == NotStarted && report.startBlock.None? && report.lastSyncedBlock == 0
              && report.progress == 0.0 && report.syncedBlocks == 0
              && report.remainingBlocks == OrZero(currentBlock) == report.totalBlocks
    ensures syncState.Some? ==>
              && report.lastSyncedBlock == syncState.value.lastBlock
              && report.startBlock == (if syncState.value.startBlock == 0 then None else Some(syncState.value.startBlock))
    // The current block is unknown: an error report with nothing counted.
    ensures syncState.Some? && currentBlock.None? ==>
              && report.status == Error && report.progress == 0.0
              && report.remainingBlocks == 0 && report.syncedBlocks == 0 && report.totalBlocks == 0
    // Counted from the start block when there is one, from block 0 otherwise.
    ensures syncState.Some? && currentBlock.Some? && report.startBlock.Some? ==>
              && report.totalBlocks == (currentBlock.value as int) - report.startBlock.value + 1
              && report.syncedBlocks == (report.lastSyncedBlock as int) - report.startBlock.value + 1
    ensures syncState.Some? && currentBlock.Some? && report.startBlock.None? ==>
              && report.totalBlocks == currentBlock.value
              && report.syncedBlocks == report.lastSyncedBlock
    // Caught up with the target: synced, complete, nothing remaining.
    ensures syncState.Some? && currentBlock.Some? && syncState.value.lastBlock >= currentBlock.value ==>
              report.status == Synced && report.progress == 100.0 && report.remainingBlocks == 0
    // Behind the target: the synced and remaining blocks add up to the total, and progress is their ratio.
    ensures syncState.Some? && currentBlock.Some? && syncState.value.lastBlock < currentBlock.value ==>
              && report.status == Syncing
              && report.syncedBlocks + report.remainingBlocks == report.totalBlocks
              && report.remainingBlocks > 0
              && (report.totalBlocks <= 0 ==> report.progress == 0.0)
              && (report.totalBlocks > 0 ==>
                    report.progress * (report.totalBlocks as real) == (report.syncedBlocks as real) * 100.0
                    && report.progress < 100.0)
  {
    if syncState.None? {
      return SyncReport(None, 0, currentBlock, 0.0, NotStarted, OrZero(currentBlock), 0, OrZero(currentBlock));
    }
    var lastSyncedBlock := syncState.value.lastBlock;
    var startBlock := if syncState.value.startBlock == 0 then None else Some(syncState.value.startBlock);
    var targetBlock := currentBlock;

    var progress := 0.0;
    var status := Syncing;
    var remainingBlocks: int := 0;
    var syncedBlocks: int := 0;
    var totalBlocks: int := 0;

    if targetBlock.Some? {
      if startBlock.Some? {
        totalBlocks := (targetBlock.value as int) - startBlock.value + 1;
        syncedBlocks := (lastSyncedBlock as int) - startBlock.value + 1;
      } else {
        totalBlocks := targetBlock.value;
        syncedBlocks := lastSyncedBlock;
      }
      remainingBlocks := if (targetBlock.value as int) - lastSyncedBlock > 0 then (targetBlock.value as int) - lastSyncedBlock else 0;
      if totalBlocks > 0 {
        progress := ((syncedBlocks as real) / (totalBlocks as real)) * 100.0;
        if syncedBlocks < totalBlocks {
          ProgressBelowComplete(syncedBlocks, totalBlocks);
        }
      }
      if lastSyncedBlock >= targetBlock.value {
        status := Synced;
        progress := 100.0;
        remainingBlocks := 0;
      } else {
        status := Syncing;
      }
    } else {
      status := Error;
    }
    report := SyncReport(startBlock, lastSyncedBlock, targetBlock, progress, status, remainingBlocks, syncedBlocks, totalBlocks);
  }

  /** A ratio of a part below its whole is below 100 percent. */
  lemma ProgressBelowComplete(synced: int, total: int)
    requires 0 < total && synced < total
    ensures ((synced as real) / (total as real)) * 100.0 < 100.0
  {
    assert (synced as real) / (total as real) < 1.0;
  }
}
