/**
 AutoImport's fields and the sections that change them under mu, in place.  Every method ends in the
 state its function in AutoImportState.dfy gives; the interleavings are in AutoImportProtocol.dfy.
 */
module AutoImportModel {
  import opened Options
  import opened DirtyDirectories
  import opened AutoImportState

  /** What the change probe answers: an error, or the newest modification time (zero when absent or empty). */
  datatype Probed = Unreadable | Newest(mtime: Option<int>)

  const Second := 1000

  predicate Settles(probed: Probed, now: int, settle: int) {
    probed.Unreadable? || probed.mtime.None? ||
    now - probed.mtime.value >= settle || now - probed.mtime.value < -settle
  }

  /** How long a directory that is still changing is left alone. */
  function Remaining(probed: Probed, now: int, settle: int): int
    requires !Settles(probed, now, settle)
  {
    var left := settle - (now - probed.mtime.value);
    if left < Second then Second else left
  }

  /** Splits a batch into what may be imported and what is still changing, and how long to wait for the latter. */
  method SettledSplit(dirs: seq<Dir>, probe: Option<Dir -> Probed>, now: int, settle: nat)
    returns (settled: seq<Dir>, unsettled: seq<Dir>, wait: int)
    ensures Elements(settled) + Elements(unsettled) == Elements(dirs)
    ensures probe.None? ==> unsettled == []
    ensures probe.None? ==> wait == 0
    ensures probe.Some? ==> forall d :: d in settled <==> d in dirs && Settles(probe.value(d), now, settle)
    ensures probe.Some? ==> forall d :: d in unsettled <==> d in dirs && !Settles(probe.value(d), now, settle)
    ensures probe.Some? ==> wait <= settle && forall d :: d in unsettled ==> wait <= Remaining(probe.value(d), now, settle)
    ensures probe.Some? && wait != settle ==> exists d :: d in unsettled && wait == Remaining(probe.value(d), now, settle)
  {
    if probe.None? {
      return dirs, [], 0;
    }
    settled, unsettled, wait := [], [], settle;
    for i := 0 to |dirs|
      invariant forall d :: d in settled <==> d in dirs[..i] && Settles(probe.value(d), now, settle)
      invariant forall d :: d in unsettled <==> d in dirs[..i] && !Settles(probe.value(d), now, settle)
      invariant wait <= settle && forall d :: d in unsettled ==> wait <= Remaining(probe.value(d), now, settle)
      invariant wait != settle ==> exists d :: d in unsettled && wait == Remaining(probe.value(d), now, settle)
    {
      assert dirs[..i + 1] == dirs[..i] + [dirs[i]];
      var probed := probe.value(dirs[i]);
      if Settles(probed, now, settle) {
        settled := settled + [dirs[i]];
      } else {
        unsettled := unsettled + [dirs[i]];
        assert dirs[i] in unsettled;
        var left := settle - (now - probed.mtime.value);
        left := if left < Second then Second else left;
        wait := if left < wait then left else wait;
      }
    }
    assert dirs[..|dirs|] == dirs;
  }

  class AutoImport {
    var started: bool
    var stopped: bool
    var enabled: bool
    var dirty: seq<Dir>
    var dirtyKeys: set<Dir>
    var inflight: Option<seq<Dir>>
    var timerSeq: nat
    var timer: bool
    var batching: bool
    var rerun: bool
    var holding: int
    var finishes: nat

    /** Repeated events grow dirty only with distinct directories. */
    ghost predicate Valid()
      reads this
    {
      Elements(dirty) == dirtyKeys && forall i, j :: 0 <= i < j < |dirty| ==> dirty[i] != dirty[j]
    }

    ghost function View(): Core
      reads this
    {
      Core(started, stopped, enabled, Elements(dirty),
           if inflight.Some? then Some(Elements(inflight.value)) else None,
           timerSeq, timer, batching, rerun, holding, finishes)
    }

    constructor ()
      ensures Valid() && View() == Initial
    {
      started, stopped, enabled := false, false, true;
      dirty, dirtyKeys, inflight := [], {}, None;
      timerSeq, timer, batching, rerun, holding, finishes := 0, false, false, false, 0, 0;
    }

    method AddDirtyLocked(dirs: seq<Dir>)
      requires Valid()
      modifies this
      ensures Valid() && View() == AddDirty(old(View()), Elements(dirs))
      ensures old(dirty) <= dirty
    {
      for i := 0 to |dirs|
        invariant Valid() && View() == AddDirty(old(View()), Elements(dirs[..i]))
        invariant old(dirty) <= dirty
      {
        assert Elements(dirs[..i + 1]) == Elements(dirs[..i]) + {dirs[i]} by {
          assert dirs[..i + 1] == dirs[..i] + [dirs[i]];
        }
        if dirs[i] !in dirtyKeys {
          dirtyKeys := dirtyKeys + {dirs[i]};
          dirty := dirty + [dirs[i]];
        }
      }
      assert dirs[..|dirs|] == dirs;
    }

    method TakeDirtyLocked() returns (taken: seq<Dir>)
      requires Valid()
      modifies this
      ensures Valid() && View() == old(View()).(dirty := {})
      ensures taken == old(dirty)
    {
      taken := dirty;
      dirty, dirtyKeys := [], {};
    }

    method RequeueLocked(batch: seq<Dir>)
      requires Valid()
      modifies this
      ensures Valid() && View() == Requeue(old(View()), Elements(batch))
    {
      if |batch| == 0 {
        return;
      }
      assert batch[0] in Elements(batch);
      AddDirtyLocked(batch);
      inflight := None;
    }

    method CancelTimerLocked()
      requires Valid()
      modifies this
      ensures Valid() && View() == CancelTimer(old(View()))
    {
      timerSeq := timerSeq + 1;
      timer := false;
    }

    method ScheduleLocked()
      requires Valid()
      modifies this
      ensures Valid() && View() == Schedule(old(View()))
    {
      if stopped {
        return;
      }
      CancelTimerLocked();
      timer := true;
    }

    method ScheduleIfDirtyLocked()
      requires Valid()
      modifies this
      ensures Valid() && View() == ScheduleIfDirty(old(View()))
    {
      if |dirty| > 0 {
        assert dirty[0] in Elements(dirty);
        ScheduleLocked();
      }
    }

    method Change(report: Option<Dir>)
      requires Valid()
      modifies this
      ensures Valid() && View() == Changed(old(View()), report)
    {
      if !enabled || !started || stopped {
        return;
      }
      if report.Some? {
        assert Elements([report.value]) == {report.value};
        AddDirtyLocked([report.value]);
      }
      ScheduleLocked();
    }

    /** fire's first section; a taken batch is what was dirty, with the finish count at that moment. */
    method BeginFire(seq': nat) returns (batch: Option<seq<Dir>>, seen: nat)
      requires Valid()
      modifies this
      ensures Valid() && View() == FireBegin(old(View()), seq')
      ensures batch == if Takes(old(View()), seq') then Some(old(dirty)) else None
      ensures seen == old(finishes)
    {
      batch, seen := None, finishes;
      if seq' != timerSeq || stopped || !enabled || !started {
        return;
      }
      timer := false;
      if batching {
        rerun := true;
        return;
      }
      if holding > 0 || inflight.Some? || |dirty| == 0 {
        return;
      }
      assert dirty[0] in Elements(dirty);
      batching := true;
      var taken := TakeDirtyLocked();
      batch := Some(taken);
    }

    method KeepUnsettledLocked(unsettled: seq<Dir>)
      requires Valid()
      modifies this
      ensures Valid() && View() == KeepUnsettled(old(View()), Elements(unsettled))
    {
      if enabled && !stopped {
        AddDirtyLocked(unsettled);
        if |unsettled| > 0 {
          assert unsettled[0] in Elements(unsettled);
          ScheduleLocked();
        }
      }
    }

    method CheckStart(settled: seq<Dir>) returns (go: bool)
      requires Valid()
      modifies this
      ensures Valid() && View() == StartCheck(old(View()), Elements(settled))
      ensures go <==> MayStart(old(View()))
    {
      if stopped || !enabled {
        return false;
      }
      if holding > 0 {
        AddDirtyLocked(settled);
        return false;
      }
      inflight := Some(settled);
      return true;
    }

    method RejectStart(settled: seq<Dir>, seen: nat, failed: bool)
      requires Valid()
      modifies this
      ensures Valid() && View() == StartRejected(old(View()), Elements(settled), seen, failed)
    {
      inflight := None;
      if stopped || !enabled {
        return;
      }
      AddDirtyLocked(settled);
      if failed || finishes != seen {
        ScheduleLocked();
      }
    }

    method EndFire()
      requires Valid()
      modifies this
      ensures Valid() && View() == FireEnd(old(View()))
    {
      batching := false;
      if rerun {
        rerun := false;
        ScheduleIfDirtyLocked();
      }
    }

    method EndBatchLocked(requeue: bool)
      requires Valid()
      modifies this
      ensures Valid() && View() == EndBatch(old(View()), requeue)
    {
      if requeue && enabled && !stopped && inflight.Some? {
        AddDirtyLocked(inflight.value);
      }
      inflight := None;
    }

    method FinishScan(watch: bool, requeue: bool)
      requires Valid()
      modifies this
      ensures Valid() && View() == ScanFinished(old(View()), watch, requeue)
    {
      finishes := finishes + 1;
      assert View() == CountFinish(old(View()));
      if watch {
        EndBatchLocked(requeue);
      }
      WakeLocked();
    }

    method WakeLocked()
      requires Valid()
      modifies this
      ensures Valid() && View() == Woken(old(View()))
    {
      if enabled && !stopped {
        ScheduleIfDirtyLocked();
      }
    }

    /** The sections of holdStarts: the count goes up, and after quiesceStarts the batch is cloned. */
    method BeginHold()
      requires Valid()
      modifies this
      ensures Valid() && View() == HoldBegin(old(View()))
    {
      holding := holding + 1;
    }

    method CloneBatch() returns (batch: seq<Dir>)
      requires Valid()
      ensures Elements(batch) == if View().inflight.Some? then View().inflight.value else {}
    {
      batch := if inflight.Some? then inflight.value else [];
    }

    method EndFolderChange()
      requires Valid()
      modifies this
      ensures Valid() && View() == FoldersChanged(old(View()))
    {
      holding := holding - 1;
      if enabled && started && !stopped {
        ScheduleIfDirtyLocked();
      }
    }

    method CommitOff()
      requires Valid()
      modifies this
      ensures Valid() && View() == SwitchOff(old(View()))
    {
      enabled := false;
      holding := holding - 1;
      var _ := TakeDirtyLocked();
      inflight := None;
      CancelTimerLocked();
    }

    method RestoreOn(batch: seq<Dir>)
      requires Valid()
      modifies this
      ensures Valid() && View() == SwitchRestore(old(View()), Elements(batch))
    {
      holding := holding - 1;
      RequeueLocked(batch);
      WakeLocked();
    }

    method MarkStopped()
      requires Valid()
      modifies this
      ensures Valid() && View() == Stopping(old(View()))
    {
      stopped := true;
      CancelTimerLocked();
    }
  }
}
