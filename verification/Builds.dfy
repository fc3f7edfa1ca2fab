/**
 Forced rebuilds of an artifact: build n+1 is written beside build n, a pointer is switched by one rename,
 and build n is removed; readers resolve the pointer again when a build is missing.  The disk records every
 state it passes through, so that what holds of the recorded states holds after a crash at any step and for
 readers that run meanwhile.
 */
module Builds {
  import opened Options

  type Bytes = seq<nat>

  /**
   One build: the preview's video and manifest, or the sprite's sheets and description.  A manifest carries
   the size and the digest of the video; the digest of the model is the content itself.
   */
  datatype Slot = Slot(video: Option<Bytes>, manifest: Option<Bytes>)

  const Empty := Slot(None, None)

  datatype Snapshot = Snapshot(pointer: Option<nat>, builds: map<nat, Slot>)

  function SlotAt(s: Snapshot, build: nat): Slot {
    if build in s.builds then s.builds[build] else Empty
  }

  /** A missing or unreadable pointer names build 0. */
  function Current(s: Snapshot): nat {
    if s.pointer.Some? then s.pointer.value else 0
  }

  /** What readers require: a non-empty video whose manifest states its size. */
  predicate Complete(slot: Slot) {
    slot.video.Some? && slot.manifest.Some? && slot.video.value != [] && |slot.video.value| == |slot.manifest.value|
  }

  /** What publication requires before it reuses a build: the digest too. */
  predicate Verified(slot: Slot) {
    Complete(slot) && slot.video == slot.manifest
  }

  predicate Good(s: Snapshot) {
    Complete(SlotAt(s, Current(s)))
  }

  // ---------------------------------------------------------------- timelines

  /** Files of a build that are only ever removed. */
  predicate Shrinks(from: Slot, to: Slot) {
    (to.video == from.video || to.video.None?) && (to.manifest == from.manifest || to.manifest.None?)
  }

  /** What one step of publication may do while a build is current. */
  ghost predicate StepOk(a: Snapshot, b: Snapshot) {
    && Current(a) <= Current(b)
    && (Current(b) == Current(a) ==> SlotAt(b, Current(b)) == SlotAt(a, Current(a)))
    && (Current(b) != Current(a) ==> Complete(SlotAt(b, Current(b))))
    && forall build: nat | build <= Current(a) :: Shrinks(SlotAt(a, build), SlotAt(b, build))
  }

  ghost predicate Timeline(h: seq<Snapshot>) {
    forall i | 0 <= i < |h| - 1 :: StepOk(h[i], h[i + 1])
  }

  lemma Extend(h: seq<Snapshot>, s: Snapshot)
    requires Timeline(h) && (h != [] ==> StepOk(h[|h| - 1], s))
    ensures Timeline(h + [s])
  {
  }

  /** A pointer that names a complete build names one ever after. */
  lemma {:induction false} AlwaysGood(h: seq<Snapshot>, a: nat, b: nat)
    requires Timeline(h) && a <= b < |h| && Good(h[a])
    ensures Good(h[b]) && Current(h[a]) <= Current(h[b])
    decreases b - a
  {
    if a < b {
      AlwaysGood(h, a, b - 1);
      assert StepOk(h[b - 1], h[b]);
    }
  }

  /** A crash at any step leaves a prefix of the history, which later publications go on from; the build is complete. */
  lemma SurvivesCrash(h: seq<Snapshot>, a: nat, at: nat)
    requires Timeline(h) && a < at <= |h| && Good(h[a])
    ensures Timeline(h[..at]) && Good(h[..at][at - 1])
  {
    forall i | 0 <= i < |h[..at]| - 1 ensures StepOk(h[..at][i], h[..at][i + 1]) {
      assert h[..at][i] == h[i] && h[..at][i + 1] == h[i + 1];
    }
    AlwaysGood(h, a, at - 1);
  }

  lemma {:induction false} OnlyShrinks(h: seq<Snapshot>, a: nat, b: nat, build: nat)
    requires Timeline(h) && a <= b < |h| && build <= Current(h[a])
    ensures build <= Current(h[b]) && Shrinks(SlotAt(h[a], build), SlotAt(h[b], build))
    decreases b - a
  {
    if a < b {
      OnlyShrinks(h, a, b - 1, build);
      assert StepOk(h[b - 1], h[b]);
    }
  }

  ghost function Switches(h: seq<Snapshot>, a: nat, b: nat): nat
    requires a <= b < |h|
    decreases b - a
  {
    if a == b then 0
    else Switches(h, a, b - 1) + if Current(h[b]) != Current(h[b - 1]) then 1 else 0
  }

  lemma {:induction false} SwitchesAdd(h: seq<Snapshot>, a: nat, b: nat, c: nat)
    requires a <= b <= c < |h|
    ensures Switches(h, a, c) == Switches(h, a, b) + Switches(h, b, c)
    decreases c - b
  {
    if b < c {
      SwitchesAdd(h, a, b, c - 1);
    }
  }

  lemma {:induction false} NoSwitchFreezes(h: seq<Snapshot>, a: nat, b: nat)
    requires Timeline(h) && a <= b < |h| && Switches(h, a, b) == 0
    ensures Current(h[b]) == Current(h[a]) && SlotAt(h[b], Current(h[a])) == SlotAt(h[a], Current(h[a]))
    decreases b - a
  {
    if a < b {
      NoSwitchFreezes(h, a, b - 1);
      assert StepOk(h[b - 1], h[b]);
    }
  }

  lemma {:induction false} SwitchesBounded(h: seq<Snapshot>, a: nat, b: nat)
    requires Timeline(h) && a <= b < |h|
    ensures Switches(h, a, b) <= Current(h[b]) - Current(h[a])
    decreases b - a
  {
    if a < b {
      SwitchesBounded(h, a, b - 1);
      assert StepOk(h[b - 1], h[b]);
    }
  }

  // ---------------------------------------------------------------- readers

  /** When a reader looked: at the pointer, at the two files, and the second time round. */
  datatype Looks = Looks(pointer: nat, video: nat, manifest: nat, pointer2: nat, video2: nat, manifest2: nat)

  predicate InOrder(h: seq<Snapshot>, at: Looks) {
    at.pointer <= at.video <= at.manifest <= at.pointer2 <= at.video2 <= at.manifest2 < |h|
  }

  function ReadBuild(h: seq<Snapshot>, build: nat, video: nat, manifest: nat): Option<Slot>
    requires video < |h| && manifest < |h|
  {
    var slot := Slot(SlotAt(h[video], build).video, SlotAt(h[manifest], build).manifest);
    if Complete(slot) then Some(slot) else None
  }

  /** readResolved: None is the answer "missing". */
  function ReadResolved(h: seq<Snapshot>, at: Looks): Option<Slot>
    requires InOrder(h, at)
  {
    var build := Current(h[at.pointer]);
    var first := ReadBuild(h, build, at.video, at.manifest);
    var again := Current(h[at.pointer2]);
    if first.Some? then first
    else if again != build then ReadBuild(h, again, at.video2, at.manifest2)
    else None
  }

  /** A read that overlaps at most one switch finds a complete build that was current while it read. */
  lemma ReadsNeverMiss(h: seq<Snapshot>, at: Looks)
    requires Timeline(h) && InOrder(h, at) && Good(h[at.pointer])
    requires Switches(h, at.pointer, at.manifest2) <= 1
    ensures ReadResolved(h, at).Some?
    ensures exists i | at.pointer <= i <= at.manifest2 :: ReadResolved(h, at) == Some(SlotAt(h[i], Current(h[i]))) && Good(h[i])
  {
    var build := Current(h[at.pointer]);
    OnlyShrinks(h, at.pointer, at.video, build);
    OnlyShrinks(h, at.pointer, at.manifest, build);
    if ReadBuild(h, build, at.video, at.manifest).Some? {
      assert ReadResolved(h, at) == Some(SlotAt(h[at.pointer], build));
    } else {
      SwitchesAdd(h, at.pointer, at.video, at.manifest);
      SwitchesAdd(h, at.pointer, at.manifest, at.manifest2);
      SwitchesAdd(h, at.manifest, at.pointer2, at.manifest2);
      SwitchesAdd(h, at.pointer2, at.video2, at.manifest2);
      if Switches(h, at.pointer, at.manifest) == 0 {
        NoSwitchFreezes(h, at.pointer, at.video);
        NoSwitchFreezes(h, at.pointer, at.manifest);
        assert false;
      }
      AlwaysGood(h, at.pointer, at.pointer2);
      CurrentGrows(h, at.pointer, at.manifest);
      OnlyShrinks(h, at.manifest, at.pointer2, Current(h[at.manifest]));
      NoSwitchFreezes(h, at.pointer2, at.video2);
      NoSwitchFreezes(h, at.pointer2, at.manifest2);
      assert ReadResolved(h, at) == Some(SlotAt(h[at.pointer2], Current(h[at.pointer2])));
    }
  }

  lemma {:induction false} CurrentGrows(h: seq<Snapshot>, a: nat, b: nat)
    requires Timeline(h) && a <= b < |h|
    ensures Switches(h, a, b) > 0 ==> Current(h[a]) < Current(h[b])
    ensures Current(h[a]) <= Current(h[b])
    decreases b - a
  {
    if a < b {
      CurrentGrows(h, a, b - 1);
      assert StepOk(h[b - 1], h[b]);
    }
  }

  /** Two switches during one read are too many: each look finds the build it was told about gone. */
  lemma TwoSwitchesCanMiss() returns (h: seq<Snapshot>, at: Looks)
    ensures Timeline(h) && InOrder(h, at) && forall i | 0 <= i < |h| :: Good(h[i])
    ensures Switches(h, at.pointer, at.manifest2) == 2 && ReadResolved(h, at).None?
  {
    var whole := Slot(Some([1]), Some([1]));
    h := [Snapshot(None, map[0 := whole]), Snapshot(Some(1), map[1 := whole]), Snapshot(Some(2), map[2 := whole])];
    at := Looks(0, 1, 1, 1, 2, 2);
    assert Switches(h, 0, 1) == 1;
  }

  // ---------------------------------------------------------------- exactly how many switches are too many

  /** No build before the current one is complete any more. */
  ghost predicate Cleaned(s: Snapshot) {
    forall build: nat | build < Current(s) :: !Complete(SlotAt(s, build))
  }

  /** A replaced build is removed before the pointer is switched again. */
  ghost predicate CleanedBetween(h: seq<Snapshot>) {
    forall i | 0 <= i < |h| - 1 && Current(h[i]) != Current(h[i + 1]) :: Cleaned(h[i])
  }

  predicate InWindow(at: Looks, a: nat, b: nat) {
    a <= at.pointer && at.manifest2 <= b
  }

  /** Every read inside the window is answered. */
  ghost predicate Answers(h: seq<Snapshot>, a: nat, b: nat) {
    forall at: Looks | InOrder(h, at) && InWindow(at, a, b) :: ReadResolved(h, at).Some?
  }

  /** The last switch of a window. */
  lemma {:induction false} LastSwitch(h: seq<Snapshot>, a: nat, b: nat) returns (i: nat)
    requires a <= b < |h| && Switches(h, a, b) > 0
    ensures a <= i < b && Current(h[i]) != Current(h[i + 1])
    ensures Switches(h, a, i) == Switches(h, a, b) - 1 && Switches(h, i + 1, b) == 0
    decreases b - a
  {
    if Current(h[b]) != Current(h[b - 1]) {
      i := b - 1;
    } else {
      i := LastSwitch(h, a, b - 1);
      SwitchesAdd(h, i + 1, b - 1, b);
      assert Switches(h, b - 1, b) == 0;
    }
  }

  /** Two switches in a window: a read that looks at its start, before the second switch, and at its end, misses. */
  lemma TwoSwitchesMiss(h: seq<Snapshot>, a: nat, b: nat) returns (at: Looks)
    requires Timeline(h) && CleanedBetween(h) && a <= b < |h| && Cleaned(h[b]) && Switches(h, a, b) >= 2
    ensures InOrder(h, at) && InWindow(at, a, b) && ReadResolved(h, at).None?
  {
    var j := LastSwitch(h, a, b);
    assert Cleaned(h[j]);
    CurrentGrows(h, a, j);
    CurrentGrows(h, j, b);
    SwitchesAdd(h, a, j, b);
    at := Looks(a, j, j, j, b, b);
    assert Current(h[a]) < Current(h[j]) < Current(h[b]);
    assert !Complete(SlotAt(h[j], Current(h[a]))) && !Complete(SlotAt(h[b], Current(h[j])));
  }

  /**
   In a window at whose end every replaced build is removed, every read is answered if and only if the pointer is
   switched at most once.
   */
  lemma AnswersExactly(h: seq<Snapshot>, a: nat, b: nat)
    requires Timeline(h) && CleanedBetween(h) && a <= b < |h| && Cleaned(h[b]) && Good(h[a])
    ensures Answers(h, a, b) <==> Switches(h, a, b) <= 1
  {
    if Switches(h, a, b) <= 1 {
      forall at: Looks | InOrder(h, at) && InWindow(at, a, b) ensures ReadResolved(h, at).Some? {
        AlwaysGood(h, a, at.pointer);
        SwitchesAdd(h, a, at.pointer, b);
        SwitchesAdd(h, at.pointer, at.manifest2, b);
        ReadsNeverMiss(h, at);
      }
    } else {
      var at := TwoSwitchesMiss(h, a, b);
    }
  }

  // ---------------------------------------------------------------- publication

  function Without(slot: Slot, video: bool): Slot {
    if video then slot.(video := None) else slot.(manifest := None)
  }

  datatype Outcome = Reused | Published | Failed

  class Disk {
    var pointer: Option<nat>
    var builds: map<nat, Slot>
    /** Every state so far, the present one last. */
    ghost var history: seq<Snapshot>

    ghost function Now(): Snapshot
      reads this
    {
      Snapshot(pointer, builds)
    }

    ghost predicate Valid()
      reads this
    {
      history != [] && history[|history| - 1] == Now()
    }

    /** The disk as a restart finds it. */
    constructor (pointer: Option<nat>, builds: map<nat, Slot>)
      ensures Valid() && history == [Snapshot(pointer, builds)]
    {
      this.pointer, this.builds := pointer, builds;
      history := [Snapshot(pointer, builds)];
    }

    /** One file operation on a build, which may fail and then changes nothing. */
    method Put(build: nat, slot: Slot) returns (ok: bool)
      requires Valid()
      modifies this
      ensures Valid() && pointer == old(pointer)
      ensures ok ==> builds == old(builds)[build := slot] && history == old(history) + [Now()]
      ensures !ok ==> builds == old(builds) && history == old(history)
    {
      ok := *;
      if ok {
        builds := builds[build := slot];
        history := history + [Now()];
      }
    }

    /** switchBuild: one rename. */
    method SwitchBuild(build: nat) returns (ok: bool)
      requires Valid()
      modifies this
      ensures Valid() && builds == old(builds)
      ensures ok ==> pointer == Some(build) && history == old(history) + [Now()]
      ensures !ok ==> pointer == old(pointer) && history == old(history)
    {
      ok := *;
      if ok {
        pointer := Some(build);
        history := history + [Now()];
      }
    }

    /** removeBuild, file by file; a failure leaves that file behind and goes on. */
    method RemoveBuild(build: nat, videoFirst: bool) returns (ok: bool)
      requires Valid()
      modifies this
      ensures Valid() && pointer == old(pointer)
      ensures forall b | b != build :: SlotAt(Now(), b) == SlotAt(old(Now()), b)
      ensures Shrinks(SlotAt(old(Now()), build), SlotAt(Now(), build))
      ensures ok ==> SlotAt(Now(), build) == Empty
      ensures Timeline(old(history)) && build != Current(old(Now())) ==> Timeline(history)
      ensures old(history) <= history
    {
      var first := RemoveFile(build, videoFirst);
      var second := RemoveFile(build, !videoFirst);
      ok := first && second;
    }

    method RemoveFile(build: nat, video: bool) returns (ok: bool)
      requires Valid()
      modifies this
      ensures Valid() && pointer == old(pointer)
      ensures forall b | b != build :: SlotAt(Now(), b) == SlotAt(old(Now()), b)
      ensures ok ==> SlotAt(Now(), build) == Without(SlotAt(old(Now()), build), video)
      ensures !ok ==> SlotAt(Now(), build) == SlotAt(old(Now()), build)
      ensures Timeline(old(history)) && build != Current(old(Now())) ==> Timeline(history)
      ensures old(history) <= history
    {
      ghost var before := history;
      ok := Put(build, Without(SlotAt(Snapshot(pointer, builds), build), video));
      if ok && Timeline(before) && build != Current(old(Now())) {
        Extend(before, Now());
      }
    }

    /** PublishSeekThumbnails; staged is what the generator left in the temporary directory, if it succeeded. */
    method PublishSeekThumbnails(force: bool, staged: Option<Slot>) returns (outcome: Outcome)
      requires Valid() && (staged.Some? ==> Complete(staged.value))
      modifies this
      ensures Valid() && old(history) <= history
      ensures Timeline(old(history)) && (force || Good(old(Now()))) ==> Timeline(history)
      ensures !force && Good(old(Now())) ==> outcome.Reused? && history == old(history)
      ensures outcome.Published? ==> staged.Some? && SlotAt(Now(), Current(Now())) == staged.value
      ensures Current(Now()) == Current(old(Now())) + if force && outcome.Published? then 1 else 0
      ensures force && outcome.Failed? ==> SlotAt(Now(), Current(Now())) == SlotAt(old(Now()), Current(old(Now())))
    {
      var build := if pointer.Some? then pointer.value else 0;
      var target := if force then build + 1 else build;
      if !force && Complete(SlotAt(Snapshot(pointer, builds), build)) {
        return Reused;
      }
      if staged.None? {
        return Failed;
      }
      var removed := RemoveBuild(target, true);
      if !removed {
        return Failed;
      }
      ghost var cleared := history;
      var renamed := Put(target, staged.value);
      if !renamed {
        return Failed;
      }
      if !force {
        return Published;
      }
      assert Timeline(cleared) ==> Timeline(history) by {
        if Timeline(cleared) { Extend(cleared, Now()); }
      }
      outcome := Publish(build, true);
    }

    /** The end of a forced publish: the next build is complete; name it, then remove the old one. */
    method Publish(build: nat, videoFirst: bool) returns (outcome: Outcome)
      requires Valid() && build == Current(Now()) && Complete(SlotAt(Now(), build + 1))
      modifies this
      ensures Valid() && old(history) <= history
      ensures Timeline(old(history)) ==> Timeline(history)
      ensures outcome.Published? || outcome.Failed?
      ensures outcome.Published? ==> Current(Now()) == build + 1 && SlotAt(Now(), build + 1) == SlotAt(old(Now()), build + 1)
      ensures outcome.Failed? ==> Current(Now()) == build && SlotAt(Now(), build) == SlotAt(old(Now()), build)
    {
      ghost var before := history;
      var switched := SwitchBuild(build + 1);
      if !switched {
        var _ := RemoveBuild(build + 1, videoFirst);
        return Failed;
      }
      if Timeline(before) {
        Extend(before, Now());
      }
      var _ := RemoveBuild(build, videoFirst);
      return Published;
    }

    /**
     The two renames of stagePreview, onto a build whose removal was tried: the video, then its manifest.
     A failed first rename is no failure when a verified pair is still in place.
     */
    method StagePair(target: nat, staged: Bytes) returns (ok: bool)
      requires Valid() && staged != []
      modifies this
      ensures Valid() && old(history) <= history && pointer == old(pointer)
      ensures forall b | b != target :: SlotAt(Now(), b) == SlotAt(old(Now()), b)
      ensures Timeline(old(history)) && target > Current(Now()) ==> Timeline(history)
      ensures ok ==> Verified(SlotAt(Now(), target))
      ensures ok && history != old(history) ==> SlotAt(Now(), target) == Slot(Some(staged), Some(staged))
      ensures history == old(history) ==> Now() == old(Now())
    {
      var cleared := SlotAt(Snapshot(pointer, builds), target);
      ghost var before := history;
      var moved := Put(target, Slot(Some(staged), cleared.manifest));
      if !moved {
        return Verified(cleared);
      }
      ghost var between := history;
      assert Timeline(before) && target > Current(Now()) ==> Timeline(between) by {
        if Timeline(before) && target > Current(Now()) { Extend(before, Now()); }
      }
      ok := Put(target, Slot(Some(staged), Some(staged)));
      if !ok {
        var _ := RemoveFile(target, true);
      } else if Timeline(between) && target > Current(Now()) {
        Extend(between, Now());
      }
    }

    /** PublishPreview under the publication lock; current is false when the source changed meanwhile. */
    method PublishPreview(force: bool, staged: Option<Bytes>, current: bool) returns (outcome: Outcome)
      requires Valid()
      modifies this
      ensures Valid() && old(history) <= history
      ensures Timeline(old(history)) && (force || Verified(SlotAt(old(Now()), Current(old(Now()))))) ==> Timeline(history)
      ensures !force && Verified(SlotAt(old(Now()), Current(old(Now())))) ==> outcome.Reused? && history == old(history)
      ensures outcome.Published? ==> staged.Some? && current && Verified(SlotAt(Now(), Current(Now())))
      ensures outcome.Published? && SlotAt(Now(), Current(Now())) != Slot(staged, staged) ==>
        SlotAt(Now(), Current(Now())) == SlotAt(old(Now()), Current(Now()))
      ensures Current(Now()) == Current(old(Now())) + if force && outcome.Published? then 1 else 0
      ensures force && outcome.Failed? ==> SlotAt(Now(), Current(Now())) == SlotAt(old(Now()), Current(old(Now())))
    {
      var build := if pointer.Some? then pointer.value else 0;
      var target := if force then build + 1 else build;
      if !force && Verified(SlotAt(Snapshot(pointer, builds), build)) {
        return Reused;
      }
      // Errors of the two removals are ignored.
      var _ := RemoveBuild(target, true);
      if staged.None? || staged.value == [] || !current {
        return Failed;
      }
      var ok := StagePair(target, staged.value);
      if !ok {
        return Failed;
      }
      if !force {
        return Published;
      }
      outcome := Publish(build, true);
    }

    /** removeAllBuilds: every build, listed or build 0, and then the pointer. */
    method RemoveAllBuilds() returns (ok: bool)
      requires Valid()
      modifies this
      ensures Valid() && old(history) <= history
      ensures ok ==> pointer.None? && forall b :: SlotAt(Now(), b) == Empty
    {
      var rest := builds.Keys + {0};
      ok := true;
      while rest != {}
        invariant Valid() && old(history) <= history && pointer == old(pointer)
        invariant ok ==> forall b | b !in rest :: SlotAt(Now(), b) == Empty
        decreases rest
      {
        var build :| build in rest;
        rest := rest - {build};
        var removed := RemoveBuild(build, true);
        ok := ok && removed;
      }
      ghost var emptied := Now();
      var unpointed := *;
      if unpointed {
        pointer := None;
        history := history + [Now()];
      }
      assert forall b :: SlotAt(Now(), b) == SlotAt(emptied, b);
      ok := ok && unpointed;
    }
  }

  /** A forced publish switches at most once, so each read it overlaps alone is covered by ReadsNeverMiss. */
  lemma OnePublishOneSwitch(h: seq<Snapshot>, from: nat)
    requires Timeline(h) && from < |h| && Current(h[|h| - 1]) <= Current(h[from]) + 1
    ensures Switches(h, from, |h| - 1) <= 1
  {
    SwitchesBounded(h, from, |h| - 1);
  }
}
