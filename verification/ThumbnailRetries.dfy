/**
 Retrying the provider cancellations of thumbnail edits in place, while sweeps and other sessions claim, settle
 and add cancellations between any two of its steps.
 */
module ThumbnailRetries {
  import opened Options

  type Video = nat
  type Job = nat

  /** Who is retrying a pending cancellation at the moment. */
  datatype Attempt = Free | Mine | Theirs

  datatype Pending = Pending(video: Video, attempt: Attempt)

  predicate Matches(p: Pending, video: Option<Video>) {
    video.None? || p.video == video.value
  }

  ghost function Untried(pending: map<Job, Pending>, tried: set<Job>): set<Job> {
    pending.Keys - tried
  }

  ghost function TheirsOf(pending: map<Job, Pending>): set<Job> {
    set j | j in pending && pending[j].attempt.Theirs?
  }

  /** What is left to try or to wait for. */
  ghost function Weight(pending: map<Job, Pending>, tried: set<Job>): nat {
    |Untried(pending, tried)| + |TheirsOf(pending)|
  }

  lemma WeightWithout(pending: map<Job, Pending>, tried: set<Job>, j: Job)
    requires j in pending
    ensures Weight(pending, tried) == Weight(pending - {j}, tried) +
              (if j in tried then 0 else 1) + if pending[j].attempt.Theirs? then 1 else 0
  {
    if j !in tried {
      assert Untried(pending, tried) == Untried(pending - {j}, tried) + {j};
    } else {
      assert Untried(pending, tried) == Untried(pending - {j}, tried);
    }
    if pending[j].attempt.Theirs? {
      assert TheirsOf(pending) == TheirsOf(pending - {j}) + {j};
    } else {
      assert TheirsOf(pending) == TheirsOf(pending - {j});
    }
  }

  lemma WeightWith(pending: map<Job, Pending>, tried: set<Job>, j: Job, p: Pending)
    ensures Weight(pending[j := p], tried) == Weight(pending - {j}, tried) +
              (if j in tried then 0 else 1) + if p.attempt.Theirs? then 1 else 0
  {
    WeightWithout(pending[j := p], tried, j);
    UpdateWithout(pending, j, p);
  }

  lemma UpdateWithout(pending: map<Job, Pending>, j: Job, p: Pending)
    ensures pending[j := p] - {j} == pending - {j}
  {
  }

  /** What the others may have done to the cancellations of a guarded video: settled some, claimed some. */
  ghost predicate Shrunk(before: map<Job, Pending>, after: map<Job, Pending>, video: Option<Video>) {
    forall j: Job | j in after && video.Some? && after[j].video == video.value :: j in before && before[j].video == video.value
  }

  ghost predicate MineKept(before: map<Job, Pending>, after: map<Job, Pending>) {
    && (forall j: Job | j in before && before[j].attempt.Mine? :: j in after && after[j] == before[j])
    && (forall j: Job | j in after && after[j].attempt.Mine? :: j in before && before[j] == after[j])
  }

  ghost function MineOf(pending: map<Job, Pending>): set<Job> {
    set j | j in pending && pending[j].attempt.Mine?
  }

  ghost predicate NoneMine(pending: map<Job, Pending>) {
    forall j: Job | j in pending :: !pending[j].attempt.Mine?
  }

  class PendingCancels {
    var pending: map<Job, Pending>
    /** How much the others still do: cancellations they add and retries they start. */
    var left: nat

    constructor ()
      ensures pending == map[]
    {
      pending, left := map[], *;
    }

    /** cancelRun, after the provider refused. */
    method Add(job: Job, video: Video)
      modifies this`pending
      ensures pending == old(pending)[job := Pending(video, Free)]
    {
      pending := pending[job := Pending(video, Free)];
    }

    /** One step of another request.  Under the session lock of a video no one else adds to that video's. */
    method Other(video: Option<Video>, ghost tried: set<Job>)
      modifies this
      ensures Shrunk(old(pending), pending, video) && MineKept(old(pending), pending)
      ensures 2 * left + Weight(pending, tried) <= 2 * old(left) + old(Weight(pending, tried))
    {
      var j: nat, added: nat, resolved: bool := *, *, *;
      if j !in pending {
        if left > 0 && video != Some(added) {
          left := left - 1;
          Put(j, Pending(added, Free), tried);
        }
      } else if pending[j].attempt.Theirs? {
        Finish(j, resolved, tried);
      } else if pending[j].attempt.Free? && left > 0 {
        left := left - 1;
        Put(j, pending[j].(attempt := Theirs), tried);
      }
    }

    /** Adds a cancellation, or starts a retry of one. */
    method Put(j: Job, p: Pending, ghost tried: set<Job>)
      requires j in pending ==> pending[j] == p.(attempt := Free)
      modifies this`pending
      ensures pending == old(pending)[j := p]
      ensures Weight(pending, tried) <= old(Weight(pending, tried)) + 2
    {
      WeightWith(pending, tried, j, p);
      if j in pending {
        WeightWithout(pending, tried, j);
      } else {
        assert pending - {j} == pending;
      }
      pending := pending[j := p];
    }

    /** A retry of another request ends. */
    method Finish(j: Job, resolved: bool, ghost tried: set<Job>)
      requires j in pending && pending[j].attempt.Theirs?
      modifies this`pending
      ensures pending == if resolved then old(pending) - {j} else old(pending)[j := old(pending)[j].(attempt := Free)]
      ensures Weight(pending, tried) < old(Weight(pending, tried))
    {
      WeightWithout(pending, tried, j);
      if resolved {
        pending := pending - {j};
      } else {
        WeightWith(pending, tried, j, pending[j].(attempt := Free));
        pending := pending[j := pending[j].(attempt := Free)];
      }
    }

    method Others(video: Option<Video>, ghost tried: set<Job>)
      modifies this
      ensures Shrunk(old(pending), pending, video) && MineKept(old(pending), pending)
      ensures 2 * left + Weight(pending, tried) <= 2 * old(left) + old(Weight(pending, tried))
    {
      var n: nat := *;
      while n > 0
        invariant Shrunk(old(pending), pending, video) && MineKept(old(pending), pending)
        invariant 2 * left + Weight(pending, tried) <= 2 * old(left) + old(Weight(pending, tried))
      {
        Other(video, tried);
        n := n - 1;
      }
    }

    /** claimCancels: the free ones not tried yet are claimed, those under way are to be waited for. */
    method Claim(video: Option<Video>, tried: set<Job>) returns (claimed: set<Job>, busy: set<Job>)
      requires NoneMine(pending)
      modifies this`pending
      ensures claimed == set j | j in old(pending) && Matches(old(pending)[j], video) && old(pending)[j].attempt.Free? && j !in tried
      ensures busy == set j | j in old(pending) && Matches(old(pending)[j], video) && old(pending)[j].attempt.Theirs?
      ensures pending == Claimed(old(pending), claimed)
    {
      claimed, busy := {}, {};
      var rest := pending.Keys;
      while rest != {}
        invariant rest <= old(pending).Keys && pending == Claimed(old(pending), claimed)
        invariant claimed == set j | j in old(pending) && j !in rest && Matches(old(pending)[j], video) &&
                                     old(pending)[j].attempt.Free? && j !in tried
        invariant busy == set j | j in old(pending) && j !in rest && Matches(old(pending)[j], video) && old(pending)[j].attempt.Theirs?
      {
        var j :| j in rest;
        rest := rest - {j};
        if Matches(pending[j], video) {
          if pending[j].attempt.Theirs? {
            busy := busy + {j};
          } else if j !in tried {
            pending := pending[j := pending[j].(attempt := Mine)];
            claimed := claimed + {j};
          }
        }
      }
    }

    /** One attempt, with anything others do meanwhile. */
    method TryOne(j: Job, video: Option<Video>, ghost tried: set<Job>) returns (resolved: bool)
      requires j in pending && pending[j].attempt.Mine?
      modifies this
      ensures MineOf(pending) == MineOf(old(pending)) - {j} && Shrunk(old(pending), pending, video)
      ensures resolved ==> j !in pending
      ensures 2 * left + Weight(pending, tried) <= 2 * old(left) + old(Weight(pending, tried))
    {
      resolved := *;
      Others(video, tried);
      assert MineOf(pending) == MineOf(old(pending));
      Settle(j, resolved, tried);
    }

    /** attemptCancels: each claimed job is tried once and then let go of, or dropped when resolved. */
    method AttemptAll(claimed: set<Job>, video: Option<Video>, ghost tried: set<Job>) returns (failed: nat)
      requires claimed == MineOf(pending)
      modifies this
      ensures NoneMine(pending) && Shrunk(old(pending), pending, video)
      ensures failed == 0 ==> Gone(pending, claimed, video)
      ensures 2 * left + Weight(pending, tried) <= 2 * old(left) + old(Weight(pending, tried))
      ensures claimed == {} ==> pending == old(pending) && left == old(left)
    {
      failed := 0;
      var rest := claimed;
      while rest != {}
        invariant rest <= claimed
        invariant rest == MineOf(pending)
        invariant Shrunk(old(pending), pending, video)
        invariant failed == 0 ==> Gone(pending, claimed - rest, video)
        invariant claimed == {} ==> pending == old(pending) && left == old(left)
        invariant 2 * left + Weight(pending, tried) <= 2 * old(left) + old(Weight(pending, tried))
      {
        var j :| j in rest;
        var resolved := TryOne(j, video, tried);
        failed := if resolved then failed else failed + 1;
        rest := rest - {j};
      }
      forall k: Job | k in pending ensures !pending[k].attempt.Mine? {
        assert k !in MineOf(pending);
      }
    }

    /** attemptCancel, once the provider answered. */
    method Settle(j: Job, resolved: bool, ghost tried: set<Job>)
      requires j in pending && pending[j].attempt.Mine?
      modifies this`pending
      ensures pending == if resolved then old(pending) - {j} else old(pending)[j := old(pending)[j].(attempt := Free)]
      ensures Weight(pending, tried) <= old(Weight(pending, tried))
    {
      WeightWithout(pending, tried, j);
      if resolved {
        pending := pending - {j};
      } else {
        WeightWith(pending, tried, j, pending[j].(attempt := Free));
        pending := pending[j := pending[j].(attempt := Free)];
      }
    }

    /** Waits until the retry of a job has ended, if it is under way. */
    method WaitFor(j: Job, video: Option<Video>, ghost tried: set<Job>)
      requires NoneMine(pending)
      modifies this
      ensures NoneMine(pending) && Shrunk(old(pending), pending, video)
      ensures 2 * left + Weight(pending, tried) <= 2 * old(left) + old(Weight(pending, tried))
      ensures j in old(pending) && old(pending)[j].attempt.Theirs? ==>
                2 * left + Weight(pending, tried) < 2 * old(left) + old(Weight(pending, tried))
    {
      if j in pending && pending[j].attempt.Theirs? {
        var resolved: bool := *;
        Finish(j, resolved, tried);
      }
      Others(video, tried);
    }

    /** Waits until every retry that was under way has ended. */
    method Wait(busy: set<Job>, video: Option<Video>, ghost tried: set<Job>)
      requires NoneMine(pending) && busy != {}
      modifies this
      ensures NoneMine(pending) && Shrunk(old(pending), pending, video)
      ensures 2 * left + Weight(pending, tried) <= 2 * old(left) + old(Weight(pending, tried))
      ensures busy <= TheirsOf(old(pending)) ==> 2 * left + Weight(pending, tried) < 2 * old(left) + old(Weight(pending, tried))
    {
      var rest := busy;
      while rest != {}
        invariant rest <= busy && NoneMine(pending) && Shrunk(old(pending), pending, video)
        invariant 2 * left + Weight(pending, tried) <= 2 * old(left) + old(Weight(pending, tried))
        invariant if rest == busy then pending == old(pending)
                  else busy <= TheirsOf(old(pending)) ==>
                         2 * left + Weight(pending, tried) < 2 * old(left) + old(Weight(pending, tried))
      {
        var j :| j in rest;
        rest := rest - {j};
        WaitFor(j, video, tried);
      }
    }

    /**
     retryCancels: how many retries failed; a cancelled wait counts what it waited for.  Each job is tried at most
     once.  When none is left over, the guarded video has no pending cancellation.
     */
    method RetryCancels(video: Option<Video>, wait: bool) returns (remaining: nat)
      requires NoneMine(pending)
      modifies this
      ensures NoneMine(pending) && Shrunk(old(pending), pending, video)
      ensures wait && video.Some? && remaining == 0 ==> forall j: Job | j in pending :: pending[j].video != video.value
    {
      var tried: set<Job> := {};
      var claimed, busy: set<Job> := {}, {};
      remaining := 0;
      while true
        invariant NoneMine(pending) && Shrunk(old(pending), pending, video)
        invariant remaining == 0 ==> Gone(pending, tried, video)
        decreases 2 * left + Weight(pending, tried)
      {
        var failed;
        claimed, busy, failed := Round(video, tried);
        tried := tried + claimed;
        remaining := remaining + failed;
        if !wait || busy == {} {
          if claimed == {} {
            return;
          }
        } else {
          var cancelled: bool := *;
          if cancelled {
            remaining := remaining + |busy|;
            return;
          }
          Wait(busy, video, tried);
        }
      }
    }

    /** Claims and tries what can be; when that is nothing, nothing has changed. */
    method Round(video: Option<Video>, tried: set<Job>) returns (claimed: set<Job>, busy: set<Job>, failed: nat)
      requires NoneMine(pending)
      modifies this
      ensures NoneMine(pending) && Shrunk(old(pending), pending, video)
      ensures failed == 0 ==> Gone(pending, claimed, video)
      ensures if claimed == {} then pending == old(pending) && left == old(left)
              else 2 * left + Weight(pending, tried + claimed) < 2 * old(left) + old(Weight(pending, tried))
      ensures busy <= TheirsOf(old(pending))
      ensures claimed == {} && busy == {} ==> forall j: Job | j in pending && Matches(pending[j], video) :: j in tried
    {
      ghost var before := pending;
      claimed, busy := Claim(video, tried);
      ClaimedWeight(before, tried, claimed);
      ClaimedMine(before, claimed, video);
      failed := AttemptAll(claimed, video, tried + claimed);
    }
  }

  /** None of the jobs is pending for the video any more. */
  ghost predicate Gone(pending: map<Job, Pending>, jobs: set<Job>, video: Option<Video>) {
    video.Some? ==> forall j: Job | j in jobs && j in pending :: pending[j].video != video.value
  }

  function Claimed(pending: map<Job, Pending>, claimed: set<Job>): map<Job, Pending> {
    map j | j in pending :: if j in claimed then pending[j].(attempt := Mine) else pending[j]
  }

  lemma ClaimedWeight(pending: map<Job, Pending>, tried: set<Job>, claimed: set<Job>)
    requires forall j: Job | j in claimed :: j in pending && j !in tried && pending[j].attempt.Free?
    ensures Weight(Claimed(pending, claimed), tried + claimed) <= Weight(pending, tried)
    ensures if claimed == {} then Claimed(pending, claimed) == pending
            else Weight(Claimed(pending, claimed), tried + claimed) < Weight(pending, tried)
  {
    ClaimedTheirs(pending, claimed);
    Split(pending.Keys, tried, claimed);
    if claimed == {} {
      assert Claimed(pending, claimed) == pending;
    }
  }

  lemma ClaimedMine(pending: map<Job, Pending>, claimed: set<Job>, video: Option<Video>)
    requires NoneMine(pending) && claimed <= pending.Keys
    ensures MineOf(Claimed(pending, claimed)) == claimed && Shrunk(pending, Claimed(pending, claimed), video)
  {
  }

  lemma ClaimedTheirs(pending: map<Job, Pending>, claimed: set<Job>)
    requires forall j: Job | j in claimed :: j in pending && pending[j].attempt.Free?
    ensures TheirsOf(Claimed(pending, claimed)) == TheirsOf(pending) && Claimed(pending, claimed).Keys == pending.Keys
  {
  }

  lemma Split(all: set<Job>, tried: set<Job>, claimed: set<Job>)
    requires claimed <= all && claimed !! tried
    ensures |all - tried| == |all - (tried + claimed)| + |claimed|
  {
    assert all - tried == (all - (tried + claimed)) + claimed;
  }
}
