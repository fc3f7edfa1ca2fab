/**
 Thumbnail edit sessions: one live session per video, and provider cancellations that failed and are retried by
 sweeps and by the next run.  The machine interleaves requests, one step per critical section or provider call;
 job and session ids are fresh.  The provider may accept a job whose answer is lost, and ends jobs on its own.
 */
module ThumbnailEdits {
  import opened Options

  type Id = nat
  type Video = nat
  type Job = nat

  /** A cancellation the provider has not confirmed; attempt is the request that retries it now. */
  datatype Pending = Pending(video: Video, attempt: Option<nat>)

  /** What a request holds: a session lock, and while it retries cancellations, what it tried and how that went. */
  datatype Request =
    | Holding(id: Id)
    | Retrying(id: Id, tried: set<Job>, inflight: set<Job>, failed: nat)
    | Clear(id: Id)
    | Sweeping(tried: set<Job>, inflight: set<Job>)

  datatype State = State(
    sessions: map<Id, Video>,
    byID: set<Id>,
    byVideo: map<Video, Id>,
    locks: map<Id, nat>,
    runs: map<Id, Job>,
    pending: map<Job, Pending>,
    requests: map<nat, Request>,
    jobs: nat,
    provider: set<Job>,        // auxiliary: the jobs at the provider
    submitter: map<Job, Id>,   // auxiliary: the session that submitted a job
    strays: set<Job>)          // auxiliary: jobs whose answer was lost, or whose cancellation was given up

  const Init := State(map[], {}, map[], map[], map[], map[], map[], 0, {}, map[], {})

  /** What a submission comes to: a job, an error before there is one, or an error although there is one. */
  datatype Answer = Accepted | Refused | Lost

  /** What a retried cancellation comes to: confirmed, given up for its age, or still pending. */
  datatype Outcome = Confirmed | Abandoned | Unconfirmed

  datatype Step =
    | OnSessions(t: nat, session: SessionStep)
    | OnCancels(t: nat, cancel: CancelStep)
    | Ends(job: Job)

  datatype SessionStep =
    | Publish(id: Id, video: Video)
    | Lock(id: Id)
    | Unlock
    | End
    | FinishRun
    | Submit(answer: Answer)

  datatype CancelStep =
    | CancelRun(confirmed: bool)
    | BeginRetry
    | BeginSweep
    | Claim(job: Job)
    | Settle(job: Job, outcome: Outcome)
    | EndRetry
    | EndSweep

  predicate Holds(s: State, t: nat) {
    t in s.requests && s.requests[t].Holding?
  }

  /** The session t holds the lock of has not ended. */
  predicate HoldsLive(s: State, t: nat) {
    Holds(s, t) && s.requests[t].id in s.byID && s.requests[t].id in s.sessions
  }

  predicate OnSessionsEnabled(s: State, t: nat, step: SessionStep) {
    match step
    case Publish(id, video) => id !in s.sessions && video !in s.byVideo
    case Lock(id) => id in s.sessions && id !in s.locks && t !in s.requests
    case Unlock => t in s.requests && !s.requests[t].Sweeping?
                   && (s.requests[t].Retrying? ==> s.requests[t].inflight == {})
    case End => HoldsLive(s, t) && s.requests[t].id !in s.runs
    case FinishRun => HoldsLive(s, t) && s.requests[t].id in s.runs && s.runs[s.requests[t].id] !in s.provider
    case Submit(_) => t in s.requests && s.requests[t].Clear?
  }

  predicate Of(pending: map<Job, Pending>, j: Job, video: Video) {
    j in pending && pending[j].video == video
  }

  /** claimCancels found nothing to claim and nothing to wait for. */
  predicate NothingLeft(pending: map<Job, Pending>, video: Video, tried: set<Job>) {
    forall j | j in pending :: pending[j].video == video ==> pending[j].attempt.None? && j in tried
  }

  predicate Claims(s: State, t: nat, j: Job) {
    && j in s.pending && s.pending[j].attempt.None? && t in s.requests
    && (s.requests[t].Sweeping? || (s.requests[t].Retrying? && s.requests[t].id in s.sessions
                                    && s.pending[j].video == s.sessions[s.requests[t].id]))
    && j !in s.requests[t].tried
  }

  predicate OnCancelsEnabled(s: State, t: nat, step: CancelStep) {
    match step
    case CancelRun(_) => HoldsLive(s, t) && s.requests[t].id in s.runs
    case BeginRetry => HoldsLive(s, t) && s.requests[t].id !in s.runs
    case BeginSweep => t !in s.requests
    case Claim(j) => Claims(s, t, j)
    case Settle(j, _) => t in s.requests && (s.requests[t].Retrying? || s.requests[t].Sweeping?)
                         && j in s.requests[t].inflight && j in s.pending
    case EndRetry => t in s.requests && s.requests[t].Retrying? && s.requests[t].inflight == {}
                     && s.requests[t].id in s.sessions
                     && NothingLeft(s.pending, s.sessions[s.requests[t].id], s.requests[t].tried)
    case EndSweep => t in s.requests && s.requests[t].Sweeping? && s.requests[t].inflight == {}
  }

  predicate Enabled(s: State, step: Step) {
    match step
    case OnSessions(t, session) => OnSessionsEnabled(s, t, session)
    case OnCancels(t, cancel) => OnCancelsEnabled(s, t, cancel)
    case Ends(j) => j in s.provider
  }

  function NextSession(s: State, t: nat, step: SessionStep): State
    requires OnSessionsEnabled(s, t, step)
  {
    match step
    case Publish(id, video) =>
      s.(sessions := s.sessions[id := video], byID := s.byID + {id}, byVideo := s.byVideo[video := id])
    case Lock(id) => s.(locks := s.locks[id := t], requests := s.requests[t := Holding(id)])
    case Unlock => s.(locks := s.locks - {s.requests[t].id}, requests := s.requests - {t})
    case End =>
      var id := s.requests[t].id;
      var video := s.sessions[id];
      s.(byID := s.byID - {id}, byVideo := if video in s.byVideo && s.byVideo[video] == id then s.byVideo - {video} else s.byVideo)
    case FinishRun => s.(runs := s.runs - {s.requests[t].id})
    case Submit(answer) =>
      var id := s.requests[t].id;
      var held := s.(requests := s.requests[t := Holding(id)]);
      if answer.Refused? then held
      else
        var sent := held.(jobs := s.jobs + 1, provider := s.provider + {s.jobs}, submitter := s.submitter[s.jobs := id]);
        if answer.Accepted? then sent.(runs := s.runs[id := s.jobs]) else sent.(strays := s.strays + {s.jobs})
  }

  function Tried(r: Request, j: Job): Request
    requires r.Retrying? || r.Sweeping?
  {
    if r.Retrying? then Retrying(r.id, r.tried + {j}, r.inflight + {j}, r.failed)
    else Sweeping(r.tried + {j}, r.inflight + {j})
  }

  function Settled(r: Request, j: Job, resolved: bool): Request
    requires r.Retrying? || r.Sweeping?
  {
    if r.Retrying? then Retrying(r.id, r.tried, r.inflight - {j}, if resolved then r.failed else r.failed + 1)
    else Sweeping(r.tried, r.inflight - {j})
  }

  function NextCancel(s: State, t: nat, step: CancelStep): State
    requires OnCancelsEnabled(s, t, step)
  {
    match step
    case CancelRun(confirmed) =>
      var id := s.requests[t].id;
      s.(runs := s.runs - {id},
         provider := if confirmed then s.provider - {s.runs[id]} else s.provider,
         pending := if confirmed then s.pending else s.pending[s.runs[id] := Pending(s.sessions[id], None)])
    case BeginRetry => s.(requests := s.requests[t := Retrying(s.requests[t].id, {}, {}, 0)])
    case BeginSweep => s.(requests := s.requests[t := Sweeping({}, {})])
    case Claim(j) =>
      s.(pending := s.pending[j := s.pending[j].(attempt := Some(t))], requests := s.requests[t := Tried(s.requests[t], j)])
    case Settle(j, outcome) =>
      s.(pending := if outcome.Unconfirmed? then s.pending[j := s.pending[j].(attempt := None)] else s.pending - {j},
         provider := if outcome.Confirmed? then s.provider - {j} else s.provider,
         strays := if outcome.Abandoned? then s.strays + {j} else s.strays,
         requests := s.requests[t := Settled(s.requests[t], j, !outcome.Unconfirmed?)])
    case EndRetry =>
      var id := s.requests[t].id;
      s.(requests := s.requests[t := if s.requests[t].failed == 0 then Clear(id) else Holding(id)])
    case EndSweep => s.(requests := s.requests - {t})
  }

  function Next(s: State, step: Step): State
    requires Enabled(s, step)
  {
    match step
    case OnSessions(t, session) => NextSession(s, t, session)
    case OnCancels(t, cancel) => NextCancel(s, t, cancel)
    case Ends(j) => s.(provider := s.provider - {j})
  }

  // ---------------------------------------------------------------- what every step keeps

  /** Live sessions and their videos correspond one to one. */
  ghost predicate Paired(sessions: map<Id, Video>, byID: set<Id>, byVideo: map<Video, Id>) {
    && (forall id: Id | id in byID :: id in sessions && sessions[id] in byVideo && byVideo[sessions[id]] == id)
    && (forall v: Video | v in byVideo :: byVideo[v] in byID && byVideo[v] in sessions && sessions[byVideo[v]] == v)
  }

  ghost predicate Locked(locks: map<Id, nat>, requests: map<nat, Request>, sessions: map<Id, Video>) {
    forall t | t in requests && !requests[t].Sweeping? ::
      requests[t].id in locks && locks[requests[t].id] == t && requests[t].id in sessions
  }

  /** The provider may still run at most one job of a video: the live run, or one whose cancellation is pending. */
  ghost predicate OneJob(runs: map<Id, Job>, pending: map<Job, Pending>, sessions: map<Id, Video>) {
    && (forall i, j | i in pending && j in pending :: pending[i].video == pending[j].video ==> i == j)
    && (forall id: Id, j | id in runs && j in pending :: id in sessions && sessions[id] != pending[j].video)
  }

  ghost predicate RunsOk(runs: map<Id, Job>, byID: set<Id>, pending: map<Job, Pending>, jobs: nat) {
    && (forall id: Id | id in runs :: id in byID && runs[id] < jobs && runs[id] !in pending)
    && (forall id: Id, other: Id | id in runs && other in runs && id != other :: runs[id] != runs[other])
    && (forall j: Job | j in pending :: j < jobs)
  }

  /** What a request knows of the cancellations it deals with. */
  ghost predicate RequestOk(
    r: Request, t: nat, sessions: map<Id, Video>, byID: set<Id>, runs: map<Id, Job>, pending: map<Job, Pending>, jobs: nat) {
    match r
    case Holding(_) => true
    case Retrying(id, tried, inflight, failed) =>
      && id in byID && id in sessions && id !in runs
      && (forall j: Job | j in tried :: j < jobs)
      && (forall j: Job | j in inflight :: j in pending && pending[j].attempt == Some(t))
      && (failed == 0 ==> forall j: Job | j in tried :: Of(pending, j, sessions[id]) ==> j in inflight)
    case Clear(id) =>
      id in byID && id in sessions && id !in runs && forall j: Job | j in pending :: pending[j].video != sessions[id]
    case Sweeping(tried, inflight) =>
      forall j: Job | j in inflight :: j in pending && pending[j].attempt == Some(t)
  }

  ghost predicate RequestsOk(s: State) {
    forall t | t in s.requests :: RequestOk(s.requests[t], t, s.sessions, s.byID, s.runs, s.pending, s.jobs)
  }

  /** A job at the provider is the live run of its session, or pending cancellation, or nobody knows of it. */
  ghost predicate ProviderOk(s: State) {
    && (forall j: Job | j in s.provider :: j in s.submitter)
    && (forall j: Job | j in s.submitter :: j < s.jobs && s.submitter[j] in s.sessions)
    && (forall j: Job | j in s.pending :: j in s.submitter && s.pending[j].video == s.sessions[s.submitter[j]])
    && (forall id: Id | id in s.runs :: s.runs[id] in s.submitter && s.submitter[s.runs[id]] == id)
    && (forall j: Job | j in s.provider && j !in s.strays && j !in s.pending :: s.submitter[j] in s.runs && s.runs[s.submitter[j]] == j)
  }

  ghost predicate Inv(s: State) {
    ProviderOk(s) && Kept(s)
  }

  ghost predicate MapsOk(s: State) {
    && Paired(s.sessions, s.byID, s.byVideo)
    && Locked(s.locks, s.requests, s.sessions)
    && OneJob(s.runs, s.pending, s.sessions)
    && RunsOk(s.runs, s.byID, s.pending, s.jobs)
  }

  ghost predicate Kept(s: State) {
    MapsOk(s) && RequestsOk(s)
  }

  /** Two requests in sessions of one video, one of them live there, are the same. */
  lemma OneHolder(s: State, t: nat, u: nat)
    requires Kept(s) && t in s.requests && u in s.requests && !s.requests[t].Sweeping? && !s.requests[u].Sweeping?
    requires s.requests[t].id in s.byID && s.requests[u].id in s.byID
    requires s.sessions[s.requests[t].id] == s.sessions[s.requests[u].id]
    ensures t == u
  {
  }

  lemma PublishKeeps(s: State, t: nat, step: SessionStep)
    requires Kept(s) && OnSessionsEnabled(s, t, step) && step.Publish?
    ensures Kept(NextSession(s, t, step))
  {
    var n := NextSession(s, t, step);
    forall u | u in n.requests ensures RequestOk(n.requests[u], u, n.sessions, n.byID, n.runs, n.pending, n.jobs) {
      assert u in s.requests ==> RequestOk(s.requests[u], u, s.sessions, s.byID, s.runs, s.pending, s.jobs);
    }
  }

  lemma SessionMaps(s: State, t: nat, step: SessionStep)
    requires MapsOk(s) && OnSessionsEnabled(s, t, step) && !step.Submit? && !step.End? && !step.Publish?
    ensures MapsOk(NextSession(s, t, step))
  {
  }

  lemma SessionKeeps(s: State, t: nat, step: SessionStep)
    requires Kept(s) && OnSessionsEnabled(s, t, step) && !step.Submit? && !step.End? && !step.Publish?
    ensures Kept(NextSession(s, t, step))
  {
    var n := NextSession(s, t, step);
    SessionMaps(s, t, step);
    forall u | u in n.requests ensures RequestOk(n.requests[u], u, n.sessions, n.byID, n.runs, n.pending, n.jobs) {
      assert u in s.requests ==> RequestOk(s.requests[u], u, s.sessions, s.byID, s.runs, s.pending, s.jobs);
    }
  }

  lemma EndKeeps(s: State, t: nat)
    requires Kept(s) && OnSessionsEnabled(s, t, End)
    ensures Kept(NextSession(s, t, End))
  {
    var n := NextSession(s, t, End);
    forall u | u in n.requests ensures RequestOk(n.requests[u], u, n.sessions, n.byID, n.runs, n.pending, n.jobs) {
      assert RequestOk(s.requests[u], u, s.sessions, s.byID, s.runs, s.pending, s.jobs);
      if s.requests[u].Retrying? || s.requests[u].Clear? {
        assert u != t && s.requests[u].id != s.requests[t].id;
      }
    }
  }

  lemma SubmitMaps(s: State, t: nat, answer: Answer)
    requires Kept(s) && OnSessionsEnabled(s, t, Submit(answer))
    ensures MapsOk(NextSession(s, t, Submit(answer)))
  {
    assert RequestOk(s.requests[t], t, s.sessions, s.byID, s.runs, s.pending, s.jobs);
  }

  lemma SubmitRequest(s: State, t: nat, answer: Answer, u: nat)
    requires Locked(s.locks, s.requests, s.sessions) && OnSessionsEnabled(s, t, Submit(answer)) && u in s.requests && u != t
    requires RequestOk(s.requests[u], u, s.sessions, s.byID, s.runs, s.pending, s.jobs)
    ensures var n := NextSession(s, t, Submit(answer)); RequestOk(s.requests[u], u, n.sessions, n.byID, n.runs, n.pending, n.jobs)
  {
    if s.requests[u].Retrying? || s.requests[u].Clear? {
      assert s.requests[u].id != s.requests[t].id;
    }
  }

  lemma SubmitKeeps(s: State, t: nat, answer: Answer)
    requires Kept(s) && OnSessionsEnabled(s, t, Submit(answer))
    ensures Kept(NextSession(s, t, Submit(answer)))
  {
    var n := NextSession(s, t, Submit(answer));
    SubmitMaps(s, t, answer);
    forall u | u in n.requests ensures RequestOk(n.requests[u], u, n.sessions, n.byID, n.runs, n.pending, n.jobs) {
      if u != t {
        SubmitRequest(s, t, answer, u);
      }
    }
  }

  lemma CancelRunKeeps(s: State, t: nat, confirmed: bool)
    requires Kept(s) && OnCancelsEnabled(s, t, CancelRun(confirmed))
    ensures Kept(NextCancel(s, t, CancelRun(confirmed)))
  {
    var n := NextCancel(s, t, CancelRun(confirmed));
    var id := s.requests[t].id;
    forall u | u in n.requests ensures RequestOk(n.requests[u], u, n.sessions, n.byID, n.runs, n.pending, n.jobs) {
      assert RequestOk(s.requests[u], u, s.sessions, s.byID, s.runs, s.pending, s.jobs);
      if u != t && (s.requests[u].Retrying? || s.requests[u].Clear?) {
        assert s.sessions[s.requests[u].id] != s.sessions[id] by {
          if s.sessions[s.requests[u].id] == s.sessions[id] {
            OneHolder(s, t, u);
          }
        }
      }
    }
  }

  lemma ClaimMaps(s: State, t: nat, j: Job)
    requires MapsOk(s) && OnCancelsEnabled(s, t, Claim(j))
    ensures MapsOk(NextCancel(s, t, Claim(j)))
  {
  }

  lemma ClaimKeeps(s: State, t: nat, j: Job)
    requires Kept(s) && OnCancelsEnabled(s, t, Claim(j))
    ensures Kept(NextCancel(s, t, Claim(j)))
  {
    var n := NextCancel(s, t, Claim(j));
    ClaimMaps(s, t, j);
    assert j < s.jobs;
    forall u | u in n.requests ensures RequestOk(n.requests[u], u, n.sessions, n.byID, n.runs, n.pending, n.jobs) {
      ClaimRequest(s, t, j, u);
    }
  }

  lemma ClaimRequest(s: State, t: nat, j: Job, u: nat)
    requires OnCancelsEnabled(s, t, Claim(j)) && u in s.requests && j < s.jobs
    requires RequestOk(s.requests[u], u, s.sessions, s.byID, s.runs, s.pending, s.jobs)
    ensures var n := NextCancel(s, t, Claim(j)); RequestOk(n.requests[u], u, n.sessions, n.byID, n.runs, n.pending, n.jobs)
  {
  }

  lemma SettleMaps(s: State, t: nat, j: Job, outcome: Outcome)
    requires MapsOk(s) && OnCancelsEnabled(s, t, Settle(j, outcome))
    ensures MapsOk(NextCancel(s, t, Settle(j, outcome)))
  {
  }

  lemma SettleRequest(s: State, t: nat, j: Job, outcome: Outcome, u: nat)
    requires OnCancelsEnabled(s, t, Settle(j, outcome)) && u in s.requests
    requires RequestOk(s.requests[u], u, s.sessions, s.byID, s.runs, s.pending, s.jobs)
    requires RequestOk(s.requests[t], t, s.sessions, s.byID, s.runs, s.pending, s.jobs)
    ensures var n := NextCancel(s, t, Settle(j, outcome)); RequestOk(n.requests[u], u, n.sessions, n.byID, n.runs, n.pending, n.jobs)
  {
  }

  lemma SettleKeeps(s: State, t: nat, j: Job, outcome: Outcome)
    requires Kept(s) && OnCancelsEnabled(s, t, Settle(j, outcome))
    ensures Kept(NextCancel(s, t, Settle(j, outcome)))
  {
    var n := NextCancel(s, t, Settle(j, outcome));
    SettleMaps(s, t, j, outcome);
    forall u | u in n.requests ensures RequestOk(n.requests[u], u, n.sessions, n.byID, n.runs, n.pending, n.jobs) {
      SettleRequest(s, t, j, outcome, u);
    }
  }

  lemma RetryKeeps(s: State, t: nat, step: CancelStep)
    requires Kept(s) && OnCancelsEnabled(s, t, step)
    requires step.BeginRetry? || step.EndRetry?
    ensures Kept(NextCancel(s, t, step))
  {
    var n := NextCancel(s, t, step);
    forall u | u in n.requests ensures RequestOk(n.requests[u], u, n.sessions, n.byID, n.runs, n.pending, n.jobs) {
      assert u in s.requests ==> RequestOk(s.requests[u], u, s.sessions, s.byID, s.runs, s.pending, s.jobs);
    }
  }

  lemma SweepKeeps(s: State, t: nat, step: CancelStep)
    requires Kept(s) && OnCancelsEnabled(s, t, step)
    requires step.BeginSweep? || step.EndSweep?
    ensures Kept(NextCancel(s, t, step))
  {
    var n := NextCancel(s, t, step);
    forall u | u in n.requests ensures RequestOk(n.requests[u], u, n.sessions, n.byID, n.runs, n.pending, n.jobs) {
      assert u in s.requests ==> RequestOk(s.requests[u], u, s.sessions, s.byID, s.runs, s.pending, s.jobs);
    }
  }

  lemma KeptKeeps(s: State, step: Step)
    requires Kept(s) && Enabled(s, step)
    ensures Kept(Next(s, step))
  {
    match step
    case OnSessions(t, End) => EndKeeps(s, t);
    case OnSessions(t, Submit(answer)) => SubmitKeeps(s, t, answer);
    case OnSessions(t, session) => if session.Publish? { PublishKeeps(s, t, session); } else { SessionKeeps(s, t, session); }
    case OnCancels(t, CancelRun(confirmed)) => CancelRunKeeps(s, t, confirmed);
    case OnCancels(t, Claim(j)) => ClaimKeeps(s, t, j);
    case OnCancels(t, Settle(j, outcome)) => SettleKeeps(s, t, j, outcome);
    case OnCancels(t, cancel) => if cancel.BeginSweep? || cancel.EndSweep? { SweepKeeps(s, t, cancel); } else { RetryKeeps(s, t, cancel); }
    case Ends(j) => EndsKeeps(s, j);
  }

  lemma SessionProvides(s: State, t: nat, step: SessionStep)
    requires Inv(s) && OnSessionsEnabled(s, t, step) && !step.Submit?
    ensures ProviderOk(NextSession(s, t, step))
  {
  }

  lemma AcceptedProvides(s: State, t: nat)
    requires ProviderOk(s) && RunsOk(s.runs, s.byID, s.pending, s.jobs) && OnSessionsEnabled(s, t, Submit(Accepted))
    requires s.requests[t].id in s.sessions && s.requests[t].id !in s.runs
    ensures ProviderOk(NextSession(s, t, Submit(Accepted)))
  {
  }

  lemma LostProvides(s: State, t: nat)
    requires ProviderOk(s) && RunsOk(s.runs, s.byID, s.pending, s.jobs) && OnSessionsEnabled(s, t, Submit(Lost))
    requires s.requests[t].id in s.sessions
    ensures ProviderOk(NextSession(s, t, Submit(Lost)))
  {
  }

  lemma SubmitProvides(s: State, t: nat, answer: Answer)
    requires ProviderOk(s) && RunsOk(s.runs, s.byID, s.pending, s.jobs) && OnSessionsEnabled(s, t, Submit(answer))
    requires s.requests[t].id in s.sessions && s.requests[t].id !in s.runs
    ensures ProviderOk(NextSession(s, t, Submit(answer)))
  {
    match answer
    case Accepted => AcceptedProvides(s, t);
    case Lost => LostProvides(s, t);
    case Refused =>
  }

  lemma CancelRunProvides(s: State, t: nat, confirmed: bool)
    requires ProviderOk(s) && OnCancelsEnabled(s, t, CancelRun(confirmed))
    ensures ProviderOk(NextCancel(s, t, CancelRun(confirmed)))
  {
  }

  lemma SettleProvides(s: State, t: nat, j: Job, outcome: Outcome)
    requires ProviderOk(s) && OnCancelsEnabled(s, t, Settle(j, outcome))
    ensures ProviderOk(NextCancel(s, t, Settle(j, outcome)))
  {
  }

  lemma CancelProvides(s: State, t: nat, step: CancelStep)
    requires ProviderOk(s) && OnCancelsEnabled(s, t, step)
    ensures ProviderOk(NextCancel(s, t, step))
  {
    match step
    case CancelRun(confirmed) => CancelRunProvides(s, t, confirmed);
    case Settle(j, outcome) => SettleProvides(s, t, j, outcome);
    case _ =>
  }

  lemma StepKeeps(s: State, step: Step)
    requires Inv(s) && Enabled(s, step)
    ensures Inv(Next(s, step))
  {
    KeptKeeps(s, step);
    match step
    case OnSessions(t, Submit(answer)) =>
      assert RequestOk(s.requests[t], t, s.sessions, s.byID, s.runs, s.pending, s.jobs);
      SubmitProvides(s, t, answer);
    case OnSessions(t, session) => SessionProvides(s, t, session);
    case OnCancels(t, cancel) => CancelProvides(s, t, cancel);
    case Ends(j) =>
  }

  lemma EndsKeeps(s: State, j: Job)
    requires Kept(s)
    ensures Kept(s.(provider := s.provider - {j}))
  {
    var n := s.(provider := s.provider - {j});
    forall u | u in n.requests ensures RequestOk(n.requests[u], u, n.sessions, n.byID, n.runs, n.pending, n.jobs) {
      assert RequestOk(s.requests[u], u, s.sessions, s.byID, s.runs, s.pending, s.jobs);
    }
  }

  ghost predicate Run(states: seq<State>, steps: seq<Step>) {
    |states| == |steps| + 1 && states[0] == Init &&
    forall k | 0 <= k < |steps| :: Enabled(states[k], steps[k]) && states[k + 1] == Next(states[k], steps[k])
  }

  lemma {:induction false} RunKeeps(states: seq<State>, steps: seq<Step>, k: nat)
    requires Run(states, steps) && k < |states|
    ensures Inv(states[k])
  {
    if k > 0 {
      RunKeeps(states, steps, k - 1);
      StepKeeps(states[k - 1], steps[k - 1]);
    }
  }

  // ---------------------------------------------------------------- the theorems

  /** Each video has at most one live session, which the two maps agree on. */
  lemma OneSession(states: seq<State>, steps: seq<Step>, k: nat, a: Id, b: Id)
    requires Run(states, steps) && k < |states| && a in states[k].byID && b in states[k].byID
    ensures var s := states[k];
            a in s.sessions && b in s.sessions && (s.sessions[a] == s.sessions[b] ==> a == b) &&
            forall v: Video :: v in s.byVideo && s.byVideo[v] == a <==> v == s.sessions[a]
  {
    RunKeeps(states, steps, k);
  }

  /** A job is submitted only when no cancellation of the video is unconfirmed and unabandoned, and no run is live. */
  lemma SubmitsAlone(states: seq<State>, steps: seq<Step>, k: nat)
    requires Run(states, steps) && k < |steps| && steps[k].OnSessions? && steps[k].session.Submit?
    ensures var s := states[k];
            var id := s.requests[steps[k].t].id;
            && id in s.byID && id in s.sessions
            && (forall j: Job | j in s.pending :: s.pending[j].video != s.sessions[id])
            && (forall other: Id | other in s.runs :: other in s.sessions && s.sessions[other] != s.sessions[id])
  {
    RunKeeps(states, steps, k);
    var s := states[k];
    assert RequestOk(s.requests[steps[k].t], steps[k].t, s.sessions, s.byID, s.runs, s.pending, s.jobs);
  }

  /** The jobs of a video that are live runs or pending cancellation. */
  ghost function Unsettled(s: State, video: Video): set<Job> {
    (set id: Id | id in s.runs && id in s.sessions && s.sessions[id] == video :: s.runs[id]) +
    (set j: Job | j in s.pending && s.pending[j].video == video)
  }

  /** The process knows of at most one job of a video. */
  lemma OneKnownJob(states: seq<State>, steps: seq<Step>, k: nat, video: Video, i: Job, j: Job)
    requires Run(states, steps) && k < |states|
    requires i in Unsettled(states[k], video) && j in Unsettled(states[k], video)
    ensures i == j
  {
    RunKeeps(states, steps, k);
  }

  // ---------------------------------------------------------------- at the provider

  predicate JobOf(s: State, j: Job, video: Video) {
    j in s.provider && j in s.submitter && s.submitter[j] in s.sessions && s.sessions[s.submitter[j]] == video
  }

  /** The provider has at most one job of the video. */
  ghost predicate AtMostOne(s: State, video: Video) {
    forall i: Job, j: Job | JobOf(s, i, video) && JobOf(s, j, video) :: i == j
  }

  /** A job of the video is sent. */
  predicate Sends(s: State, step: Step, video: Video) {
    && step.OnSessions? && step.session.Submit? && !step.session.answer.Refused?
    && step.t in s.requests && s.requests[step.t].Clear? && s.requests[step.t].id in s.sessions
    && s.sessions[s.requests[step.t].id] == video
  }

  /** A job of the video whose answer was lost, or whose cancellation was given up, is still at the provider. */
  ghost predicate HasStray(s: State, video: Video) {
    exists j: Job :: j in s.strays && JobOf(s, j, video)
  }

  lemma OthersAddNone(s: State, step: Step, video: Video, j: Job)
    requires Inv(s) && Enabled(s, step) && !Sends(s, step, video) && JobOf(Next(s, step), j, video)
    ensures JobOf(s, j, video)
  {
    match step
    case OnSessions(t, Submit(answer)) => RefusedAddsNone(s, t, answer, video, j);
    case OnSessions(t, session) => SessionAddsNone(s, t, session, video, j);
    case OnCancels(t, cancel) => CancelAddsNone(s, t, cancel, video, j);
    case Ends(_) =>
  }

  lemma CancelAddsNone(s: State, t: nat, step: CancelStep, video: Video, j: Job)
    requires OnCancelsEnabled(s, t, step) && JobOf(NextCancel(s, t, step), j, video)
    ensures JobOf(s, j, video)
  {
  }

  lemma RefusedAddsNone(s: State, t: nat, answer: Answer, video: Video, j: Job)
    requires Inv(s) && OnSessionsEnabled(s, t, Submit(answer)) && JobOf(NextSession(s, t, Submit(answer)), j, video)
    requires !Sends(s, OnSessions(t, Submit(answer)), video)
    ensures JobOf(s, j, video)
  {
    assert RequestOk(s.requests[t], t, s.sessions, s.byID, s.runs, s.pending, s.jobs);
  }

  lemma SessionAddsNone(s: State, t: nat, step: SessionStep, video: Video, j: Job)
    requires ProviderOk(s) && OnSessionsEnabled(s, t, step) && !step.Submit? && JobOf(NextSession(s, t, step), j, video)
    ensures JobOf(s, j, video)
  {
  }

  lemma SendsAlone(s: State, step: Step, video: Video, j: Job)
    requires Inv(s) && Enabled(s, step) && Sends(s, step, video) && JobOf(s, j, video)
    ensures j in s.strays && j != s.jobs && JobOf(Next(s, step), j, video) && JobOf(Next(s, step), s.jobs, video)
  {
    assert RequestOk(s.requests[step.t], step.t, s.sessions, s.byID, s.runs, s.pending, s.jobs);
  }

  lemma SendsOne(s: State, step: Step, video: Video, j: Job)
    requires Inv(s) && Enabled(s, step) && Sends(s, step, video) && JobOf(Next(s, step), j, video)
    ensures j == s.jobs || JobOf(s, j, video)
  {
  }

  lemma {:induction false} StaysAtMostOne(states: seq<State>, steps: seq<Step>, k: nat, video: Video)
    requires Run(states, steps) && k < |states|
    requires forall n | 0 <= n < |steps| && Sends(states[n], steps[n], video) :: !HasStray(states[n], video)
    ensures AtMostOne(states[k], video)
  {
    if k > 0 {
      var s, step := states[k - 1], steps[k - 1];
      StaysAtMostOne(states, steps, k - 1, video);
      RunKeeps(states, steps, k - 1);
      AtMostOneStep(s, step, video);
    }
  }

  lemma AtMostOneStep(s: State, step: Step, video: Video)
    requires Inv(s) && Enabled(s, step) && AtMostOne(s, video) && (Sends(s, step, video) ==> !HasStray(s, video))
    ensures AtMostOne(Next(s, step), video)
  {
    var n := Next(s, step);
    forall j: Job | JobOf(n, j, video) ensures if Sends(s, step, video) then j == s.jobs else JobOf(s, j, video) {
      if Sends(s, step, video) {
        SendsOne(s, step, video, j);
        if JobOf(s, j, video) {
          SendsAlone(s, step, video, j);
          assert HasStray(s, video);
        }
      } else {
        OthersAddNone(s, step, video, j);
      }
    }
  }

  /**
   All through a run the provider has at most one job of a video if and only if no job of it is sent while an earlier
   one, whose answer was lost or whose cancellation was given up, is still there.
   */
  lemma AtMostOneExactly(states: seq<State>, steps: seq<Step>, video: Video)
    requires Run(states, steps)
    ensures (forall k | 0 <= k < |states| :: AtMostOne(states[k], video)) <==>
            (forall k | 0 <= k < |steps| && Sends(states[k], steps[k], video) :: !HasStray(states[k], video))
  {
    if forall k | 0 <= k < |steps| && Sends(states[k], steps[k], video) :: !HasStray(states[k], video) {
      forall k | 0 <= k < |states| ensures AtMostOne(states[k], video) {
        StaysAtMostOne(states, steps, k, video);
      }
    } else {
      var k :| 0 <= k < |steps| && Sends(states[k], steps[k], video) && HasStray(states[k], video);
      var j: Job :| j in states[k].strays && JobOf(states[k], j, video);
      RunKeeps(states, steps, k);
      SendsAlone(states[k], steps[k], video, j);
      assert !AtMostOne(states[k + 1], video);
    }
  }

  lemma Then(states: seq<State>, steps: seq<Step>, step: Step) returns (more: seq<State>, taken: seq<Step>)
    requires Run(states, steps) && Enabled(states[|steps|], step)
    ensures Run(more, taken) && more[|taken|] == Next(states[|steps|], step)
  {
    more, taken := states + [Next(states[|steps|], step)], steps + [step];
    forall k | 0 <= k < |taken| ensures Enabled(more[k], taken[k]) && more[k + 1] == Next(more[k], taken[k]) {
      assert k < |steps| ==> more[k] == states[k] && more[k + 1] == states[k + 1] && taken[k] == steps[k];
    }
  }

  /** A session of video 5 and a request that may submit; a job of it may be at the provider, its answer lost. */
  function Sending(request: Request, lost: bool): State {
    State(map[1 := 5], {1}, map[5 := 1], map[1 := 9], map[], map[], map[9 := request], if lost then 1 else 0,
          if lost then {0} else {}, if lost then map[0 := 1] else map[], if lost then {0} else {})
  }

  lemma ReachSending() returns (states: seq<State>, steps: seq<Step>)
    ensures Run(states, steps) && states[|steps|] == Sending(Holding(1), false)
  {
    states, steps := [Init], [];
    states, steps := Then(states, steps, OnSessions(9, Publish(1, 5)));
    states, steps := Then(states, steps, OnSessions(9, Lock(1)));
  }

  lemma Retries(states: seq<State>, steps: seq<Step>, lost: bool) returns (more: seq<State>, taken: seq<Step>)
    requires Run(states, steps) && states[|steps|] == Sending(Holding(1), lost)
    ensures Run(more, taken) && more[|taken|] == Sending(Clear(1), lost)
  {
    more, taken := Then(states, steps, OnCancels(9, BeginRetry));
    assert more[|taken|] == Sending(Retrying(1, {}, {}, 0), lost);
    more, taken := Then(more, taken, OnCancels(9, EndRetry));
  }

  /** A submission that the provider accepted and the process took for failed, and the next one beside it. */
  lemma LostAnswerDoubles() returns (states: seq<State>, steps: seq<Step>)
    ensures Run(states, steps) && !AtMostOne(states[|steps|], 5)
  {
    states, steps := ReachSending();
    states, steps := Retries(states, steps, false);
    states, steps := Then(states, steps, OnSessions(9, Submit(Lost)));
    assert states[|steps|] == Sending(Holding(1), true);
    states, steps := Retries(states, steps, true);
    states, steps := Then(states, steps, OnSessions(9, Submit(Accepted)));
    assert JobOf(states[|steps|], 0, 5) && JobOf(states[|steps|], 1, 5);
  }

  /** A pending cancellation has at most one retry in flight. */
  lemma OneRetry(states: seq<State>, steps: seq<Step>, k: nat, t: nat, u: nat, j: Job)
    requires Run(states, steps) && k < |states| && t in states[k].requests && u in states[k].requests
    requires InFlight(states[k].requests[t], j) && InFlight(states[k].requests[u], j)
    ensures t == u && j in states[k].pending && states[k].pending[j].attempt == Some(t)
  {
    RunKeeps(states, steps, k);
    var s := states[k];
    assert RequestOk(s.requests[t], t, s.sessions, s.byID, s.runs, s.pending, s.jobs);
    assert RequestOk(s.requests[u], u, s.sessions, s.byID, s.runs, s.pending, s.jobs);
  }

  predicate InFlight(r: Request, j: Job) {
    (r.Retrying? || r.Sweeping?) && j in r.inflight
  }
}
