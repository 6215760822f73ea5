/**
 * The job orchestration of the playground as pure steps over one record of
 * console state. `handleGenerate` and `pollJobStatus` are split at their
 * `await`s; what the backend answers is a parameter of the step that
 * consumes it. The pending `setTimeout` is the `timer` field: at most one
 * exists, and it remembers its delay and the job it will poll.
 */
module Playground {
  import opened Wrappers
  import opened JsText
  import opened Api
  import opened Request
  import Effects
  import Elapsed

  /** Poll delay after a job document that is still in progress, in milliseconds. */
  const PollDelay: nat := 15000
  /** Poll delay after a rejected status request, in milliseconds. */
  const RetryDelay: nat := 5000

  const SourceUrlRequired := "Source URL is required"
  const OperationFailed := "Operation failed"

  datatype Hardware = Cpu | Gpu

  /** A scheduled `pollJobStatus(jobId)` call. */
  datatype Timer = Timer(delay: nat, jobId: string)

  /** The clip shown in the preview player. */
  datatype ClipRef = ClipRef(url: string, id: string)

  datatype Console = Console(
    form: Form,
    hardware: Hardware,
    isGenerating: bool,
    currentJob: Option<JobResponse>,
    liveElapsed: nat,
    error: string,
    selectedClip: Option<ClipRef>,
    timer: Option<Timer>)

  const InitialConsole := Console(InitialForm, Cpu, false, None, 0, "", None, None)

  /**
   * The console keeps at most one pending poll, and only while a job is being
   * generated and its document is on screen.
   */
  predicate PollingInvariant(s: Console) {
    s.timer.Some? ==> s.isGenerating && s.currentJob.Some?
  }

  /**
   * The synchronous part of `handleGenerate`: a blank source URL only sets the
   * error; otherwise the job display is reset and the request is built.
   */
  function StartGenerate(s: Console): (r: (Console, Option<GenerateRequest>))
    ensures IsBlank(s.form.sourceUrl) ==> r.1.None? && r.0 == s.(error := SourceUrlRequired)
    ensures !IsBlank(s.form.sourceUrl) ==>
      && r.1 == Some(BuildRequest(s.form))
      && r.0.isGenerating && r.0.currentJob.None? && r.0.liveElapsed == 0 && r.0.error == ""
      && r.0.form == s.form && r.0.hardware == s.hardware
      && r.0.selectedClip == s.selectedClip && r.0.timer == s.timer
    ensures r.1.Some? ==> !IsBlank(r.1.value.source_url) && WellFormed(r.1.value)
  {
    if Trim(s.form.sourceUrl) == "" then
      (s.(error := SourceUrlRequired), None)
    else
      BuildRequestRoundTrip(s.form);
      (s.(error := "", isGenerating := true, currentJob := None, liveElapsed := 0), Some(BuildRequest(s.form)))
  }

  /**
   * `startGeneration` resolved: the response becomes the current job and a poll
   * of its id starts at once; the id to poll is the second component.
   */
  function SubmitSucceeded(s: Console, response: JobResponse): (r: (Console, string))
    ensures r.0 == s.(currentJob := Some(response))
    ensures r.1 == response.job_id
    ensures PollingInvariant(s) ==> PollingInvariant(r.0)
  {
    (s.(currentJob := Some(response)), response.job_id)
  }

  /** `startGeneration` rejected: show the server's detail or the generic text, stop generating. */
  function SubmitFailed(s: Console, detail: Option<string>): (r: Console)
    ensures !r.isGenerating
    ensures r.error != ""
    ensures detail.Some? && detail.value != "" ==> r.error == detail.value
    ensures detail.None? || detail.value == "" ==> r.error == OperationFailed
    ensures r.(error := s.error, isGenerating := s.isGenerating) == s
    ensures PollingInvariant(s) && s.currentJob.None? ==> PollingInvariant(r)
  {
    s.(error := OrElse(detail, OperationFailed), isGenerating := false)
  }

  /** The first clip of a completed job, if the job carries any clips. */
  function FirstClip(job: JobResponse): (r: Option<ClipRef>)
    ensures r.Some? <==>
      job.result.Some? && job.result.value.clips.Some? && |job.result.value.clips.value| > 0
    ensures r.Some? ==>
      r.value.url == job.result.value.clips.value[0].download_url &&
      r.value.id == job.result.value.clips.value[0].clip_id
  {
    if job.result.Some? && job.result.value.clips.Some? && |job.result.value.clips.value| > 0 then
      var c := job.result.value.clips.value[0];
      Some(ClipRef(c.download_url, c.clip_id))
    else None
  }

  /**
   * `pollJobStatus(jobId)` after its status request settles. A job document
   * replaces the current job and, when it reports a non-zero elapsed time,
   * the live counter; a terminal status stops polling and generation and,
   * for `completed`, selects the first clip; any other status schedules the
   * next poll. A rejected request only schedules a retry.
   */
  function PollResolved(s: Console, jobId: string, outcome: PollOutcome): (r: Console)
    ensures outcome.RequestFailed? ==> r == s.(timer := Some(Timer(RetryDelay, jobId)))
    ensures outcome.Fetched? ==> r.currentJob == Some(outcome.job)
    ensures outcome.Fetched? && outcome.job.status.IsTerminal() ==> r.timer.None? && !r.isGenerating
    ensures outcome.Fetched? && !outcome.job.status.IsTerminal() ==>
      r.timer == Some(Timer(PollDelay, jobId)) && r.isGenerating == s.isGenerating
    ensures r.selectedClip ==
      if outcome.Fetched? && outcome.job.status == Completed && FirstClip(outcome.job).Some?
      then FirstClip(outcome.job) else s.selectedClip
    ensures r.liveElapsed ==
      if outcome.Fetched? && outcome.job.elapsed.Some? && outcome.job.elapsed.value != 0
      then outcome.job.elapsed.value else s.liveElapsed
    ensures r.form == s.form && r.hardware == s.hardware && r.error == s.error
    ensures PollingInvariant(s) && s.isGenerating && s.currentJob.Some? ==> PollingInvariant(r)
  {
    match outcome
    case RequestFailed =>
      s.(timer := Some(Timer(RetryDelay, jobId)))
    case Fetched(job) =>
      var s1 := s.(currentJob := Some(job));
      var s2 := if job.elapsed.Some? && job.elapsed.value != 0 then s1.(liveElapsed := job.elapsed.value) else s1;
      if job.status.IsTerminal() then
        var s3 := StopPolling(s2).(isGenerating := false);
        if job.status == Completed && FirstClip(job).Some? then s3.(selectedClip := FirstClip(job)) else s3
      else
        s2.(timer := Some(Timer(PollDelay, jobId)))
  }

  /** `stopPolling`: forget the pending poll, if any; nothing else changes. */
  function StopPolling(s: Console): (r: Console)
    ensures r.timer.None?
    ensures r.(timer := s.timer) == s
  {
    s.(timer := None)
  }

  /** The pending timer goes off: its poll starts, and no timer is pending until it settles. */
  function FireTimer(s: Console): (r: (Console, Option<string>))
    ensures r.0.timer.None?
    ensures r.0.(timer := s.timer) == s
    ensures r.1.Some? <==> s.timer.Some?
    ensures s.timer.Some? ==> r.1.value == s.timer.value.jobId
  {
    match s.timer
    case None => (s, None)
    case Some(t) => (s.(timer := None), Some(t.jobId))
  }

  /** The one-second ticker runs while generating a job that is queued or processing. */
  predicate TickerRunning(s: Console) {
    s.isGenerating && s.currentJob.Some? && !s.currentJob.value.status.IsTerminal()
  }

  /** One tick of the live elapsed counter. */
  function Tick(s: Console): (r: Console)
    ensures TickerRunning(s) ==> r.liveElapsed == s.liveElapsed + 1
    ensures !TickerRunning(s) ==> r == s
    ensures r.(liveElapsed := s.liveElapsed) == s
  {
    if TickerRunning(s) then s.(liveElapsed := s.liveElapsed + 1) else s
  }

  /** The elapsed readout: the server's figure once completed, otherwise the live counter. */
  function ElapsedReadout(s: Console): (r: string)
    requires s.currentJob.Some?
    ensures Elapsed.ParseElapsed(r).Some?
    ensures s.currentJob.value.status != Completed ==>
      Elapsed.ParseElapsed(r).value.Total() == s.liveElapsed
    ensures s.currentJob.value.status == Completed ==>
      Elapsed.ParseElapsed(r).value.Total() == s.currentJob.value.elapsed.GetOr(0)
    ensures var n := if s.currentJob.value.status == Completed then s.currentJob.value.elapsed.GetOr(0) else s.liveElapsed;
      Elapsed.ParseElapsed(r) ==
        Some(if n >= 60 then Elapsed.Reading(Some(n / 60), n % 60) else Elapsed.Reading(None, n))
  {
    var shown := if s.currentJob.value.status == Completed then s.currentJob.value.elapsed else Some(s.liveElapsed);
    Elapsed.FormatElapsedReadsBack(shown.GetOr(0));
    assert Elapsed.FormatElapsed(shown) == Elapsed.FormatElapsed(Some(shown.GetOr(0)));
    Elapsed.FormatElapsed(shown)
  }

  /** The account tiers that may pick the GPU cluster. */
  predicate GpuTier(user: Option<User>) {
    user.Some? && user.value.tier in {"Pro", "Premium", "Scale", "Enterprise"}
  }

  /** The GPU button: takes effect only for a GPU tier; nothing else changes. */
  function ChooseGpu(s: Console, user: Option<User>): (r: Console)
    ensures r.hardware == if GpuTier(user) then Gpu else s.hardware
    ensures r.(hardware := s.hardware) == s
  {
    if GpuTier(user) then s.(hardware := Gpu) else s
  }

  /** The CPU button always takes effect. */
  function ChooseCpu(s: Console): (r: Console)
    ensures r.hardware == Cpu
    ensures r.(hardware := s.hardware) == s
  {
    s.(hardware := Cpu)
  }

  /** The hardware choice respects the account: the GPU is chosen only by a GPU tier. */
  predicate HardwareAllowed(s: Console, user: Option<User>) {
    s.hardware == Gpu ==> GpuTier(user)
  }

  /**
   * Neither hardware button can put a console into a choice its account may
   * not make, and the GPU button is inert for other tiers.
   */
  lemma HardwareButtonsKeepAllowed(s: Console, user: Option<User>)
    requires HardwareAllowed(s, user)
    ensures HardwareAllowed(ChooseGpu(s, user), user)
    ensures HardwareAllowed(ChooseCpu(s), user)
    ensures !GpuTier(user) ==> ChooseGpu(s, user).hardware == Cpu
  {
  }

  /** While the ticker runs, each tick moves the elapsed readout on by one second. */
  lemma TickAdvancesReadout(s: Console)
    requires TickerRunning(s)
    ensures Elapsed.ParseElapsed(ElapsedReadout(Tick(s))).value.Total() ==
      Elapsed.ParseElapsed(ElapsedReadout(s)).value.Total() + 1
  {
  }

  /** An effect button: toggles the effect id in the form's selection. */
  function ToggleEffect(s: Console, id: Effects.EffectId): (r: Console)
    ensures id in r.form.selectedEffects <==> id !in s.form.selectedEffects
    ensures forall y :: y != id ==> (y in r.form.selectedEffects <==> y in s.form.selectedEffects)
    ensures id !in s.form.selectedEffects ==> r.form.selectedEffects == s.form.selectedEffects + [id]
    ensures id in s.form.selectedEffects ==> r.form.selectedEffects == Effects.Without(s.form.selectedEffects, id)
    ensures r.(form := s.form) == s
    ensures r.form.(selectedEffects := s.form.selectedEffects) == s.form
  {
    s.(form := s.form.(selectedEffects := Effects.Toggle(s.form.selectedEffects, id)))
  }

  /** A terminal job document. */
  predicate IsTerminalFetch(o: PollOutcome) {
    o.Fetched? && o.job.status.IsTerminal()
  }

  /**
   * The poll chain of one job: the poll of `jobId` settles with `outcomes[0]`;
   * while that leaves a timer pending, the timer fires and the next poll
   * settles with the next outcome. The state after the last outcome keeps its
   * pending timer, if any. Ticks in between are not modelled here.
   */
  function RunPolls(s: Console, jobId: string, outcomes: seq<PollOutcome>): (r: Console)
    ensures r.form == s.form && r.hardware == s.hardware && r.error == s.error
    ensures |outcomes| > 0 && r.timer.Some? ==> r.timer.value.jobId == jobId
    ensures PollingInvariant(s) && s.isGenerating && s.currentJob.Some? ==> PollingInvariant(r)
    decreases |outcomes|
  {
    if |outcomes| == 0 then s
    else
      var s1 := PollResolved(s, jobId, outcomes[0]);
      if |outcomes| == 1 then s1
      else match s1.timer
      case None => s1
      case Some(t) => RunPolls(FireTimer(s1).0, t.jobId, outcomes[1..])
  }

  /** The job document of the last fetched outcome, or `fallback` when none was fetched. */
  function LastJob(outcomes: seq<PollOutcome>, fallback: Option<JobResponse>): Option<JobResponse>
    decreases |outcomes|
  {
    if |outcomes| == 0 then fallback
    else
      var last := outcomes[|outcomes| - 1];
      if last.Fetched? then Some(last.job) else LastJob(outcomes[..|outcomes| - 1], fallback)
  }

  lemma {:induction false} LastJobStep(outcomes: seq<PollOutcome>, fallback: Option<JobResponse>)
    requires |outcomes| > 0
    ensures LastJob(outcomes, fallback) ==
      LastJob(outcomes[1..], if outcomes[0].Fetched? then Some(outcomes[0].job) else fallback)
    decreases |outcomes|
  {
    if |outcomes| > 1 {
      var init := outcomes[..|outcomes| - 1];
      assert init[1..] == outcomes[1..][..|outcomes[1..]| - 1];
      assert init[0] == outcomes[0];
      LastJobStep(init, fallback);
    } else {
      assert outcomes[1..] == [];
    }
  }

  /**
   * While every outcome is a rejected request or an in-progress job, polling
   * goes on: exactly one poll of the same job is pending, 15 s after a job
   * document and 5 s after a rejected request; generation and the selected
   * clip are untouched, and the current job is the last document fetched.
   */
  lemma {:induction false} RunPollsInProgress(s: Console, jobId: string, outcomes: seq<PollOutcome>)
    requires |outcomes| > 0
    requires forall i | 0 <= i < |outcomes| :: !IsTerminalFetch(outcomes[i])
    ensures RunPolls(s, jobId, outcomes).timer ==
      Some(Timer(if outcomes[|outcomes| - 1].Fetched? then PollDelay else RetryDelay, jobId))
    ensures RunPolls(s, jobId, outcomes).isGenerating == s.isGenerating
    ensures RunPolls(s, jobId, outcomes).selectedClip == s.selectedClip
    ensures RunPolls(s, jobId, outcomes).currentJob == LastJob(outcomes, s.currentJob)
    decreases |outcomes|
  {
    var s1 := PollResolved(s, jobId, outcomes[0]);
    assert !IsTerminalFetch(outcomes[0]);
    assert s1.timer.Some? && s1.timer.value.jobId == jobId;
    LastJobStep(outcomes, s.currentJob);
    if |outcomes| == 1 {
      assert outcomes[1..] == [];
    } else {
      var rest := outcomes[1..];
      assert forall i | 0 <= i < |rest| :: !IsTerminalFetch(rest[i]) by {
        forall i | 0 <= i < |rest| ensures !IsTerminalFetch(rest[i]) {
          assert rest[i] == outcomes[i + 1];
        }
      }
      RunPollsInProgress(FireTimer(s1).0, jobId, rest);
      assert rest[|rest| - 1] == outcomes[|outcomes| - 1];
    }
  }

  /**
   * The first terminal document ends the chain: no poll is pending, generation
   * is over, the current job is that document, later outcomes are never used,
   * and the selected clip is the first clip of a completed job with clips,
   * otherwise the one selected before polling began.
   */
  lemma {:induction false} RunPollsStopsAtTerminal(s: Console, jobId: string, outcomes: seq<PollOutcome>, k: nat)
    requires k < |outcomes| && IsTerminalFetch(outcomes[k])
    requires forall i | 0 <= i < k :: !IsTerminalFetch(outcomes[i])
    ensures RunPolls(s, jobId, outcomes) == RunPolls(s, jobId, outcomes[..k + 1])
    ensures RunPolls(s, jobId, outcomes).timer.None?
    ensures !RunPolls(s, jobId, outcomes).isGenerating
    ensures RunPolls(s, jobId, outcomes).currentJob == Some(outcomes[k].job)
    ensures RunPolls(s, jobId, outcomes).selectedClip ==
      if outcomes[k].job.status == Completed && FirstClip(outcomes[k].job).Some?
      then FirstClip(outcomes[k].job) else s.selectedClip
    decreases k
  {
    var s1 := PollResolved(s, jobId, outcomes[0]);
    if k == 0 {
      assert s1.timer.None?;
    } else {
      assert !IsTerminalFetch(outcomes[0]);
      assert s1.timer == Some(Timer(if outcomes[0].Fetched? then PollDelay else RetryDelay, jobId));
      var rest := outcomes[1..];
      assert forall i | 0 <= i < k - 1 :: !IsTerminalFetch(rest[i]) by {
        forall i | 0 <= i < k - 1 ensures !IsTerminalFetch(rest[i]) {
          assert rest[i] == outcomes[i + 1];
        }
      }
      assert rest[k - 1] == outcomes[k];
      RunPollsStopsAtTerminal(FireTimer(s1).0, jobId, rest, k - 1);
      assert outcomes[..k + 1][1..] == rest[..k];
      assert outcomes[..k + 1][0] == outcomes[0];
    }
  }

  /** Once the poll chain meets a terminal document the ticker is stopped: ticks change nothing. */
  lemma TickerStopsAtTerminal(s: Console, jobId: string, outcomes: seq<PollOutcome>, k: nat)
    requires k < |outcomes| && IsTerminalFetch(outcomes[k])
    requires forall i | 0 <= i < k :: !IsTerminalFetch(outcomes[i])
    ensures !TickerRunning(RunPolls(s, jobId, outcomes))
    ensures Tick(RunPolls(s, jobId, outcomes)) == RunPolls(s, jobId, outcomes)
  {
    RunPollsStopsAtTerminal(s, jobId, outcomes, k);
  }

  /**
   * The console as first shown: CPU, nothing generating, no poll pending, the
   * ticker stopped, and an empty source URL, so the generate button only
   * reports that a source URL is required.
   */
  lemma InitialConsoleIdle()
    ensures PollingInvariant(InitialConsole)
    ensures InitialConsole.hardware == Cpu && InitialConsole.timer.None?
    ensures !TickerRunning(InitialConsole) && Tick(InitialConsole) == InitialConsole
    ensures StartGenerate(InitialConsole) == (InitialConsole.(error := SourceUrlRequired), None)
    ensures forall u :: HardwareAllowed(InitialConsole, u)
  {
  }

  /**
   * With the generate button enabled (not generating), no poll is pending, and
   * starting a job keeps it that way until the submission settles.
   */
  lemma StartGenerateFromIdle(s: Console)
    requires PollingInvariant(s) && !s.isGenerating
    ensures s.timer.None?
    ensures StartGenerate(s).0.timer.None?
    ensures PollingInvariant(StartGenerate(s).0)
  {
  }

  /**
   * A whole generation: from an idle console with a source URL, the request is
   * accepted and the poll chain meets its first terminal document at `k`. The
   * console ends idle with no poll pending, showing that document.
   */
  lemma GenerationSettles(s: Console, response: JobResponse, outcomes: seq<PollOutcome>, k: nat)
    requires PollingInvariant(s) && !s.isGenerating && !IsBlank(s.form.sourceUrl)
    requires k < |outcomes| && IsTerminalFetch(outcomes[k])
    requires forall i | 0 <= i < k :: !IsTerminalFetch(outcomes[i])
    ensures var (started, _) := StartGenerate(s);
      var (submitted, jobId) := SubmitSucceeded(started, response);
      var r := RunPolls(submitted, jobId, outcomes);
      && r.timer.None? && !r.isGenerating && r.currentJob == Some(outcomes[k].job)
      && PollingInvariant(r) && r.error == "" && r.form == s.form
  {
    var (started, _) := StartGenerate(s);
    var (submitted, jobId) := SubmitSucceeded(started, response);
    RunPollsStopsAtTerminal(submitted, jobId, outcomes, k);
  }

  /**
   * The unmount cleanup cancels only a pending timer: a poll already in flight
   * still settles, and an in-progress document or a rejected request then
   * schedules a fresh poll of the job.
   */
  lemma PollInFlightOutlivesStop(s: Console, jobId: string, outcome: PollOutcome)
    requires !IsTerminalFetch(outcome)
    ensures PollResolved(StopPolling(s), jobId, outcome).timer.Some?
    ensures PollResolved(StopPolling(s), jobId, outcome).timer.value.jobId == jobId
  {
  }
}
