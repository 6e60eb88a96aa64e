/** The runs of one job, written out as sequences of single effects.
  *
  * An action is one write or one request of the runner, of another thread or of the service. `Enabled` is what the
  * code tests on the rows before it, `Turn` is where in the code it stands: in a step on one entry, in a retry of the
  * job, or nowhere. The effects are the ones the methods of `Session`, `Faults` and `Runner` state in their
  * contracts. The process may die between any two actions, and inside the two writes of a failure. Moves, purges,
  * scheduled downloads and the end of a point retry do not occur here. What every run keeps is also shown of the
  * methods; what runs add is that they lead somewhere: `Scenarios` has those that reach a bad state, and `Safety` draws
  * the exact conditions from them.
  */
module Runs {
  import opened Rows
  import opened Transactions
  import opened World
  import opened Effects
  import opened Landing
  import opened Session
  import opened Destination
  import opened Faults

  datatype Act =
    | Stop(full: bool) | Pause(on: bool) | Switch(on: bool)               // other threads
    | Land(late: AttemptId, replace: bool) | Lose(late: AttemptId)        // the service
    | Restart | Resume | Quit | Cancel | Ask(e: EntryId)                  // what is done to a job at rest
    | Begin(e: EntryId) | Settle | Over | Hold                            // a step begins, or finds nothing to do; it ends
    | Again | Create(e: EntryId, point: bool) | TakeOver(e: EntryId, prior: AttemptId) | Drop(e: EntryId, prior: AttemptId)
    | Replan(e: EntryId) | GoOn                                           // `retry`
    | Make(e: EntryId) | Made(e: EntryId) | Count(e: EntryId)
    | Take(e: EntryId, state: EntryState) | Doubt(e: EntryId)
    | Bind(e: EntryId, n: Name) | Fill(e: EntryId, n: Name) | Keep(e: EntryId, n: Name) | Wake(e: EntryId)
    | Check | Plan(e: EntryId, reference: bool) | Put(e: EntryId)
    | Refuse(e: EntryId, code: Code) | Answer(e: EntryId, accepted: bool) | Arrive(e: EntryId) | Finish(e: EntryId)
    | GiveUp(e: EntryId)
    | Fail(e: EntryId, err: Error, cut: bool) | PointFail(e: EntryId, err: Error, cut: bool)
    | FailDirectory(e: EntryId, err: Error) | Skip(dir: EntryId, e: EntryId)

  /** Where the code stands. A process that is dead does nothing any more. */
  datatype Focus = Nobody | Step(e: EntryId) | Retrying | Dead

  /** The world, where the code stands, and which entries lie below a directory. */
  datatype State = State(w: World, at: Focus, below: (EntryId, EntryId) -> bool)

  /** What a run is known to keep: no answer read while an upload is awaited is malformed, and no entry whose
    * attempt has failed is given up with the directory above it.
    */
  datatype Rules = Rules(sound: bool, whole: bool)

  // ---------------------------------------------------------------- actions

  ghost predicate Has(w: World, e: EntryId) {
    e < |w.entries| && w.entries[e].attempt.Some? && Mine(w, e, w.entries[e].attempt.value)
  }

  ghost function At(w: World, e: EntryId): AttemptId
    requires Has(w, e)
  {
    w.entries[e].attempt.value
  }

  ghost function Row(w: World, e: EntryId): Attempt
    requires Has(w, e)
  {
    w.attempts[At(w, e)]
  }

  /** The planned copy of `e` is in the staging directory. */
  predicate HasPlanned(w: World, e: EntryId, n: Name) {
    e < |w.entries| && n in w.staging && w.entries[e].planned == Some(w.staging[n])
  }

  predicate Nameless(w: World, n: Name) {
    n !in w.staging && forall a: AttemptId | a < |w.attempts| :: w.attempts[a].local != Some(n)
  }

  /** The errors that a pass over `e`, outside a point retry, can end with. */
  ghost predicate Meets(w: World, e: EntryId, err: Error) {
    && (err.code.DestinationConflict? ==> !err.uncertain)
    && (!Has(w, e) ==> !err.uncertain)
    && (Has(w, e) ==>
          match Row(w, e).phase
          case Prepared => !err.uncertain
          case Downloading => !err.uncertain
          case Staged => !err.uncertain
          case DownloadRetryWait => false
          case TransferIntent => err.uncertain || At(w, e) !in w.uploads
          case MoveIntent => err.uncertain
          case UnknownTransfer => err == Error(OutcomeUnknownCode, true, false, false)
          case UnknownMove => err == Error(OutcomeUnknownCode, true, false, false)
          case WaitingTransfer => AwaitError(w, e, err)
          case WaitingMove => AwaitError(w, e, err)
          case Failed => !err.uncertain && (Row(w, e).error.Some? ==> Row(w, e).error.value == err.code)
                         && (Row(w, e).error.None? ==> err.code.InternalError?)
          case AbandonedTransfer => false
          case AbandonedMove => false
          case _ => !err.uncertain)
  }

  /** The errors of a pass that waits for an operation: those of a GET, and the report that the operation failed. */
  ghost predicate AwaitError(w: World, e: EntryId, err: Error)
    requires Has(w, e)
  {
    || (ReadError(Raised(err)) && (err.code.DestinationConflict? ==> Open(w.entries[e].state)))
    || (err.code.RemoteOperationFailed? && At(w, e) !in w.uploads)
  }

  ghost predicate Awaited(w: World, e: EntryId) {
    Has(w, e) && (Row(w, e).phase.WaitingTransfer? || Row(w, e).phase.WaitingMove?)
  }

  /** Other threads, the service, and checkpoints. */
  predicate Outside(act: Act) {
    act.Stop? || act.Pause? || act.Switch? || act.Land? || act.Lose? || act.Check?
  }

  /** The actions that write the row of the job, or none. */
  predicate OfJob(act: Act) {
    act.Restart? || act.Resume? || act.Quit? || act.Begin? || act.Settle?
    || act.Over? || act.Hold? || act.Again? || act.GoOn?
  }

  /** The actions on the plan: attempts are made, entries planned again or given up, directories made. */
  predicate OfPlan(act: Act) {
    act.Cancel? || act.Ask? || act.Create? || act.TakeOver? || act.Drop? || act.Replan?
    || act.Make? || act.Made? || act.FailDirectory? || act.Skip?
  }

  /** The actions that lead to a local copy. */
  predicate OfCopy(act: Act) {
    act.Take? || act.Doubt? || act.Count? || act.Bind? || act.Fill? || act.Keep? || act.Wake?
  }

  /** The actions that submit the copy and learn what came of it. */
  predicate OfUpload(act: Act) {
    act.Plan? || act.Put? || act.Refuse? || act.Answer? || act.Arrive? || act.Finish? || act.GiveUp?
  }

  /** The failure of a file. */
  predicate OfFailure(act: Act) {
    act.Fail? || act.PointFail?
  }

  ghost predicate OutsideEnabled(w: World, act: Act) {
    var t := TablesOf(w);
    match act
    case Stop(full) => (if full then RequestFullStop(t) else RequestStop(t)).Committed?
    case Pause(_) => true
    case Switch(_) => AllLinked(t)
    case Land(a, _) => a < |w.attempts| && a in w.uploads
    case Lose(_) => true
    case Check => !Halted(w.job)
    case _ => false
  }

  ghost predicate JobEnabled(w: World, act: Act) {
    var t := TablesOf(w);
    match act
    case Restart => true
    case Resume => Resumable(t) && !Halted(w.job)
    case Quit => w.job.stopRequested
    case Begin(e) => w.job.state.Running? && !w.job.stopRequested && w.job.space.Owned? && NextUp(t, e)
    case Settle => w.job.state.Running? && !Halted(w.job) && AtRest(t)
    case Over => true
    case Hold => !Halted(w.job) && w.job.retryEnabled
    case Again => Retryable(t)
    case GoOn => !Halted(w.job) && forall e: EntryId | e < |w.entries| :: !NextFailed(t, e)
    case _ => false
  }

  ghost predicate PlanEnabled(w: World, act: Act, rules: Rules) {
    var t := TablesOf(w);
    match act
    case Cancel => CancelLocalEntries(t).Committed?
    case Ask(e) => e < |w.entries| && Linked(t, e) && QueuePointRetry(t, e, w.entries[e].attempt).Committed?
    case Create(e, point) =>
      && Work(w, e) && Linked(t, e) && NewAttempt(t, e, point, false).Committed?
      && (!point ==> !w.entries[e].pointRequested && (w.entries[e].attempt.Some? ==> w.entries[e].state.FailedEntry?))
    case TakeOver(e, prior) =>
      && Rest(w) && Has(w, e) && Row(w, e).phase.Prepared? && Row(w, e).local.None? && At(w, e) !in w.purged
      && prior < At(w, e) && w.attempts[prior].entry == e
      && w.attempts[prior].local.Some? && HasPlanned(w, e, w.attempts[prior].local.value)
    case Drop(e, prior) =>
      && Rest(w) && Has(w, e) && Row(w, e).phase.Staged? && prior < At(w, e) && w.attempts[prior].entry == e
      && w.attempts[prior].local == Row(w, e).local
    case Replan(e) => Rest(w) && e < |w.entries| && w.entries[e].selected && w.entries[e].state.FailedEntry?
    case Make(e) => e < |w.entries| && w.entries[e].kind.Dir?
    case Made(e) => e < |w.entries| && w.entries[e].kind.Dir? && Delivered(w, e)
    case FailDirectory(e, err) =>
      && e < |w.entries| && w.entries[e].kind.Dir? && (Success(w.entries[e].state) ==> !w.job.state.Completed?)
      && w.entries[e].attempt.None? && (DirectoryError(Raised(err)) || err.code.DirectoryPending?)
    case Skip(d, e) =>
      && d < |w.entries| && w.entries[d].kind.Dir? && !InWork(w.entries[d].state) && !Success(w.entries[d].state)
      && !w.job.retryEnabled && e < |w.entries| && w.entries[e].selected && w.entries[e].state.Planned?
      && (rules.whole ==> !HalfFailed(t, e))
    case _ => false
  }

  ghost predicate CopyEnabled(w: World, act: Act) {
    match act
    case Take(e, state) =>
      && Has(w, e) && Active(state) && !Row(w, e).phase.DownloadRetryWait? && !Row(w, e).phase.Failed?
      && !AbandonedPhase(Row(w, e).phase)
      && (At(w, e) in w.purged && PreSubmit(Row(w, e).phase) ==> w.entries[e].downloads == 0)
    case Doubt(e) =>
      Has(w, e) && !Row(w, e).phase.DownloadRetryWait? && !AbandonedPhase(Row(w, e).phase) && !InFlight(w, At(w, e))
    case Count(e) => Has(w, e) && PreSubmit(Row(w, e).phase) && !Row(w, e).phase.DownloadRetryWait? && At(w, e) !in w.purged
    case Bind(e, n) => Has(w, e) && Row(w, e).phase.Prepared? && At(w, e) !in w.purged && Nameless(w, n)
    case Fill(e, n) =>
      && Has(w, e) && Row(w, e).phase.Downloading? && Row(w, e).local == Some(n) && w.entries[e].planned.Some?
      && forall a: AttemptId | a < |w.attempts| && w.attempts[a].local == Some(n) :: !w.attempts[a].phase.Staged?
    case Keep(e, n) =>
      && Has(w, e) && PreSubmit(Row(w, e).phase) && !Row(w, e).phase.DownloadRetryWait? && At(w, e) !in w.purged
      && Row(w, e).local == Some(n) && HasPlanned(w, e, n)
    case Wake(e) => Has(w, e) && Row(w, e).phase.DownloadRetryWait?
    case _ => false
  }

  ghost predicate UploadEnabled(w: World, act: Act) {
    match act
    case Plan(e, _) => Has(w, e) && Row(w, e).phase.Staged? && Row(w, e).local.Some? && HasPlanned(w, e, Row(w, e).local.value)
    case Put(e) =>
      && Has(w, e) && Row(w, e).phase.TransferIntent? && w.puts[At(w, e)] == 0 && w.entries[e].planned.Some?
      && Cleared(w.marks) && (w.job.direct ==> Room(w, e))
    case Refuse(e, _) =>
      Has(w, e) && (Row(w, e).phase.TransferIntent? || Row(w, e).phase.Staged?) && At(w, e) !in w.uploads
    case Answer(e, accepted) => Has(w, e) && Row(w, e).phase.TransferIntent? && (accepted || At(w, e) !in w.uploads)
    case Arrive(e) => Has(w, e) && Row(w, e).phase.WaitingTransfer? && At(w, e) !in w.uploads
    case Finish(e) => Has(w, e) && Row(w, e).phase.Verifying? && Delivered(w, e)
    case GiveUp(e) => Has(w, e) && GivenUp(w.entries[e].state) && !InFlight(w, At(w, e))
    case _ => false
  }

  ghost predicate FailureEnabled(w: World, act: Act, rules: Rules) {
    match act
    case Fail(e, err, _) =>
      Work(w, e) && NotRequested(w, e) && Meets(w, e, err) && (rules.sound ==> !(Malformed(err) && Awaited(w, e)))
    case PointFail(e, err, _) => Has(w, e) && w.entries[e].pointRequested && Trouble(w, e, err, true) && !Interrupted(err)
    case _ => false
  }

  /** What the code tests on the rows before it does the action. */
  ghost predicate Enabled(w: World, act: Act, rules: Rules) {
    if Outside(act) then OutsideEnabled(w, act)
    else if OfJob(act) then JobEnabled(w, act)
    else if OfPlan(act) then PlanEnabled(w, act, rules)
    else if OfCopy(act) then CopyEnabled(w, act)
    else if OfUpload(act) then UploadEnabled(w, act)
    else FailureEnabled(w, act, rules)
  }

  /** Whether the code stands where it does the action. */
  predicate Turn(s: State, act: Act) {
    match act
    case Stop(_) => !s.at.Dead?
    case Pause(_) => !s.at.Dead?
    case Switch(_) => !s.at.Dead?
    case Land(_, _) => true
    case Lose(_) => true
    case Restart => true
    case Resume => s.at.Nobody?
    case Quit => s.at.Nobody?
    case Cancel => s.at.Nobody?
    case Ask(_) => s.at.Nobody?
    case Begin(_) => s.at.Nobody?
    case Settle => s.at.Nobody?
    case Over => s.at.Step? || s.at.Retrying?
    case Hold => s.at.Step?
    case Check => s.at.Step?
    case Again => s.at.Nobody?
    case GoOn => s.at.Retrying?
    case TakeOver(_, _) => s.at.Retrying?
    case Drop(_, _) => s.at.Retrying?
    case Create(e, point) =>
      if s.at.Retrying? then !point && NextFailed(TablesOf(s.w), e) && s.w.entries[e].kind.File?
      else s.at == Step(e) && (point || (e < |s.w.entries| && s.w.entries[e].attempt.None?))
    case Replan(e) =>
      && s.at.Retrying? && NextFailed(TablesOf(s.w), e)
      && (s.w.entries[e].kind.File? ==>
            var a := s.w.entries[e].attempt;
            a.Some? && a.value < |s.w.attempts| && PreSubmit(s.w.attempts[a.value].phase))
    case Make(d) => s.at == Step(d) || (s.at.Step? && s.below(d, s.at.e))
    case Skip(d, e) => s.at == Step(d) && s.below(d, e)
    case _ => s.at == Step(act.e)
  }

  function Next(at: Focus, act: Act): Focus {
    match act
    case Begin(e) => Step(e)
    case Again => Retrying
    case Over => Nobody
    case GoOn => Nobody
    case Restart => Nobody
    case Fail(_, _, cut) => if cut then Dead else at
    case PointFail(_, _, cut) => if cut then Dead else at
    case _ => at
  }

  /** The attempt row that a failure leaves, and the world with it; a malformed answer lets the attempt go. */
  ghost function FailedRow(w: World, e: EntryId, err: Error): World
    requires Has(w, e)
  {
    var row := Row(w, e).(phase := FailedPhase(Row(w, e).phase, err), error := Some(err.code));
    SetAttempt(if Malformed(err) && Awaited(w, e) then Loosen(w, At(w, e)) else w, At(w, e), row)
  }

  ghost function SetState(w: World, e: EntryId, state: EntryState): World
    requires e < |w.entries|
  {
    SetEntry(w, e, w.entries[e].(state := state, retryAt := None))
  }

  ghost function SetPhase(w: World, e: EntryId, phase: Phase): World
    requires Has(w, e)
  {
    SetAttempt(w, At(w, e), Row(w, e).(phase := phase))
  }

  ghost function OutsideDone(w: World, act: Act): World
    requires OutsideEnabled(w, act)
  {
    var t := TablesOf(w);
    match act
    case Stop(full) => Stopping(w, (if full then RequestFullStop(t) else RequestStop(t)).t)
    case Pause(on) => w.(job := w.job.(pauseRequested := on))
    case Switch(on) => With(w, SetRetryEnabled(t, on))
    case Land(a, replace) => LandUpload(w, a, replace)
    case Lose(a) => LoseUpload(w, a)
    case Check => PassCheck(w)
  }

  ghost function JobDone(w: World, act: Act): World
    requires JobEnabled(w, act)
  {
    var t := TablesOf(w);
    match act
    case Restart => SetJob(w.(finished := None), Recover(t).job)
    case Resume => SetJob(w, w.job.(state := ResumedState(t), resume := None, pauseRequested := false))
    case Quit => SetJob(w, w.job.(state := Stopped, resume := None, pauseRequested := false))
    case Begin(_) => w
    case Settle => SetJob(w, w.job.(state := if w.job.pauseRequested then Paused else FinalState(t)))
    case Over => w
    case Hold => SetJob(w, w.job.(state := NeedsAttention))
    case Again => w
    case GoOn => SetJob(w, w.job.(state := Running, resume := None, pauseRequested := false))
  }

  ghost function PlanDone(w: World, act: Act, rules: Rules): World
    requires PlanEnabled(w, act, rules)
  {
    var t := TablesOf(w);
    match act
    case Cancel => Cancelling(w, CancelLocalEntries(t).t)
    case Ask(e) => With(w, QueuePointRetry(t, e, w.entries[e].attempt).t)
    case Create(e, point) => Created(w, NewAttempt(t, e, point, false).t, point)
    case TakeOver(e, prior) => SetAttempt(w, At(w, e), Row(w, e).(phase := Staged, local := w.attempts[prior].local))
    case Drop(e, prior) => SetAttempt(w, prior, w.attempts[prior].(local := None))
    case Replan(e) => SetEntry(w, e, w.entries[e].(state := Planned, downloads := 0, retryAt := None))
    case Make(e) => MakeFolder(w, e)
    case Made(e) => SetEntry(w, e, w.entries[e].(state := Done))
    case FailDirectory(e, err) => SetState(w, e, FailedState(err))
    case Skip(d, e) => GivenUpWith(w, e)
  }

  ghost function CopyDone(w: World, act: Act): World
    requires CopyEnabled(w, act)
  {
    match act
    case Take(e, state) => SetEntry(w, e, w.entries[e].(state := state))
    case Doubt(e) => SetEntry(w, e, w.entries[e].(state := SourceChanged))
    case Count(e) => SetEntry(w, e, w.entries[e].(downloads := w.entries[e].downloads + 1, retryAt := None))
    case Bind(e, n) => SetAttempt(w, At(w, e), Row(w, e).(phase := Downloading, local := Some(n)))
    case Fill(e, n) => WriteCopy(w, n, w.entries[e].planned.value)
    case Keep(e, n) => SetAttempt(w, At(w, e), Row(w, e).(phase := Staged, local := Some(n)))
    case Wake(e) => SetPhase(w, e, Prepared)
  }

  ghost function UploadDone(w: World, act: Act): World
    requires UploadEnabled(w, act)
  {
    match act
    case Plan(e, reference) => SetAttempt(w, At(w, e), Row(w, e).(phase := TransferIntent, operation := reference))
    case Put(e) => SendUpload(w, At(w, e), w.entries[e].planned.value)
    case Refuse(e, code) => SetAttempt(w, At(w, e), Row(w, e).(phase := Failed, error := Some(code)))
    case Answer(e, accepted) =>
      SetAttempt(w, At(w, e), Row(w, e).(phase := if accepted then WaitingTransfer else Verifying, operation := accepted))
    case Arrive(e) => SetPhase(w, e, Verifying)
    case Finish(e) => SetEntry(SetPhase(w, e, Succeeded), e, w.entries[e].(state := Done, retryAt := None))
    case GiveUp(e) => SetAttempt(w, At(w, e), Row(w, e).(phase := Failed, error := Some(SourceError)))
  }

  ghost function FailureDone(w: World, act: Act, rules: Rules): World
    requires FailureEnabled(w, act, rules)
  {
    match act
    case Fail(e, err, cut) =>
      var w1 := if Has(w, e) then FailedRow(w, e, err) else w;
      if cut then w1 else SetState(w1, e, FailedState(err))
    case PointFail(e, err, cut) =>
      var row := Row(w, e).(phase := PointFailedPhase(Row(w, e).phase, err), error := Some(err.code));
      var w1 := SetAttempt(w, At(w, e), row);
      if cut then w1 else SetState(w1, e, PointFailedState(w.entries[e].attempt, err))
  }

  /** The world after the action. */
  ghost function Do(w: World, act: Act, rules: Rules): World
    requires Enabled(w, act, rules)
  {
    if Outside(act) then OutsideDone(w, act)
    else if OfJob(act) then JobDone(w, act)
    else if OfPlan(act) then PlanDone(w, act, rules)
    else if OfCopy(act) then CopyDone(w, act)
    else if OfUpload(act) then UploadDone(w, act)
    else FailureDone(w, act, rules)
  }

  // ---------------------------------------------------------------- every action keeps the invariant

  lemma HasParts(w: World, e: EntryId)
    requires Inv(w) && Has(w, e)
    ensures AttemptInv(w, At(w, e)) && EntryInv(w, e)
  {
  }

  /** The actions of other threads and of the service. */
  lemma OutsideKeeps(w: World, act: Act, rules: Rules)
    requires Inv(w) && Enabled(w, act, rules) && Outside(act)
    ensures Inv(Do(w, act, rules))
  {
    hide JobEnabled, JobDone, PlanEnabled, PlanDone, CopyEnabled, CopyDone, UploadEnabled, UploadDone, FailureEnabled,
         FailureDone;
    hide Inv;
    match act {
      case Stop(full) => StopKeeps(w, HaltTables(w, full));
      case Pause(on) => FlagKeeps(w, w.job.(pauseRequested := on));
      case Switch(on) => SetRetryEnabledKeeps(w, on);
      case Land(a, replace) => LandUploadKeeps(w, a, replace);
      case Lose(a) => LoseUploadKeeps(w, a);
      case Check => PassCheckKeeps(w);
    }
  }

  lemma JobKeeps(w: World, act: Act, rules: Rules)
    requires Inv(w) && Enabled(w, act, rules) && OfJob(act)
    ensures Inv(Do(w, act, rules))
  {
    hide OutsideEnabled, OutsideDone, PlanEnabled, PlanDone, CopyEnabled, CopyDone, UploadEnabled, UploadDone,
         FailureEnabled, FailureDone;
    hide Inv, Retryable, Resumable, NextUp, AtRest;
    if act.Restart? {
      FinishedKeeps(w, None);
      SetJobKeeps(w.(finished := None), Recover(TablesOf(w)).job);
    } else if !act.Begin? && !act.Over? && !act.Again? {
      SetJobKeeps(w, Do(w, act, rules).job);
    }
  }

  function HaltTables(w: World, full: bool): Tables
    requires (if full then RequestFullStop(TablesOf(w)) else RequestStop(TablesOf(w))).Committed?
  {
    (if full then RequestFullStop(TablesOf(w)) else RequestStop(TablesOf(w))).t
  }

  /** The actions that write the row of the current attempt of an entry, failures aside. */
  lemma CopyGuard(w: World, act: Act, rules: Rules)
    requires Inv(w) && Enabled(w, act, rules) && (act.Bind? || act.Keep? || act.Wake?)
    ensures var w', a := Do(w, act, rules), At(w, act.e);
            && |w'.attempts| == |w.attempts| && AttemptGuard(w, a, w'.attempts[a]) && w' == SetAttempt(w, a, w'.attempts[a])
  {
    hide OutsideEnabled, OutsideDone, JobEnabled, JobDone, PlanEnabled, PlanDone, UploadEnabled, UploadDone,
         FailureEnabled, FailureDone;
    HasParts(w, act.e);
    hide Inv, EntryInv, Work;
  }

  lemma IntentGuard(w: World, act: Act, rules: Rules)
    requires Inv(w) && Enabled(w, act, rules) && (act.Plan? || act.Answer? || act.Arrive?)
    ensures var w', a := Do(w, act, rules), At(w, act.e);
            && |w'.attempts| == |w.attempts| && AttemptGuard(w, a, w'.attempts[a]) && w' == SetAttempt(w, a, w'.attempts[a])
  {
    hide OutsideEnabled, OutsideDone, JobEnabled, JobDone, PlanEnabled, PlanDone, CopyEnabled, CopyDone,
         FailureEnabled, FailureDone;
    HasParts(w, act.e);
    hide Inv, EntryInv, Work;
  }

  lemma RefusalGuard(w: World, act: Act, rules: Rules)
    requires Inv(w) && Enabled(w, act, rules) && (act.Refuse? || act.GiveUp?)
    ensures var w', a := Do(w, act, rules), At(w, act.e);
            && |w'.attempts| == |w.attempts| && AttemptGuard(w, a, w'.attempts[a]) && w' == SetAttempt(w, a, w'.attempts[a])
  {
    hide OutsideEnabled, OutsideDone, JobEnabled, JobDone, PlanEnabled, PlanDone, CopyEnabled, CopyDone,
         FailureEnabled, FailureDone;
    HasParts(w, act.e);
    hide Inv, EntryInv, Work;
  }

  lemma RowKeeps(w: World, act: Act, rules: Rules)
    requires Inv(w) && Enabled(w, act, rules)
    requires act.Bind? || act.Keep? || act.Wake? || act.Plan? || act.Refuse? || act.Answer? || act.Arrive? || act.GiveUp?
    ensures Inv(Do(w, act, rules))
  {
    hide Inv, AttemptGuard, Work, Enabled, Do;
    if act.Bind? || act.Keep? || act.Wake? { CopyGuard(w, act, rules); }
    else if act.Refuse? || act.GiveUp? { RefusalGuard(w, act, rules); }
    else { IntentGuard(w, act, rules); }
    RowHas(w, act, rules);
    var a := At(w, act.e);
    SetAttemptKeeps(w, a, Do(w, act, rules).attempts[a]);
  }

  lemma RowHas(w: World, act: Act, rules: Rules)
    requires Enabled(w, act, rules)
    requires act.Bind? || act.Keep? || act.Wake? || act.Plan? || act.Refuse? || act.Answer? || act.Arrive? || act.GiveUp?
    ensures Has(w, act.e)
  {
    hide OutsideEnabled, OutsideDone, JobEnabled, JobDone, PlanEnabled, PlanDone, FailureEnabled, FailureDone;
  }

  /** The actions of a retry that write the row of an attempt. */
  lemma CopyTaken(w: World, act: Act, rules: Rules)
    requires Inv(w) && Enabled(w, act, rules) && (act.TakeOver? || act.Drop?)
    ensures Inv(Do(w, act, rules))
  {
    hide OutsideEnabled, OutsideDone, JobEnabled, JobDone, CopyEnabled, CopyDone, UploadEnabled, UploadDone,
         FailureEnabled, FailureDone;
    HasParts(w, act.e);
    hide Inv, EntryInv, AttemptInv;
    if act.TakeOver? {
      var row := Row(w, act.e).(phase := Staged, local := w.attempts[act.prior].local);
      TakeOverGuard(w, act.e, At(w, act.e), row);
      SetAttemptKeeps(w, At(w, act.e), row);
    } else {
      ForgetGuard(w, act.e, act.prior);
      SetAttemptKeeps(w, act.prior, w.attempts[act.prior].(local := None));
    }
  }

  lemma StateGuard(w: World, act: Act, rules: Rules)
    requires Inv(w) && Enabled(w, act, rules)
    requires act.Take? || act.Doubt? || act.Count?
    ensures EntryGuard(w, act.e, Do(w, act, rules).entries[act.e])
  {
    hide OutsideEnabled, OutsideDone, JobEnabled, JobDone, PlanEnabled, PlanDone, UploadEnabled, UploadDone,
         FailureEnabled, FailureDone;
    HasParts(w, act.e);
    hide Inv;
  }

  lemma DirectoryGuard(w: World, act: Act, rules: Rules)
    requires Inv(w) && Enabled(w, act, rules) && (act.FailDirectory? || act.Made?)
    ensures EntryGuard(w, act.e, Do(w, act, rules).entries[act.e])
  {
    hide OutsideEnabled, OutsideDone, JobEnabled, JobDone, CopyEnabled, CopyDone, UploadEnabled, UploadDone,
         FailureEnabled, FailureDone;
    DirectoryUntried(w, act.e);
    hide Inv, NewAttempt, QueuePointRetry, CancelLocalEntries, HasPlanned, HalfFailed, Work, InFlight;
  }

  lemma PlannedGuard(w: World, e: EntryId, rules: Rules)
    requires Inv(w) && Enabled(w, Replan(e), rules)
    ensures EntryGuard(w, e, Do(w, Replan(e), rules).entries[e])
  {
    Replanned(w, e, rules);
    hide Enabled, Do, Inv, EntryGuard;
    ReplanGuard(w, e, w.entries[e].(state := Planned, downloads := 0, retryAt := None));
  }

  lemma Replanned(w: World, e: EntryId, rules: Rules)
    requires Enabled(w, Replan(e), rules)
    ensures Rest(w) && e < |w.entries| && w.entries[e].state.FailedEntry?
    ensures |Do(w, Replan(e), rules).entries| == |w.entries|
    ensures Do(w, Replan(e), rules).entries[e] == w.entries[e].(state := Planned, downloads := 0, retryAt := None)
  {
    hide OutsideEnabled, OutsideDone, JobEnabled, JobDone, CopyEnabled, CopyDone, UploadEnabled, UploadDone,
         FailureEnabled, FailureDone;
    hide Work;
  }

  lemma EntryKeeps(w: World, act: Act, rules: Rules)
    requires Inv(w) && Enabled(w, act, rules)
    requires act.Take? || act.Doubt? || act.Count? || act.FailDirectory? || act.Replan? || act.Made?
    ensures Inv(Do(w, act, rules))
  {
    if act.Take? || act.Doubt? || act.Count? { StateGuard(w, act, rules); }
    else if act.Replan? { PlannedGuard(w, act.e, rules); }
    else { DirectoryGuard(w, act, rules); }
    EntryWritten(w, act, rules);
    hide Inv, EntryGuard, Enabled, Do;
    SetEntryKeeps(w, act.e, Do(w, act, rules).entries[act.e]);
  }

  lemma EntryWritten(w: World, act: Act, rules: Rules)
    requires Enabled(w, act, rules)
    requires act.Take? || act.Doubt? || act.Count? || act.FailDirectory? || act.Replan? || act.Made?
    ensures act.e < |w.entries| == |Do(w, act, rules).entries|
    ensures Do(w, act, rules) == SetEntry(w, act.e, Do(w, act, rules).entries[act.e])
  {
    hide OutsideEnabled, OutsideDone, JobEnabled, JobDone, UploadEnabled, UploadDone, FailureEnabled, FailureDone;
    hide Work, Delivered, Rest;
  }

  lemma FinishKept(w: World, e: EntryId, rules: Rules)
    requires Inv(w) && Enabled(w, Finish(e), rules)
    ensures Inv(Do(w, Finish(e), rules))
  {
    hide OutsideEnabled, OutsideDone, JobEnabled, JobDone, PlanEnabled, PlanDone, CopyEnabled, CopyDone,
         FailureEnabled, FailureDone;
    HasParts(w, e);
    var a := At(w, e);
    var w1 := SetPhase(w, e, Succeeded);
    SetAttemptKeeps(w, a, w1.attempts[a]);
    CountedSame(w, w1, e);
    SetEntryKeeps(w1, e, w.entries[e].(state := Done, retryAt := None));
  }

  lemma MeetsCanFail(w: World, e: EntryId, err: Error)
    requires Inv(w) && Has(w, e) && NotRequested(w, e) && Meets(w, e, err)
    ensures var w1 := if Malformed(err) && Awaited(w, e) then Loosen(w, At(w, e)) else w;
            Inv(w1) && CanFail(w1, e, err)
  {
    HasParts(w, e);
    LoosenKeeps(w, At(w, e));
    var w1 := if Malformed(err) && Awaited(w, e) then Loosen(w, At(w, e)) else w;
    forall i: EntryId | i != e ensures Idle(w1, i) { assert Idle(w, i); }
    if InFlight(w, At(w, e)) { FlightPhases(w, e, At(w, e)); }
  }

  lemma FailKeeps(w: World, e: EntryId, err: Error, cut: bool, rules: Rules)
    requires Inv(w) && Enabled(w, Fail(e, err, cut), rules)
    ensures Inv(Do(w, Fail(e, err, cut), rules))
  {
    hide OutsideEnabled, OutsideDone, JobEnabled, JobDone, PlanEnabled, PlanDone, CopyEnabled, CopyDone, UploadEnabled,
         UploadDone;
    if Has(w, e) {
      FailedRowKeeps(w, e, err);
      if !cut {
        hide Inv, FailedRow;
        FailedEntryKeeps(FailedRow(w, e, err), e, At(w, e), FailedState(err));
      }
    } else if !cut {
      assert EntryInv(w, e);
      SetEntryKeeps(w, e, w.entries[e].(state := FailedState(err), retryAt := None));
    }
  }

  /** The first write of a failure. */
  lemma FailedRowKeeps(w: World, e: EntryId, err: Error)
    requires Inv(w) && Has(w, e) && NotRequested(w, e) && Meets(w, e, err)
    ensures var w1, a := FailedRow(w, e, err), At(w, e);
            && Inv(w1) && w1.entries == w.entries && |w1.attempts| == |w.attempts| && Unfinished(w1, e)
            && w1.attempts[a].phase == FailedPhase(Row(w, e).phase, err)
            && (InFlight(w1, a) && w1.attempts[a].phase.Failed? && a !in w1.loose ==> FailedState(err).Conflict?)
  {
    MeetsCanFail(w, e, err);
    var a, w1 := At(w, e), if Malformed(err) && Awaited(w, e) then Loosen(w, At(w, e)) else w;
    FailureGuard(w1, e, a, err);
    hide Inv, AttemptGuard, CanFail, Meets, Awaited;
    SetAttemptKeeps(w1, a, FailedRow(w, e, err).attempts[a]);
  }

  /** The second write of a failure. */
  lemma FailedEntryKeeps(w: World, e: EntryId, a: AttemptId, state: EntryState)
    requires Inv(w) && e !in w.watched && e < |w.entries| && w.entries[e].attempt == Some(a) && Unfinished(w, e)
    requires a < |w.attempts| && !w.attempts[a].phase.DownloadRetryWait? && !PreSubmit(w.attempts[a].phase)
    requires !Success(state) && !Active(state)
    requires InFlight(w, a) && w.attempts[a].phase.Failed? && a !in w.loose ==> state.Conflict?
    ensures Inv(SetState(w, e, state))
  {
    assert EntryInv(w, e) && AttemptInv(w, a);
    SetEntryKeeps(w, e, w.entries[e].(state := state, retryAt := None));
  }

  lemma PointFailKeeps(w: World, e: EntryId, err: Error, cut: bool, rules: Rules)
    requires Inv(w) && Enabled(w, PointFail(e, err, cut), rules)
    ensures Inv(Do(w, PointFail(e, err, cut), rules))
  {
    hide OutsideEnabled, OutsideDone, JobEnabled, JobDone, PlanEnabled, PlanDone, CopyEnabled, CopyDone, UploadEnabled,
         UploadDone;
    HasParts(w, e);
    var a := At(w, e);
    var row := Row(w, e).(phase := PointFailedPhase(Row(w, e).phase, err), error := Some(err.code));
    PointFailureGuard(w, e, a, err);
    PointRow(w, e, a, row);
    PointDone(w, e, err, cut, rules);
    hide Inv, AttemptGuard, Trouble, Work, AttemptInv, EntryInv, InFlight, Do, Enabled;
    SetAttemptKeeps(w, a, row);
    if !cut { FailedEntryKeeps(SetAttempt(w, a, row), e, a, PointFailedState(Some(a), err)); }
  }

  lemma PointDone(w: World, e: EntryId, err: Error, cut: bool, rules: Rules)
    requires Enabled(w, PointFail(e, err, cut), rules) && Has(w, e)
    ensures var row := Row(w, e).(phase := PointFailedPhase(Row(w, e).phase, err), error := Some(err.code));
            var w1 := SetAttempt(w, At(w, e), row);
            Do(w, PointFail(e, err, cut), rules) == if cut then w1 else SetState(w1, e, PointFailedState(Some(At(w, e)), err))
  {
    hide OutsideEnabled, OutsideDone, JobEnabled, JobDone, PlanEnabled, PlanDone, CopyEnabled, CopyDone, UploadEnabled,
         UploadDone;
  }

  lemma PointRow(w: World, e: EntryId, a: AttemptId, row: Attempt)
    requires Has(w, e) && a == At(w, e) && row.entry == e
    ensures var w1 := SetAttempt(w, a, row);
            && Unfinished(w1, e) && w1.loose == w.loose && (InFlight(w1, a) <==> InFlight(w, a))
  {
  }

  lemma SkipKeeps(w: World, d: EntryId, e: EntryId, rules: Rules)
    requires Inv(w) && Enabled(w, Skip(d, e), rules)
    ensures Inv(Do(w, Skip(d, e), rules))
  {
    hide OutsideEnabled, OutsideDone, JobEnabled, JobDone, CopyEnabled, CopyDone, UploadEnabled, UploadDone,
         FailureEnabled, FailureDone;
    UnwatchedKeeps(w, e);
    var w0 := Unwatched(w, e);
    SkipGuard(w0, e);
    var attempt, row := w.entries[e].attempt, w.entries[e].(state := FailedEntry, retryAt := None);
    if HalfFailed(TablesOf(w), e) && InFlight(w0, attempt.value) {
      LoosenKeeps(w0, attempt.value);
      SetEntryKeeps(Loosen(w0, attempt.value), e, row);
    } else {
      SetEntryKeeps(w0, e, row);
    }
  }

  lemma PlanKeeps(w: World, act: Act, rules: Rules)
    requires Inv(w) && Enabled(w, act, rules) && OfPlan(act)
    ensures Inv(Do(w, act, rules))
  {
    hide OutsideEnabled, OutsideDone, JobEnabled, JobDone, CopyEnabled, CopyDone, UploadEnabled, UploadDone,
         FailureEnabled, FailureDone;
    hide Inv;
    match act {
      case Cancel => CancelLocalEntriesKeeps(w);
      case Ask(e) => QueuePointRetryKeeps(w, e, w.entries[e].attempt);
      case Create(e, point) => NewAttemptKeeps(w, e, point, false);
      case TakeOver(_, _) => CopyTaken(w, act, rules);
      case Drop(_, _) => CopyTaken(w, act, rules);
      case Make(e) => MakeFolderKeeps(w, e);
      case Skip(d, e) => SkipKeeps(w, d, e, rules);
      case _ => EntryKeeps(w, act, rules);
    }
  }

  lemma CopyKeeps(w: World, act: Act, rules: Rules)
    requires Inv(w) && Enabled(w, act, rules) && OfCopy(act)
    ensures Inv(Do(w, act, rules))
  {
    hide OutsideEnabled, OutsideDone, JobEnabled, JobDone, PlanEnabled, PlanDone, UploadEnabled, UploadDone,
         FailureEnabled, FailureDone;
    hide Inv, Work;
    if act.Fill? { WriteCopyKeeps(w, act.n, w.entries[act.e].planned.value); }
    else if act.Take? || act.Doubt? || act.Count? { EntryKeeps(w, act, rules); }
    else { RowKeeps(w, act, rules); }
  }

  lemma UploadKeeps(w: World, act: Act, rules: Rules)
    requires Inv(w) && Enabled(w, act, rules) && OfUpload(act)
    ensures Inv(Do(w, act, rules))
  {
    hide Inv, Enabled, Do;
    if act.Put? { PutKeeps(w, act.e, rules); }
    else if act.Finish? { FinishKept(w, act.e, rules); }
    else { RowKeeps(w, act, rules); }
  }

  lemma ActKeeps(w: World, act: Act, rules: Rules)
    requires Inv(w) && Enabled(w, act, rules)
    ensures Inv(Do(w, act, rules))
  {
    hide Inv, Enabled, Do;
    if Outside(act) { OutsideKeeps(w, act, rules); }
    else if OfJob(act) { JobKeeps(w, act, rules); }
    else if OfPlan(act) { PlanKeeps(w, act, rules); }
    else if OfCopy(act) { CopyKeeps(w, act, rules); }
    else if OfUpload(act) { UploadKeeps(w, act, rules); }
    else if act.Fail? { FailKeeps(w, act.e, act.err, act.cut, rules); }
    else { PointFailKeeps(w, act.e, act.err, act.cut, rules); }
  }

  lemma PutKeeps(w: World, e: EntryId, rules: Rules)
    requires Inv(w) && Enabled(w, Put(e), rules)
    ensures Inv(Do(w, Put(e), rules))
  {
    hide OutsideEnabled, OutsideDone, JobEnabled, JobDone, PlanEnabled, PlanDone, CopyEnabled, CopyDone,
         FailureEnabled, FailureDone;
    SendUploadKeeps(w, At(w, e), w.entries[e].planned.value);
  }

  // ---------------------------------------------------------------- runs

  ghost predicate May(s: State, act: Act, rules: Rules) {
    Enabled(s.w, act, rules) && Turn(s, act)
  }

  ghost function Does(s: State, act: Act, rules: Rules): State
    requires May(s, act, rules)
  {
    State(Do(s.w, act, rules), Next(s.at, act), s.below)
  }

  ghost predicate Possible(s: State, acts: seq<Act>, rules: Rules)
    decreases |acts|
  {
    acts == [] || (May(s, acts[0], rules) && Possible(Does(s, acts[0], rules), acts[1..], rules))
  }

  ghost function After(s: State, acts: seq<Act>, rules: Rules): State
    requires Possible(s, acts, rules)
    decreases |acts|
  {
    if acts == [] then s else After(Does(s, acts[0], rules), acts[1..], rules)
  }

  /** A job whose plan is frozen, before its first attempt. The plan is in order: a directory comes first. */
  ghost predicate Begins(s: State) {
    && Fresh(s.w.job, s.w.entries, s.w.disk)
    && s.w == NewWorld(s.w.job, s.w.entries, s.w.disk)
    && s.at.Nobody? && forall d: EntryId, e: EntryId | s.below(d, e) :: d < e
  }

  ghost predicate Reached(s: State, rules: Rules) {
    exists s0, acts :: Begins(s0) && Possible(s0, acts, rules) && After(s0, acts, rules) == s
  }

  lemma {:induction false} OneMore(s: State, acts: seq<Act>, act: Act, rules: Rules)
    requires Possible(s, acts, rules) && May(After(s, acts, rules), act, rules)
    ensures Possible(s, acts + [act], rules) && After(s, acts + [act], rules) == Does(After(s, acts, rules), act, rules)
    decreases |acts|
  {
    hide May, Does;
    if acts == [] {
      assert acts + [act] == [act];
      assert [act][1..] == [];
    } else {
      OneMore(Does(s, acts[0], rules), acts[1..], act, rules);
      assert (acts + [act])[1..] == acts[1..] + [act];
    }
  }

  lemma Goes(s: State, act: Act, rules: Rules)
    requires Reached(s, rules) && May(s, act, rules)
    ensures Reached(Does(s, act, rules), rules)
  {
    hide May, Does, Begins;
    var s0, acts :| Begins(s0) && Possible(s0, acts, rules) && After(s0, acts, rules) == s;
    OneMore(s0, acts, act, rules);
  }

  /** No action lets an attempt go in a run that keeps both rules. */
  lemma LooseOnly(w: World, act: Act, rules: Rules)
    requires Enabled(w, act, rules) && rules.sound && rules.whole && w.loose == {}
    ensures Do(w, act, rules).loose == {}
  {
    hide Enabled, Do;
    if Outside(act) || OfJob(act) { JobLoose(w, act, rules); }
    else if OfPlan(act) { PlanLoose(w, act, rules); }
    else { FileLoose(w, act, rules); }
  }

  lemma JobLoose(w: World, act: Act, rules: Rules)
    requires Enabled(w, act, rules) && (Outside(act) || OfJob(act))
    ensures Do(w, act, rules).loose == w.loose
  {
    hide PlanEnabled, PlanDone, CopyEnabled, CopyDone, UploadEnabled, UploadDone, FailureEnabled, FailureDone;
    hide NextUp, AtRest, Retryable, Resumable, NextFailed, ResumedState, FinalState;
  }

  lemma PlanLoose(w: World, act: Act, rules: Rules)
    requires Enabled(w, act, rules) && OfPlan(act) && rules.whole
    ensures Do(w, act, rules).loose == w.loose
  {
    hide OutsideEnabled, OutsideDone, JobEnabled, JobDone, CopyEnabled, CopyDone, UploadEnabled, UploadDone,
         FailureEnabled, FailureDone;
    hide Work, Delivered, HasPlanned, Rest;
  }

  lemma FileLoose(w: World, act: Act, rules: Rules)
    requires Enabled(w, act, rules) && !Outside(act) && !OfJob(act) && !OfPlan(act) && rules.sound
    ensures Do(w, act, rules).loose == w.loose
  {
    hide OutsideEnabled, OutsideDone, JobEnabled, JobDone, PlanEnabled, PlanDone;
    hide Work, Delivered, HasPlanned, Room, Nameless, Meets, Trouble;
  }

  lemma {:induction false} RunKeeps(s: State, acts: seq<Act>, rules: Rules)
    requires Inv(s.w) && Possible(s, acts, rules)
    ensures Inv(After(s, acts, rules).w)
    ensures rules.sound && rules.whole && s.w.loose == {} ==> After(s, acts, rules).w.loose == {}
    decreases |acts|
  {
    if acts != [] {
      hide Inv, Enabled, Do, Turn;
      ActKeeps(s.w, acts[0], rules);
      if rules.sound && rules.whole && s.w.loose == {} { LooseOnly(s.w, acts[0], rules); }
      RunKeeps(Does(s, acts[0], rules), acts[1..], rules);
    }
  }

  lemma ReachedKeeps(s: State, rules: Rules)
    requires Reached(s, rules)
    ensures Inv(s.w) && (rules.sound && rules.whole ==> s.w.loose == {})
  {
    var s0, acts :| Begins(s0) && Possible(s0, acts, rules) && After(s0, acts, rules) == s;
    FreshKeeps(s0.w.job, s0.w.entries, s0.w.disk);
    hide Fresh, Inv, Possible, After;
    RunKeeps(s0, acts, rules);
  }

  // ---------------------------------------------------------------- how attempts fail

  /** Who writes the phase `failed`. */
  ghost predicate Failing(w: World, act: Act, a: AttemptId) {
    || ((act.Fail? || act.PointFail? || act.Refuse? || act.GiveUp?) && Has(w, act.e) && At(w, act.e) == a)
    || (act.Switch? && !act.on && a < |w.attempts| && w.attempts[a].phase.DownloadRetryWait?)
  }

  /** A failure writes the row of the current attempt only. */
  lemma OtherRows(w: World, act: Act, rules: Rules, a: AttemptId)
    requires Enabled(w, act, rules) && (act.Fail? || act.PointFail? || act.Refuse? || act.GiveUp?) && a < |w.attempts|
    ensures |Do(w, act, rules).attempts| == |w.attempts|
    ensures !Has(w, act.e) || At(w, act.e) != a ==> Do(w, act, rules).attempts[a] == w.attempts[a]
  {
    hide Enabled, Do, Has;
    if act.Fail? { FailRows(w, act.e, act.err, act.cut, rules, a); }
    else if act.PointFail? { PointFailRows(w, act, rules, a); }
    else { RefusalRows(w, act, rules, a); }
  }

  lemma FailRows(w: World, e: EntryId, err: Error, cut: bool, rules: Rules, a: AttemptId)
    requires Enabled(w, Fail(e, err, cut), rules) && a < |w.attempts|
    ensures |Do(w, Fail(e, err, cut), rules).attempts| == |w.attempts|
    ensures !Has(w, e) || At(w, e) != a ==> Do(w, Fail(e, err, cut), rules).attempts[a] == w.attempts[a]
  {
    hide OutsideEnabled, OutsideDone, JobEnabled, JobDone, PlanEnabled, PlanDone, CopyEnabled, CopyDone, UploadEnabled,
         UploadDone;
    hide Meets, Work;
  }

  lemma PointFailRows(w: World, act: Act, rules: Rules, a: AttemptId)
    requires Enabled(w, act, rules) && act.PointFail? && a < |w.attempts|
    ensures |Do(w, act, rules).attempts| == |w.attempts|
    ensures !Has(w, act.e) || At(w, act.e) != a ==> Do(w, act, rules).attempts[a] == w.attempts[a]
  {
    hide OutsideEnabled, OutsideDone, JobEnabled, JobDone, PlanEnabled, PlanDone, CopyEnabled, CopyDone, UploadEnabled,
         UploadDone;
    hide Trouble, Work, InFlight;
  }

  lemma RefusalRows(w: World, act: Act, rules: Rules, a: AttemptId)
    requires Enabled(w, act, rules) && (act.Refuse? || act.GiveUp?) && a < |w.attempts|
    ensures |Do(w, act, rules).attempts| == |w.attempts|
    ensures !Has(w, act.e) || At(w, act.e) != a ==> Do(w, act, rules).attempts[a] == w.attempts[a]
  {
    hide OutsideEnabled, OutsideDone, JobEnabled, JobDone, PlanEnabled, PlanDone, CopyEnabled, CopyDone,
         FailureEnabled, FailureDone;
    hide Work, InFlight;
  }

  lemma SwitchDone(w: World, on: bool, rules: Rules)
    requires Enabled(w, Switch(on), rules)
    ensures AllLinked(TablesOf(w)) && Do(w, Switch(on), rules) == With(w, SetRetryEnabled(TablesOf(w), on))
  {
    hide JobEnabled, JobDone, PlanEnabled, PlanDone, CopyEnabled, CopyDone, UploadEnabled, UploadDone, FailureEnabled,
         FailureDone;
  }

  lemma PointFailSettles(w: World, e: EntryId, err: Error, cut: bool, rules: Rules)
    requires Inv(w) && Enabled(w, PointFail(e, err, cut), rules) && !Row(w, e).phase.Failed?
    ensures var w', a := Do(w, PointFail(e, err, cut), rules), At(w, e);
            w'.attempts[a].phase.Failed? ==> !InFlight(w, a) && !InFlight(w', a)
  {
    hide OutsideEnabled, OutsideDone, JobEnabled, JobDone, PlanEnabled, PlanDone, CopyEnabled, CopyDone, UploadEnabled,
         UploadDone;
    HasParts(w, e);
    if InFlight(w, At(w, e)) { FlightPhases(w, e, At(w, e)); }
  }

  lemma RefusalSettles(w: World, act: Act, rules: Rules)
    requires Enabled(w, act, rules) && (act.Refuse? || act.GiveUp?)
    ensures !InFlight(w, At(w, act.e)) && !InFlight(Do(w, act, rules), At(w, act.e))
  {
    hide OutsideEnabled, OutsideDone, JobEnabled, JobDone, PlanEnabled, PlanDone, CopyEnabled, CopyDone,
         FailureEnabled, FailureDone;
  }

  lemma FailsNone(w: World, act: Act, rules: Rules, a: AttemptId)
    requires Enabled(w, act, rules) && a < |w.attempts| && !w.attempts[a].phase.Failed?
    requires !act.Fail? && !act.PointFail? && !act.Refuse? && !act.GiveUp? && !act.Switch?
    ensures a < |Do(w, act, rules).attempts| && !Do(w, act, rules).attempts[a].phase.Failed?
  {
    hide Enabled, Do;
    if Outside(act) { OutsideFailsNone(w, act, rules, a); }
    else if OfJob(act) { JobFailsNone(w, act, rules, a); }
    else if OfPlan(act) { PlanFailsNone(w, act, rules, a); }
    else if OfCopy(act) { CopyFailsNone(w, act, rules, a); }
    else { UploadFailsNone(w, act, rules, a); }
  }

  lemma OutsideFailsNone(w: World, act: Act, rules: Rules, a: AttemptId)
    requires Enabled(w, act, rules) && a < |w.attempts| && !w.attempts[a].phase.Failed?
    requires Outside(act) && !act.Switch?
    ensures a < |Do(w, act, rules).attempts| && !Do(w, act, rules).attempts[a].phase.Failed?
  {
    hide JobEnabled, JobDone, PlanEnabled, PlanDone, CopyEnabled, CopyDone, UploadEnabled, UploadDone, FailureEnabled,
         FailureDone;
    if act.Stop? { StopFailsNone(w, act.full); }
  }

  lemma JobFailsNone(w: World, act: Act, rules: Rules, a: AttemptId)
    requires Enabled(w, act, rules) && a < |w.attempts| && !w.attempts[a].phase.Failed?
    requires OfJob(act)
    ensures a < |Do(w, act, rules).attempts| && !Do(w, act, rules).attempts[a].phase.Failed?
  {
    hide OutsideEnabled, OutsideDone, PlanEnabled, PlanDone, CopyEnabled, CopyDone, UploadEnabled, UploadDone,
         FailureEnabled, FailureDone;
    hide NextUp, AtRest, Retryable, Resumable, NextFailed, ResumedState, FinalState;
  }

  lemma PlanFailsNone(w: World, act: Act, rules: Rules, a: AttemptId)
    requires Enabled(w, act, rules) && a < |w.attempts| && !w.attempts[a].phase.Failed?
    requires OfPlan(act)
    ensures a < |Do(w, act, rules).attempts| && !Do(w, act, rules).attempts[a].phase.Failed?
  {
    hide Enabled, Do;
    if act.Create? || act.TakeOver? || act.Drop? { RetryFailsNone(w, act, rules, a); }
    else { SameAttempts(w, act, rules); }
  }

  lemma RetryFailsNone(w: World, act: Act, rules: Rules, a: AttemptId)
    requires Enabled(w, act, rules) && a < |w.attempts| && !w.attempts[a].phase.Failed?
    requires act.Create? || act.TakeOver? || act.Drop?
    ensures a < |Do(w, act, rules).attempts| && !Do(w, act, rules).attempts[a].phase.Failed?
  {
    hide OutsideEnabled, OutsideDone, JobEnabled, JobDone, CopyEnabled, CopyDone, UploadEnabled, UploadDone,
         FailureEnabled, FailureDone;
    hide OthersIdle, Rest, HasPlanned, HalfFailed;
    if act.Create? { CreateFailsNone(w, act.e, act.point, a); }
  }

  lemma SameAttempts(w: World, act: Act, rules: Rules)
    requires Enabled(w, act, rules) && OfPlan(act) && !act.Create? && !act.TakeOver? && !act.Drop?
    ensures Do(w, act, rules).attempts == w.attempts
  {
    hide OutsideEnabled, OutsideDone, JobEnabled, JobDone, CopyEnabled, CopyDone, UploadEnabled, UploadDone,
         FailureEnabled, FailureDone;
    hide Work, Delivered, Rest, HalfFailed, NewAttempt;
  }

  lemma CopyFailsNone(w: World, act: Act, rules: Rules, a: AttemptId)
    requires Enabled(w, act, rules) && a < |w.attempts| && !w.attempts[a].phase.Failed?
    requires OfCopy(act)
    ensures a < |Do(w, act, rules).attempts| && !Do(w, act, rules).attempts[a].phase.Failed?
  {
    hide OutsideEnabled, OutsideDone, JobEnabled, JobDone, PlanEnabled, PlanDone, UploadEnabled, UploadDone,
         FailureEnabled, FailureDone;
    hide Work, Nameless, HasPlanned;
  }

  lemma UploadFailsNone(w: World, act: Act, rules: Rules, a: AttemptId)
    requires Enabled(w, act, rules) && a < |w.attempts| && !w.attempts[a].phase.Failed?
    requires OfUpload(act) && !act.Refuse? && !act.GiveUp?
    ensures a < |Do(w, act, rules).attempts| && !Do(w, act, rules).attempts[a].phase.Failed?
  {
    hide OutsideEnabled, OutsideDone, JobEnabled, JobDone, PlanEnabled, PlanDone, CopyEnabled, CopyDone,
         FailureEnabled, FailureDone;
    hide Work, Delivered, HasPlanned, Room;
  }

  lemma StopFailsNone(w: World, full: bool)
    requires (if full then RequestFullStop(TablesOf(w)) else RequestStop(TablesOf(w))).Committed?
    ensures HaltTables(w, full).attempts == w.attempts
  {
  }

  lemma SwitchFails(w: World, on: bool, a: AttemptId)
    requires Inv(w) && AllLinked(TablesOf(w)) && a < |w.attempts| && !w.attempts[a].phase.Failed?
    requires With(w, SetRetryEnabled(TablesOf(w), on)).attempts[a].phase.Failed?
    ensures !on && w.attempts[a].phase.DownloadRetryWait?
    ensures !InFlight(w, a) && !InFlight(With(w, SetRetryEnabled(TablesOf(w), on)), a)
  {
    SetRetryEnabledKeeps(w, on);
    assert AttemptInv(w, a) && EnvAttempt(w.attempts[a], With(w, SetRetryEnabled(TablesOf(w), on)).attempts[a]);
  }

  lemma CreateFailsNone(w: World, e: EntryId, point: bool, a: AttemptId)
    requires e < |w.entries| && Linked(TablesOf(w), e) && NewAttempt(TablesOf(w), e, point, false).Committed?
    requires a < |w.attempts| && !w.attempts[a].phase.Failed?
    ensures var w' := Created(w, NewAttempt(TablesOf(w), e, point, false).t, point);
            a < |w'.attempts| && !w'.attempts[a].phase.Failed?
  {
  }

  /** A failure leaves a failed attempt with its upload in flight exactly when the upload was in flight and the error
    * is definite. It was read while the upload was awaited then, and the entry is open to a retry, which sends
    * another upload, exactly when the answer was malformed; after a conflict it is not.
    */
  lemma FailIsDefinite(w: World, e: EntryId, err: Error, cut: bool, rules: Rules)
    requires Inv(w) && Enabled(w, Fail(e, err, cut), rules) && Has(w, e) && !Row(w, e).phase.Failed?
    ensures var w', a := Do(w, Fail(e, err, cut), rules), At(w, e);
            && (w'.attempts[a].phase.Failed? && InFlight(w', a) <==> InFlight(w, a) && Definite(err))
            && (InFlight(w, a) && Definite(err) ==> ReadError(Raised(err)) && Awaited(w, e))
            && (InFlight(w, a) && Definite(err) && !cut ==>
                  (w'.entries[e].state.FailedEntry? <==> Malformed(err)) && (w'.entries[e].state.Conflict? <==> !Malformed(err)))
  {
    hide OutsideEnabled, OutsideDone, JobEnabled, JobDone, PlanEnabled, PlanDone, CopyEnabled, CopyDone, UploadEnabled,
         UploadDone;
    InFlightMeets(w, e, err);
    RowInFlight(w, e, err, FailedState(err));
    hide Inv, InFlight, Meets, Work, Mine;
  }

  lemma InFlightMeets(w: World, e: EntryId, err: Error)
    requires Inv(w) && Has(w, e) && !Row(w, e).phase.Failed? && Meets(w, e, err)
    ensures InFlight(w, At(w, e)) && Definite(err) ==> ReadError(Raised(err)) && Awaited(w, e)
    ensures InFlight(w, At(w, e)) ==> (FailedPhase(Row(w, e).phase, err).Failed? <==> Definite(err))
    ensures InFlight(w, At(w, e)) && Definite(err) ==> (err.code.DestinationConflict? <==> !Malformed(err))
  {
    HasParts(w, e);
    if InFlight(w, At(w, e)) { FlightPhases(w, e, At(w, e)); }
  }

  lemma RowInFlight(w: World, e: EntryId, err: Error, state: EntryState)
    requires Has(w, e)
    ensures var w1 := FailedRow(w, e, err);
            && At(w, e) < |w1.attempts| && e < |w1.entries|
            && w1.attempts[At(w, e)].phase == FailedPhase(Row(w, e).phase, err)
            && (InFlight(w1, At(w, e)) <==> InFlight(w, At(w, e)))
            && (InFlight(SetState(w1, e, state), At(w, e)) <==> InFlight(w, At(w, e)))
  {
  }

  // ---------------------------------------------------------------- where a job is stuck

  const FREE := Rules(false, false)

  /** Entry `e` is in the same state, with the same attempt in the same phase. */
  ghost predicate Unmoved(w: World, w': World, e: EntryId) {
    && e < |w.entries| && e < |w'.entries| && w'.entries[e].state == w.entries[e].state
    && w'.entries[e].attempt == w.entries[e].attempt
    && (w.entries[e].attempt.Some? && w.entries[e].attempt.value < |w.attempts| ==>
          w.entries[e].attempt.value < |w'.attempts|
          && w'.attempts[w.entries[e].attempt.value].phase == w.attempts[w.entries[e].attempt.value].phase)
  }

  lemma EnvUnmoved(w: World, w': World, e: EntryId)
    requires Env(w, w') && Stuck(TablesOf(w), e)
    ensures Unmoved(w, w', e)
  {
    assert EnvEntry(w.entries[e], w'.entries[e]) && KeepsState(w, w', e);
  }

  /** A stop, and the failure of a directory above the entry while the retries are off. */
  predicate Frees(act: Act, e: EntryId) {
    act.Cancel? || (act.Skip? && act.e == e)
  }

  /** No other action moves an entry that is stuck. */
  lemma StuckUnmoved(w: World, act: Act, e: EntryId)
    requires Inv(w) && Stuck(TablesOf(w), e) && Enabled(w, act, FREE) && !Frees(act, e)
    ensures Unmoved(w, Do(w, act, FREE), e)
  {
    hide Do, Enabled, Env, Unmoved, Inv, Stuck;
    if Outside(act) {
      OutsideEnv(w, act);
      EnvUnmoved(w, Do(w, act, FREE), e);
    }
    else if OfJob(act) { JobUnmoved(w, act, e); }
    else if OfPlan(act) { PlanUnmoved(w, act, e); }
    else if OfCopy(act) { CopyUnmoved(w, act, e); }
    else if OfUpload(act) { UploadUnmoved(w, act, e); }
    else { FailureUnmoved(w, act, e); }
  }

  lemma JobUnmoved(w: World, act: Act, e: EntryId)
    requires Inv(w) && Stuck(TablesOf(w), e) && Enabled(w, act, FREE) && OfJob(act)
    ensures Unmoved(w, Do(w, act, FREE), e)
  {
    hide OutsideEnabled, OutsideDone, PlanEnabled, PlanDone, CopyEnabled, CopyDone, UploadEnabled, UploadDone,
         FailureEnabled, FailureDone;
    hide Inv, NextUp, AtRest, Retryable, Resumable, NextFailed, ResumedState, FinalState;
  }

  lemma PlanUnmoved(w: World, act: Act, e: EntryId)
    requires Inv(w) && Stuck(TablesOf(w), e) && Enabled(w, act, FREE) && OfPlan(act) && !Frees(act, e)
    ensures Unmoved(w, Do(w, act, FREE), e)
  {
    assert EntryInv(w, e);
    OneStuck(w, e);
    hide Inv;
    hide Enabled, Do, Unmoved, Stuck, EntryInv;
    if act.Create? || act.TakeOver? || act.Drop? { RetryUnmoved(w, act, e); } else { PlannedUnmoved(w, act, e); }
  }

  lemma PlannedUnmoved(w: World, act: Act, e: EntryId)
    requires Stuck(TablesOf(w), e) && w.entries[e].kind.File? && Enabled(w, act, FREE)
    requires OfPlan(act) && !Frees(act, e) && !act.Create? && !act.TakeOver? && !act.Drop?
    ensures Unmoved(w, Do(w, act, FREE), e)
  {
    hide Enabled, Do, Stuck, Unmoved;
    if act.Skip? { SkipUnmoved(w, act, e); }
    else if act.Ask? || act.Replan? { AskUnmoved(w, act, e); }
    else { FolderUnmoved(w, act, e); }
  }

  lemma SkipUnmoved(w: World, act: Act, e: EntryId)
    requires Stuck(TablesOf(w), e) && w.entries[e].kind.File? && Enabled(w, act, FREE) && !Frees(act, e)
    requires act.Skip?
    ensures Unmoved(w, Do(w, act, FREE), e)
  {
    hide OutsideEnabled, OutsideDone, JobEnabled, JobDone, CopyEnabled, CopyDone, UploadEnabled, UploadDone,
         FailureEnabled, FailureDone;
    GivenUpRows(w, act.e);
    hide GivenUpWith, HalfFailed;
  }

  lemma AskUnmoved(w: World, act: Act, e: EntryId)
    requires Stuck(TablesOf(w), e) && w.entries[e].kind.File? && Enabled(w, act, FREE) && !Frees(act, e)
    requires act.Ask? || act.Replan?
    ensures Unmoved(w, Do(w, act, FREE), e)
  {
    hide OutsideEnabled, OutsideDone, JobEnabled, JobDone, CopyEnabled, CopyDone, UploadEnabled, UploadDone,
         FailureEnabled, FailureDone;
    hide Rest;
  }

  lemma FolderUnmoved(w: World, act: Act, e: EntryId)
    requires Stuck(TablesOf(w), e) && w.entries[e].kind.File? && Enabled(w, act, FREE) && !Frees(act, e)
    requires act.Make? || act.Made? || act.FailDirectory?
    ensures Unmoved(w, Do(w, act, FREE), e)
  {
    hide OutsideEnabled, OutsideDone, JobEnabled, JobDone, CopyEnabled, CopyDone, UploadEnabled, UploadDone,
         FailureEnabled, FailureDone;
    hide Delivered;
  }

  lemma RetryUnmoved(w: World, act: Act, e: EntryId)
    requires Stuck(TablesOf(w), e) && EntryInv(w, e) && Enabled(w, act, FREE) && (act.Create? || act.TakeOver? || act.Drop?)
    ensures Unmoved(w, Do(w, act, FREE), e)
  {
    hide OutsideEnabled, OutsideDone, JobEnabled, JobDone, CopyEnabled, CopyDone, UploadEnabled, UploadDone,
         FailureEnabled, FailureDone;
    hide Delivered, HasPlanned, Counted, OthersIdle, Unfinished;
  }

  lemma CopyUnmoved(w: World, act: Act, e: EntryId)
    requires Inv(w) && Stuck(TablesOf(w), e) && Enabled(w, act, FREE) && OfCopy(act)
    ensures Unmoved(w, Do(w, act, FREE), e)
  {
    assert EntryInv(w, e);
    hide Enabled, Do, Unmoved, Inv, EntryInv;
    if act.Fill? { FillUnmoved(w, act, e); }
    else {
      CopyOpen(w, act);
      CopyElsewhere(w, act, e);
    }
  }

  lemma FillUnmoved(w: World, act: Act, e: EntryId)
    requires Stuck(TablesOf(w), e) && Enabled(w, act, FREE) && act.Fill?
    ensures Unmoved(w, Do(w, act, FREE), e)
  {
    hide OutsideEnabled, OutsideDone, JobEnabled, JobDone, PlanEnabled, PlanDone, UploadEnabled, UploadDone,
         FailureEnabled, FailureDone;
    hide Work;
  }

  lemma CopyElsewhere(w: World, act: Act, e: EntryId)
    requires Enabled(w, act, FREE) && OfCopy(act) && !act.Fill? && Has(w, act.e) && act.e != e && Owned(w, e)
    ensures Unmoved(w, Do(w, act, FREE), e)
  {
    hide OutsideEnabled, OutsideDone, JobEnabled, JobDone, PlanEnabled, PlanDone, UploadEnabled, UploadDone,
         FailureEnabled, FailureDone;
    hide Work, HasPlanned, Nameless, InFlight;
  }

  /** The current attempt of the entry is its own. */
  ghost predicate Owned(w: World, e: EntryId) {
    && e < |w.entries| && w.entries[e].attempt.Some? && w.entries[e].attempt.value < |w.attempts|
    && w.attempts[w.entries[e].attempt.value].entry == e
  }

  lemma UploadUnmoved(w: World, act: Act, e: EntryId)
    requires Inv(w) && Stuck(TablesOf(w), e) && Enabled(w, act, FREE) && OfUpload(act)
    ensures Unmoved(w, Do(w, act, FREE), e)
  {
    assert EntryInv(w, e);
    hide Enabled, Do, Unmoved, Inv, EntryInv;
    UploadOpen(w, act);
    UploadElsewhere(w, act, e);
  }

  lemma UploadElsewhere(w: World, act: Act, e: EntryId)
    requires Enabled(w, act, FREE) && OfUpload(act) && Has(w, act.e) && act.e != e && Owned(w, e)
    ensures Unmoved(w, Do(w, act, FREE), e)
  {
    hide Enabled, Do, Mine;
    UploadEntries(w, act, e);
    HasOwned(w, act.e);
    if act.Refuse? || act.GiveUp? { RefusalRows(w, act, FREE, w.entries[e].attempt.value); }
    else { UploadRows(w, act, w.entries[e].attempt.value); }
  }

  lemma UploadEntries(w: World, act: Act, e: EntryId)
    requires Enabled(w, act, FREE) && OfUpload(act) && act.e != e && e < |w.entries|
    ensures |Do(w, act, FREE).entries| == |w.entries| && Do(w, act, FREE).entries[e] == w.entries[e]
  {
    hide OutsideEnabled, OutsideDone, JobEnabled, JobDone, PlanEnabled, PlanDone, CopyEnabled, CopyDone,
         FailureEnabled, FailureDone;
    hide Work, HasPlanned, Room, Delivered, InFlight;
  }

  lemma UploadRows(w: World, act: Act, a: AttemptId)
    requires Enabled(w, act, FREE) && OfUpload(act) && !act.Refuse? && !act.GiveUp? && a < |w.attempts|
    requires Has(w, act.e) && At(w, act.e) != a
    ensures |Do(w, act, FREE).attempts| == |w.attempts| && Do(w, act, FREE).attempts[a] == w.attempts[a]
  {
    hide OutsideEnabled, OutsideDone, JobEnabled, JobDone, PlanEnabled, PlanDone, CopyEnabled, CopyDone,
         FailureEnabled, FailureDone;
    hide Work, HasPlanned, Room, Delivered, InFlight;
  }

  lemma FailureUnmoved(w: World, act: Act, e: EntryId)
    requires Inv(w) && Stuck(TablesOf(w), e) && Enabled(w, act, FREE) && OfFailure(act)
    ensures Unmoved(w, Do(w, act, FREE), e)
  {
    assert EntryInv(w, e);
    hide Inv, EntryInv, Enabled, Do, Unmoved;
    NotFailing(w, act, e);
    FailureElsewhere(w, act, e);
  }

  lemma NotFailing(w: World, act: Act, e: EntryId)
    requires Stuck(TablesOf(w), e) && Owned(w, e) && Enabled(w, act, FREE) && OfFailure(act)
    ensures act.e != e && act.e < |w.entries|
  {
    hide OutsideEnabled, OutsideDone, JobEnabled, JobDone, PlanEnabled, PlanDone, CopyEnabled, CopyDone, UploadEnabled,
         UploadDone;
    hide OthersIdle, Unfinished;
  }

  lemma FailureElsewhere(w: World, act: Act, e: EntryId)
    requires Enabled(w, act, FREE) && OfFailure(act) && act.e != e && Owned(w, e)
    ensures Unmoved(w, Do(w, act, FREE), e)
  {
    hide Enabled, Do, Mine;
    OtherRows(w, act, FREE, w.entries[e].attempt.value);
    FailureEntries(w, act, e);
    HasOwned(w, act.e);
  }

  lemma HasOwned(w: World, e: EntryId)
    ensures Has(w, e) ==> w.attempts[At(w, e)].entry == e
  {
  }

  lemma FailureEntries(w: World, act: Act, e: EntryId)
    requires Enabled(w, act, FREE) && OfFailure(act) && act.e != e && e < |w.entries|
    ensures |Do(w, act, FREE).entries| == |w.entries| && Do(w, act, FREE).entries[e] == w.entries[e]
  {
    hide Enabled, Do;
    if act.Fail? { FailEntries(w, act, e); } else { PointFailEntries(w, act, e); }
  }

  lemma FailEntries(w: World, act: Act, e: EntryId)
    requires Enabled(w, act, FREE) && act.Fail? && act.e != e && e < |w.entries|
    ensures |Do(w, act, FREE).entries| == |w.entries| && Do(w, act, FREE).entries[e] == w.entries[e]
  {
    hide OutsideEnabled, OutsideDone, JobEnabled, JobDone, PlanEnabled, PlanDone, CopyEnabled, CopyDone, UploadEnabled,
         UploadDone;
    if Has(w, act.e) { FailedRowOnly(w, act.e, act.err); }
    hide FailedRow, Meets, Mine, OthersIdle, Unfinished;
  }

  lemma PointFailEntries(w: World, act: Act, e: EntryId)
    requires Enabled(w, act, FREE) && act.PointFail? && act.e != e && e < |w.entries|
    ensures |Do(w, act, FREE).entries| == |w.entries| && Do(w, act, FREE).entries[e] == w.entries[e]
  {
    hide OutsideEnabled, OutsideDone, JobEnabled, JobDone, PlanEnabled, PlanDone, CopyEnabled, CopyDone, UploadEnabled,
         UploadDone;
    hide Trouble, OthersIdle, Unfinished;
  }

  lemma FailedRowOnly(w: World, e: EntryId, err: Error)
    requires Has(w, e)
    ensures FailedRow(w, e, err).entries == w.entries
  {
    hide Work;
  }

  /** These actions need a current attempt that was not abandoned, or an entry that was given up. */
  lemma CopyOpen(w: World, act: Act)
    requires Enabled(w, act, FREE) && OfCopy(act) && !act.Fill?
    ensures Has(w, act.e) && (AbandonedPhase(Row(w, act.e).phase) ==> GivenUp(w.entries[act.e].state))
  {
    hide OutsideEnabled, OutsideDone, JobEnabled, JobDone, PlanEnabled, PlanDone, UploadEnabled, UploadDone,
         FailureEnabled, FailureDone;
    hide Work, HasPlanned, InFlight, Nameless;
  }

  lemma UploadOpen(w: World, act: Act)
    requires Enabled(w, act, FREE) && OfUpload(act)
    ensures Has(w, act.e) && (AbandonedPhase(Row(w, act.e).phase) ==> GivenUp(w.entries[act.e].state))
  {
    hide OutsideEnabled, OutsideDone, JobEnabled, JobDone, PlanEnabled, PlanDone, CopyEnabled, CopyDone,
         FailureEnabled, FailureDone;
    hide Work, Room, Delivered, HasPlanned, InFlight;
  }

  /** What other threads and the service do is no more than `Env` says. */
  lemma OutsideEnv(w: World, act: Act)
    requires Inv(w) && Enabled(w, act, FREE)
    requires Outside(act)
    ensures Env(w, Do(w, act, FREE))
  {
    hide JobEnabled, JobDone, PlanEnabled, PlanDone, CopyEnabled, CopyDone, UploadEnabled, UploadDone, FailureEnabled,
         FailureDone;
    hide Inv, Env;
    match act {
      case Stop(full) => StopKeeps(w, HaltTables(w, full));
      case Pause(on) => FlagKeeps(w, w.job.(pauseRequested := on));
      case Switch(on) => SetRetryEnabledKeeps(w, on);
      case Land(a, replace) => LandUploadKeeps(w, a, replace);
      case Lose(a) => LoseUploadKeeps(w, a);
      case Check => PassCheckKeeps(w);
    }
  }

  /** An action that moves an entry that a step takes up and whose attempt was not abandoned. */
  ghost function Move(w: World, e: EntryId): Act
    requires e < |w.entries|
  {
    if w.entries[e].kind.Dir? then FailDirectory(e, Error(DestinationOutage, false, false, false))
    else if !Has(w, e) then Fail(e, Error(SourceError, false, false, false), false)
    else match Row(w, e).phase
      case DownloadRetryWait => Wake(e)
      case TransferIntent => Fail(e, Error(OutcomeUnknownCode, true, false, false), false)
      case MoveIntent => Fail(e, Error(OutcomeUnknownCode, true, false, false), false)
      case UnknownTransfer => Fail(e, Error(OutcomeUnknownCode, true, false, false), false)
      case UnknownMove => Fail(e, Error(OutcomeUnknownCode, true, false, false), false)
      case Failed =>
        Fail(e, Error(if Row(w, e).error.Some? then Row(w, e).error.value else InternalError, false, false, false), false)
      case _ => Fail(e, Error(DestinationOutage, false, false, false), false)
  }

  lemma Moved(w: World, e: EntryId)
    requires Inv(w) && NextUp(TablesOf(w), e) && !w.entries[e].pointRequested
    requires (w.job.direct || w.job.space.Owned?) && !Stuck(TablesOf(w), e)
    ensures Enabled(w, Move(w, e), FREE) && !Unmoved(w, Do(w, Move(w, e), FREE), e)
  {
    if w.entries[e].kind.Dir? {
      DirectoryUntried(w, e);
      FolderMoves(w, e);
    } else {
      InProgress(w, e);
      if Has(w, e) { MoveMeets(w, e); }
      hide Inv, Stuck, Work;
      if Has(w, e) && Row(w, e).phase.DownloadRetryWait? {
        WakeMoves(w, e);
      } else {
        hide Meets, Mine;
        FailMoves(w, e, Move(w, e).err);
      }
    }
  }

  lemma FolderMoves(w: World, e: EntryId)
    requires e < |w.entries| && w.entries[e].kind.Dir? && InWork(w.entries[e].state) && w.entries[e].attempt.None?
    ensures Enabled(w, Move(w, e), FREE) && !Unmoved(w, Do(w, Move(w, e), FREE), e)
  {
    hide OutsideEnabled, OutsideDone, JobEnabled, JobDone, CopyEnabled, CopyDone, UploadEnabled, UploadDone,
         FailureEnabled, FailureDone;
  }

  /** While the job runs, a step takes the entry up that is next, and moves it. */
  lemma StepMoves(s: State, e: EntryId)
    requires Inv(s.w) && s.at.Nobody? && s.w.job.state.Running? && !s.w.job.stopRequested && s.w.job.space.Owned?
    requires NextUp(TablesOf(s.w), e) && !s.w.entries[e].pointRequested && !Stuck(TablesOf(s.w), e)
    ensures May(s, Begin(e), FREE)
    ensures var s1 := Does(s, Begin(e), FREE);
            May(s1, Move(s.w, e), FREE) && !Unmoved(s.w, Does(s1, Move(s.w, e), FREE).w, e)
  {
    Moved(s.w, e);
    BeginsAt(s, e);
    MoveTurn(s.(at := Step(e)), e);
    hide Inv, Enabled, Do, Turn, Stuck, Unmoved, Move;
  }

  /** A step that takes up a stuck entry does nothing to it. */
  lemma StepIsStuck(s: State, act: Act, e: EntryId)
    requires Inv(s.w) && s.at == Step(e) && Stuck(TablesOf(s.w), e) && May(s, act, FREE)
    ensures Unmoved(s.w, Does(s, act, FREE).w, e)
  {
    NotFreed(s, act, e);
    hide Enabled, Do;
    StuckUnmoved(s.w, act, e);
  }

  lemma NotFreed(s: State, act: Act, e: EntryId)
    requires Inv(s.w) && s.at == Step(e) && Stuck(TablesOf(s.w), e) && May(s, act, FREE)
    ensures !Frees(act, e)
  {
    OneStuck(s.w, e);
    hide Inv;
    hide OutsideEnabled, OutsideDone, JobEnabled, JobDone, CopyEnabled, CopyDone, UploadEnabled, UploadDone,
         FailureEnabled, FailureDone;
  }

  lemma BeginsAt(s: State, e: EntryId)
    requires s.at.Nobody? && s.w.job.state.Running? && !s.w.job.stopRequested && s.w.job.space.Owned? && NextUp(TablesOf(s.w), e)
    ensures May(s, Begin(e), FREE) && Does(s, Begin(e), FREE) == s.(at := Step(e))
  {
    hide OutsideEnabled, OutsideDone, PlanEnabled, PlanDone, CopyEnabled, CopyDone, UploadEnabled, UploadDone,
         FailureEnabled, FailureDone;
    hide NextUp;
  }

  lemma MoveTurn(s: State, e: EntryId)
    requires e < |s.w.entries| && s.at == Step(e)
    ensures Turn(s, Move(s.w, e))
  {
    hide Mine;
  }

  lemma InProgress(w: World, e: EntryId)
    requires Inv(w) && NextUp(TablesOf(w), e) && w.entries[e].kind.File? && !w.entries[e].pointRequested
    requires (w.job.direct || w.job.space.Owned?) && !Stuck(TablesOf(w), e)
    ensures Work(w, e) && (w.entries[e].attempt.Some? ==> Has(w, e)) && (Has(w, e) ==> !AbandonedPhase(Row(w, e).phase))
  {
    assert EntryInv(w, e);
    forall i: EntryId | i != e ensures Idle(w, i) {
      if i < |w.entries| { assert NotBoth(w.entries, e, i) && EntryInv(w, i); }
    }
  }

  lemma MoveMeets(w: World, e: EntryId)
    requires Inv(w) && Has(w, e) && InWork(w.entries[e].state) && !AbandonedPhase(Row(w, e).phase)
    requires w.entries[e].kind.File?
    ensures !Row(w, e).phase.DownloadRetryWait? ==>
              Move(w, e).Fail? && Move(w, e).e == e && !Move(w, e).cut && Meets(w, e, Move(w, e).err)
  {
  }

  lemma WakeMoves(w: World, e: EntryId)
    requires Has(w, e) && Row(w, e).phase.DownloadRetryWait?
    ensures Enabled(w, Wake(e), FREE) && !Unmoved(w, Do(w, Wake(e), FREE), e)
  {
    hide OutsideEnabled, OutsideDone, JobEnabled, JobDone, PlanEnabled, PlanDone, UploadEnabled, UploadDone,
         FailureEnabled, FailureDone;
  }

  lemma FailMoves(w: World, e: EntryId, err: Error)
    requires Work(w, e) && NotRequested(w, e) && Meets(w, e, err) && InWork(w.entries[e].state)
    ensures Enabled(w, Fail(e, err, false), FREE) && !Unmoved(w, Do(w, Fail(e, err, false), FREE), e)
  {
    hide OutsideEnabled, OutsideDone, JobEnabled, JobDone, PlanEnabled, PlanDone, CopyEnabled, CopyDone, UploadEnabled,
         UploadDone;
  }
}
