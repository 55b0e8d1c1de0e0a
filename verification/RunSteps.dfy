/** Runs grown step by step: each kind of step, as a member of the states its label can lead to. */
module RunSteps {
  import opened Disk
  import opened Payload
  import opened Delivery
  import opened Machine
  import opened Clock

  ghost function Extended(run: Run, l: Label, s: Sys): Run { Run(run.states + [s], run.labels + [l]) }

  const FRESH := Sys(Disks(EMPTY_DIR, EMPTY_DIR, EMPTY_DIR), map[], map[], Down, 0, NO_HISTORY)

  ghost function Last(run: Run): Sys { if run.states == [] then FRESH else run.states[|run.states| - 1] }

  /** `run'` begins with `run`. */
  ghost predicate Continues(run: Run, run': Run) { run.states <= run'.states && run.labels <= run'.labels }

  lemma Onward(a: Run, b: Run, c: Run)
    requires Continues(a, b) && Continues(b, c)
    ensures Continues(a, c)
  {}

  /** All finite runs, and the states a label can lead to. */
  ghost function Runs(p: Params): iset<Run> { iset run | ValidRun(p, run) }

  ghost function Next(p: Params, s: Sys, l: Label): iset<Sys> { iset s' | Step(p, s, l, s') }

  lemma InRuns(p: Params, run: Run)
    ensures run in Runs(p) <==> ValidRun(p, run)
  {
    hide ValidRun;
  }

  lemma ExtendedIsValid(p: Params, run: Run, l: Label, s: Sys)
    requires run in Runs(p) && s in Next(p, Last(run), l)
    ensures Extended(run, l, s) in Runs(p) && Last(Extended(run, l, s)) == s
    ensures Forward(run) && Last(run).clock <= s.clock ==> Forward(Extended(run, l, s))
  {
    hide Step, Init;
    var r := Extended(run, l, s);
    forall i | 0 <= i < |r.labels| ensures Step(p, r.states[i], r.labels[i], r.states[i + 1]) {
      if i < |run.labels| { assert r.labels[i] == run.labels[i]; }
    }
  }

  // ---- one lemma per label ----

  lemma WorkIs(p: Params, s: Sys, l: WorkerStep, s': Sys)
    requires WorkerNext(p, s, l, s')
    ensures s' in Next(p, s, Work(l))
  {
    hide SmtpNext, ProcessNext, WorkerNext;
  }

  lemma SmtpIs(p: Params, s: Sys, id: string, l: SmtpStep, s': Sys)
    requires SmtpNext(p, s, id, l, s')
    ensures s' in Next(p, s, Smtp(id, l))
  {
    hide SmtpNext, ProcessNext, WorkerNext;
  }

  lemma ProcIs(p: Params, s: Sys, l: ProcessStep, s': Sys)
    requires ProcessNext(p, s, l, s')
    ensures s' in Next(p, s, Proc(l))
  {
    hide SmtpNext, ProcessNext, WorkerNext;
  }

  lemma TickIs(p: Params, s: Sys, t: int)
    ensures s.(clock := t) in Next(p, s, Tick(t))
  {
    hide SmtpNext, ProcessNext, WorkerNext;
  }

  lemma FlushIs(p: Params, s: Sys, a: bool, b: bool, c: bool, s': Sys)
    requires DoFlush(s, a, b, c, s')
    ensures s' in Next(p, s, Flush(a, b, c))
  {
    hide SmtpNext, ProcessNext, WorkerNext;
  }

  lemma ClaimNothingIs(p: Params, s: Sys, s': Sys)
    requires s.proc.Up? && DoClaimNothing(s, s.proc.worker, s')
    ensures s' in Next(p, s, Work(ClaimNothing))
  {
    hide Next;
    WorkIs(p, s, ClaimNothing, s');
  }

  lemma ClaimIs(p: Params, s: Sys, id: string, outcome: TxOutcome, s': Sys)
    requires s.proc.Up? && DoClaim(s, s.proc.worker, id, outcome, s')
    ensures s' in Next(p, s, Work(WorkerStep.Claim(id, outcome)))
  {
    hide Next;
    WorkIs(p, s, WorkerStep.Claim(id, outcome), s');
  }

  lemma LoadIs(p: Params, s: Sys, l: WorkerStep, s': Sys)
    requires s.proc.Up? && (l.LoadGood? || l.LoadCorrupt? || l.LoadError?)
    requires l.LoadGood? ==> DoLoadGood(p, s, s.proc.worker, s')
    requires l.LoadCorrupt? ==> DoLoadCorrupt(p, s, s.proc.worker, l.cause, s')
    requires l.LoadError? ==> DoLoadError(s, s.proc.worker, s')
    ensures s' in Next(p, s, Work(l))
  {
    hide Next;
    WorkIs(p, s, l, s');
  }

  lemma DeadLetterIs(p: Params, s: Sys, outcome: TxOutcome, s': Sys)
    requires s.proc.Up? && DoDeadLetterCorrupt(s, s.proc.worker, outcome, s')
    ensures s' in Next(p, s, Work(DeadLetterCorrupt(outcome)))
  {
    hide Next;
    WorkIs(p, s, DeadLetterCorrupt(outcome), s');
  }

  lemma RequeueIs(p: Params, s: Sys, outcome: TxOutcome, s': Sys)
    requires s.proc.Up? && DoRequeue(s, s.proc.worker, outcome, s')
    ensures s' in Next(p, s, Work(Requeue(outcome)))
  {
    hide Next;
    WorkIs(p, s, Requeue(outcome), s');
  }

  lemma SweepStagingIs(p: Params, s: Sys, op: Op, s': Sys)
    requires DoSweepStaging(s, op, s')
    ensures s' in Next(p, s, Proc(SweepStaging(op)))
  {
    hide Next;
    ProcIs(p, s, SweepStaging(op), s');
  }

  lemma SweepDoneIs(p: Params, s: Sys, s': Sys)
    requires DoSweepDone(s, s')
    ensures s' in Next(p, s, Proc(SweepDone))
  {
    hide Next;
    ProcIs(p, s, SweepDone, s');
  }

  lemma ExitIs(p: Params, s: Sys)
    ensures s.(enq := map[], proc := Down) in Next(p, s, Proc(Exit))
  {
    hide Next;
    ProcIs(p, s, Exit, s.(enq := map[], proc := Down));
  }

  lemma CrashIs(p: Params, s: Sys, after: Disks, s': Sys)
    requires DoCrash(s, after, s')
    ensures s' in Next(p, s, Proc(Crash(after)))
  {
    hide Next;
    ProcIs(p, s, Crash(after), s');
  }

  lemma RecoverGoodIs(p: Params, s: Sys, s': Sys)
    requires DoRecoverGood(p, s, s')
    ensures s' in Next(p, s, Proc(RecoverGood))
  {
    hide Next;
    ProcIs(p, s, RecoverGood, s');
  }

  lemma RecoverCorruptIs(p: Params, s: Sys, cause: string, outcome: TxOutcome, s': Sys)
    requires DoRecoverCorrupt(p, s, cause, outcome, s')
    ensures s' in Next(p, s, Proc(RecoverCorrupt(cause, outcome)))
  {
    hide Next;
    ProcIs(p, s, RecoverCorrupt(cause, outcome), s');
  }

  lemma RecoverDoneIs(p: Params, s: Sys)
    requires s.proc.Recovering? && s.proc.todo == []
    ensures s.(proc := Process.Quarantining(s.proc.valid)) in Next(p, s, Proc(RecoverDone))
  {
    hide Next;
    ProcIs(p, s, RecoverDone, s.(proc := Process.Quarantining(s.proc.valid)));
  }

  lemma ServeIs(p: Params, s: Sys, s': Sys)
    requires DoServe(s, s')
    ensures s' in Next(p, s, Proc(Serve))
  {
    hide Next;
    ProcIs(p, s, Serve, s');
  }

  lemma QuarantineMoveIs(p: Params, s: Sys, name: Name, target: Name, s': Sys)
    requires DoQuarantineMove(s, name, target, s')
    ensures s' in Next(p, s, Proc(QuarantineMove(name, target)))
  {
    hide Next;
    ProcIs(p, s, QuarantineMove(name, target), s');
  }

  lemma QuarantineCopyIs(p: Params, s: Sys, orphans: Node, s': Sys)
    requires DoQuarantineCopy(s, orphans, s')
    ensures s' in Next(p, s, Proc(QuarantineCopy(orphans)))
  {
    hide Next;
    ProcIs(p, s, QuarantineCopy(orphans), s');
  }

  lemma BeginPassIs(p: Params, s: Sys, s': Sys)
    requires s.proc.Up? && s.proc.worker.Idle? && s' == s.(proc := Up(Polling(s.clock)))
    ensures s' in Next(p, s, Work(BeginPass))
  {
    hide Next;
    WorkIs(p, s, BeginPass, s');
  }

  lemma PickSubmittedIs(p: Params, s: Sys, id: string, s': Sys)
    requires s.proc.Up? && DoPickSubmitted(s, s.proc.worker, id, s')
    ensures s' in Next(p, s, Work(PickSubmitted(id)))
  {
    hide Next;
    WorkIs(p, s, PickSubmitted(id), s');
  }

  lemma NoSubmittedIs(p: Params, s: Sys, s': Sys)
    requires s.proc.Up? && DoNoSubmitted(s, s.proc.worker, s')
    ensures s' in Next(p, s, Work(NoSubmitted))
  {
    hide Next;
    WorkIs(p, s, NoSubmitted, s');
  }

  lemma ExpireIs(p: Params, s: Sys, s': Sys)
    requires s.proc.Up? && DoExpire(p, s, s.proc.worker, s')
    ensures s' in Next(p, s, Work(Expire))
  {
    hide Next;
    WorkIs(p, s, Expire, s');
  }

  lemma PollIs(p: Params, s: Sys, a: Answer, s': Sys)
    requires s.proc.Up? && DoPoll(p, s, s.proc.worker, a, s')
    ensures s' in Next(p, s, Work(Poll(a)))
  {
    hide Next;
    WorkIs(p, s, Poll(a), s');
  }

  lemma SubmitIs(p: Params, s: Sys, a: Answer, s': Sys)
    requires s.proc.Up? && DoSubmit(p, s, s.proc.worker, a, s')
    ensures s' in Next(p, s, Work(Submit(a)))
  {
    hide Next;
    WorkIs(p, s, Submit(a), s');
  }

  lemma FinalizeIs(p: Params, s: Sys, outcome: TxOutcome, s': Sys)
    requires s.proc.Up? && DoFinalize(s, s.proc.worker, outcome, s')
    ensures s' in Next(p, s, Work(Finalize(outcome)))
  {
    hide Next;
    WorkIs(p, s, Finalize(outcome), s');
  }

  lemma StopIs(p: Params, s: Sys, s': Sys)
    requires s.proc.Up? && s' == s.(proc := Up(Stopped))
    ensures s' in Next(p, s, Work(Stop))
  {
    hide Next;
    WorkIs(p, s, Stop, s');
  }

  lemma StartIs(p: Params, s: Sys, s': Sys)
    requires s.proc.Down? && s' == s.(proc := Process.Sweeping)
    ensures s' in Next(p, s, Proc(Start))
  {
    hide Next;
    ProcIs(p, s, Start, s');
  }

  lemma BeginIs(p: Params, s: Sys, id: string, msg: Message, s': Sys)
    requires DoBegin(p, s, id, msg, s')
    ensures s' in Next(p, s, Smtp(id, Begin(msg)))
  {
    hide Next;
    SmtpIs(p, s, id, Begin(msg), s');
  }

  lemma MakeStageIs(p: Params, s: Sys, id: string, suffix: string, tmps: seq<Name>, s': Sys)
    requires DoMakeStage(s, id, suffix, tmps, s')
    ensures s' in Next(p, s, Smtp(id, MakeStage(suffix, tmps)))
  {
    hide Next;
    SmtpIs(p, s, id, MakeStage(suffix, tmps), s');
  }

  lemma StageCallIs(p: Params, s: Sys, id: string, s': Sys)
    requires DoStageCall(p, s, id, s')
    ensures s' in Next(p, s, Smtp(id, StageCall))
  {
    hide Next;
    SmtpIs(p, s, id, StageCall, s');
  }

  lemma PublishIs(p: Params, s: Sys, id: string, s': Sys)
    requires DoPublish(p, s, id, s')
    ensures s' in Next(p, s, Smtp(id, Publish))
  {
    hide Next;
    SmtpIs(p, s, id, Publish, s');
  }

  lemma MakeTempIs(p: Params, s: Sys, id: string, suffix: string, items: seq<Item>, s': Sys)
    requires DoMakeTemp(p, s, id, suffix, items, s')
    ensures s' in Next(p, s, Smtp(id, MakeTemp(suffix, items)))
  {
    hide Next;
    SmtpIs(p, s, id, MakeTemp(suffix, items), s');
  }

  lemma CopyCallIs(p: Params, s: Sys, id: string, s': Sys)
    requires DoCopyCall(p, s, id, s')
    ensures s' in Next(p, s, Smtp(id, CopyCall))
  {
    hide Next;
    SmtpIs(p, s, id, CopyCall, s');
  }

  lemma PublishTempIs(p: Params, s: Sys, id: string, s': Sys)
    requires DoPublishTemp(p, s, id, s')
    ensures s' in Next(p, s, Smtp(id, PublishTemp))
  {
    hide Next;
    SmtpIs(p, s, id, PublishTemp, s');
  }

  lemma SyncPayloadsIs(p: Params, s: Sys, id: string, s': Sys)
    requires DoSyncPayloads(s, id, s')
    ensures s' in Next(p, s, Smtp(id, SyncPayloads))
  {
    hide Next;
    SmtpIs(p, s, id, SyncPayloads, s');
  }

  lemma InsertIs(p: Params, s: Sys, id: string, outcome: TxOutcome, s': Sys)
    requires DoInsert(s, id, outcome, s')
    ensures s' in Next(p, s, Smtp(id, Insert(outcome)))
  {
    hide Next;
    SmtpIs(p, s, id, Insert(outcome), s');
  }

  lemma AcknowledgeIs(p: Params, s: Sys, id: string, s': Sys)
    requires DoAcknowledge(s, id, s')
    ensures s' in Next(p, s, Smtp(id, Acknowledge))
  {
    hide Next;
    SmtpIs(p, s, id, Acknowledge, s');
  }

  lemma AbandonIs(p: Params, s: Sys, id: string, s': Sys)
    requires DoAbandon(s, id, s')
    ensures s' in Next(p, s, Smtp(id, Abandon))
  {
    hide Next;
    SmtpIs(p, s, id, Abandon, s');
  }

  lemma CleanStageIs(p: Params, s: Sys, id: string, op: Op, s': Sys)
    requires DoCleanStage(s, id, op, s')
    ensures s' in Next(p, s, Smtp(id, CleanStage(op)))
  {
    hide Next;
    SmtpIs(p, s, id, CleanStage(op), s');
  }

  lemma ReturnIs(p: Params, s: Sys, id: string, s': Sys)
    requires DoReturn(s, id, s')
    ensures s' in Next(p, s, Smtp(id, Return))
  {
    hide Next;
    SmtpIs(p, s, id, Return, s');
  }
}
