/** Streaming over a hijacked connection: the main select, the goroutine that copies output and the
    goroutine that copies input, joined by unbuffered channels, one `sync.Once` and a context. The
    steps of the three parties interleave freely. */
module Hijack {

  /** Which streams are attached. */
  datatype Streams = Streams(input: bool, output: bool, errors: bool, tty: bool)

  datatype Party = Main | Output | Input

  datatype Once = Unused | Running(party: Party) | Ran

  /** How copying a stream ended. */
  datatype CopyEnd = Eof | Escape | Broken

  datatype Result = Nil | SetupError | OutputError | DetachError | ContextError

  datatype MainState =
    | Setup | SettingOutput | Selecting | WaitingForOutput | Deferred(result: Result) | Returned(result: Result)

  datatype OutputState =
    | NoOutput | CopyingOutput | OutputRestores(end: CopyEnd) | SendingOutput(end: CopyEnd) | OutputSent(end: CopyEnd)

  datatype InputState =
    | NoInput | CopyingInput | InputRestores(end: CopyEnd) | SendingDetach | DetachSent | Closing | Closed

  datatype State = State(
    main: MainState, output: OutputState, input: InputState,
    once: Once, restores: nat, inRaw: bool, outRaw: bool, cancelled: bool,
    doneSignals: nat, detachSignals: nat)

  /** A raw terminal has to be set up, so restoring is not a no-op. */
  predicate NeedsTerminal(c: Streams) {
    c.input && c.tty
  }

  predicate HasOutput(c: Streams) {
    c.output || c.errors
  }

  predicate Init(s: State) {
    s == State(Setup, NoOutput, NoInput, Unused, 0, false, false, s.cancelled, 0, 0)
  }

  // Main: setup, the two selects, the deferred restore.

  // `setRawTerminal` makes the input raw, then the output; a failure of the second undoes nothing.

  predicate InputHalfFails(c: Streams, s: State, t: State) {
    s.main.Setup? && NeedsTerminal(c) && t == s.(main := Returned(SetupError))
  }

  predicate InputHalfSucceeds(c: Streams, s: State, t: State) {
    s.main.Setup? && NeedsTerminal(c) && t == s.(main := SettingOutput, inRaw := true)
  }

  predicate OutputHalfFails(s: State, t: State) {
    s.main.SettingOutput? && t == s.(main := Returned(SetupError))
  }

  predicate OutputHalfSucceeds(c: Streams, s: State, t: State) {
    && s.main.SettingOutput?
    && t == s.(main := Selecting, output := OutputStart(c), input := InputStart(c), outRaw := true)
  }

  /** Without an input terminal there is nothing to set up. */
  predicate SetupIsNop(c: Streams, s: State, t: State) {
    && s.main.Setup? && !NeedsTerminal(c)
    && t == s.(main := Selecting, output := OutputStart(c), input := InputStart(c))
  }

  function OutputStart(c: Streams): OutputState {
    if HasOutput(c) then CopyingOutput else NoOutput
  }

  function InputStart(c: Streams): InputState {
    if c.input then CopyingInput else Closing
  }

  function OutputResult(end: CopyEnd): Result {
    if end.Eof? then Nil else OutputError
  }

  predicate ReceiveOutput(s: State, t: State) {
    && (s.main.Selecting? || s.main.WaitingForOutput?) && s.output.SendingOutput?
    && t == s.(main := Deferred(OutputResult(s.output.end)), output := OutputSent(s.output.end))
  }

  predicate ReceiveDone(c: Streams, s: State, t: State) {
    && s.main.Selecting? && s.input.Closed?
    && t == s.(main := if HasOutput(c) then WaitingForOutput else Deferred(Nil))
  }

  predicate ReceiveDetach(s: State, t: State) {
    && s.main.Selecting? && s.input.SendingDetach?
    && t == s.(main := Deferred(DetachError), input := DetachSent, detachSignals := s.detachSignals + 1)
  }

  predicate ReceiveCancel(s: State, t: State) {
    && (s.main.Selecting? || s.main.WaitingForOutput?) && s.cancelled
    && t == s.(main := Deferred(ContextError))
  }

  // `restoreInput`: nothing without a terminal, otherwise `Once.Do`; a second caller waits.

  predicate Restoring(s: State, p: Party) {
    match p
    case Main => s.main.Deferred?
    case Output => s.output.OutputRestores?
    case Input => s.input.InputRestores?
  }

  predicate OnceBegins(c: Streams, s: State, t: State, p: Party) {
    && NeedsTerminal(c) && Restoring(s, p) && s.once.Unused?
    && t == s.(once := Running(p), restores := s.restores + 1)
  }

  predicate OnceEnds(s: State, t: State, p: Party) {
    && s.once == Running(p)
    && t == s.(once := Ran, inRaw := false, outRaw := false)
  }

  function AfterRestore(s: State, p: Party): State
    requires Restoring(s, p)
  {
    match p
    case Main => s.(main := Returned(s.main.result))
    case Output => s.(output := SendingOutput(s.output.end))
    case Input => s.(input := if s.input.end.Escape? then SendingDetach else Closing)
  }

  predicate RestoreReturns(c: Streams, s: State, t: State, p: Party) {
    && Restoring(s, p) && (!NeedsTerminal(c) || s.once.Ran?)
    && t == AfterRestore(s, p)
  }

  // The goroutines.

  predicate OutputEnds(c: Streams, s: State, t: State, end: CopyEnd) {
    && s.output.CopyingOutput? && !end.Escape?
    && t == s.(output := if c.output && c.tty then OutputRestores(end) else SendingOutput(end))
  }

  predicate InputEnds(c: Streams, s: State, t: State, end: CopyEnd) {
    && s.input.CopyingInput? && (end.Escape? ==> NeedsTerminal(c))
    && t == s.(input := InputRestores(end))
  }

  predicate InputCloses(s: State, t: State) {
    && s.input.Closing?
    && t == s.(input := Closed, doneSignals := s.doneSignals + 1)
  }

  predicate Cancel(s: State, t: State) {
    t == s.(cancelled := true)
  }

  predicate SetupStep(c: Streams, s: State, t: State) {
    || InputHalfFails(c, s, t) || InputHalfSucceeds(c, s, t)
    || OutputHalfFails(s, t) || OutputHalfSucceeds(c, s, t) || SetupIsNop(c, s, t)
  }

  predicate MainStep(c: Streams, s: State, t: State) {
    || SetupStep(c, s, t)
    || ReceiveOutput(s, t) || ReceiveDone(c, s, t) || ReceiveDetach(s, t) || ReceiveCancel(s, t)
  }

  predicate RestoreStep(c: Streams, s: State, t: State, p: Party) {
    OnceBegins(c, s, t, p) || OnceEnds(s, t, p) || RestoreReturns(c, s, t, p)
  }

  predicate CopyStep(c: Streams, s: State, t: State, end: CopyEnd) {
    OutputEnds(c, s, t, end) || InputEnds(c, s, t, end) || InputCloses(s, t) || Cancel(s, t)
  }

  ghost predicate Next(c: Streams, s: State, t: State) {
    || MainStep(c, s, t)
    || (exists p :: RestoreStep(c, s, t, p))
    || (exists end :: CopyStep(c, s, t, end))
  }

  /** One interleaving from the call of `stream` on. */
  ghost predicate IsRun(c: Streams, run: seq<State>) {
    && run != [] && Init(run[0])
    && forall i | 0 <= i < |run| - 1 :: Next(c, run[i], run[i + 1])
  }

  predicate Started(s: State) {
    !s.main.Setup? && !s.main.SettingOutput? && s.main != Returned(SetupError)
  }

  predicate InputFinished(s: State) {
    s.input.Closed? || s.input.DetachSent?
  }

  predicate NilIsJustified(c: Streams, s: State, result: Result) {
    result.Nil? && HasOutput(c) ==> s.output == OutputSent(Eof)
  }

  ghost predicate Invariant(c: Streams, s: State) {
    && s.restores == (if s.once.Unused? then 0 else 1)
    && (!NeedsTerminal(c) ==> s.once.Unused? && !s.inRaw && !s.outRaw)
    && (!Started(s) ==> s.output.NoOutput? && s.input.NoInput? && s.once.Unused? && !s.outRaw)
    && (s.main.Setup? ==> !s.inRaw) && (s.main.SettingOutput? ==> s.inRaw)
    && (Started(s) ==> !s.input.NoInput? && (s.output.NoOutput? <==> !HasOutput(c)))
    && (s.once.Running? ==> Restoring(s, s.once.party))
    && (s.once.Ran? ==> !s.inRaw && !s.outRaw)
    && (Started(s) && s.main.Returned? && NeedsTerminal(c) ==> s.once.Ran?)
    && (s.main.Returned? || s.main.Deferred? ==> NilIsJustified(c, s, s.main.result))
    && s.doneSignals == (if s.input.Closed? then 1 else 0)
    && s.detachSignals == (if s.input.DetachSent? then 1 else 0)
    && (s.main.Deferred? ==> !s.main.result.SetupError?)
    && (s.main.WaitingForOutput? ==> HasOutput(c))
    && (s.output.OutputSent? ==> s.main.Deferred? || s.main.Returned?)
  }

  lemma MainKeepsInvariant(c: Streams, s: State, t: State)
    requires Invariant(c, s) && MainStep(c, s, t)
    ensures Invariant(c, t)
  {
  }

  lemma RestoreKeepsInvariant(c: Streams, s: State, t: State, p: Party)
    requires Invariant(c, s) && RestoreStep(c, s, t, p)
    ensures Invariant(c, t)
  {
  }

  lemma OutputCopyKeepsInvariant(c: Streams, s: State, t: State, end: CopyEnd)
    requires Invariant(c, s) && OutputEnds(c, s, t, end)
    ensures Invariant(c, t)
  {
  }

  lemma CopyKeepsInvariant(c: Streams, s: State, t: State, end: CopyEnd)
    requires Invariant(c, s) && CopyStep(c, s, t, end)
    ensures Invariant(c, t)
  {
    if OutputEnds(c, s, t, end) {
      OutputCopyKeepsInvariant(c, s, t, end);
    }
  }

  /** Every step of every party keeps the invariant. */
  lemma InvariantStep(c: Streams, s: State, t: State)
    requires Invariant(c, s) && Next(c, s, t)
    ensures Invariant(c, t)
  {
    if MainStep(c, s, t) {
      MainKeepsInvariant(c, s, t);
    } else if p :| RestoreStep(c, s, t, p) {
      RestoreKeepsInvariant(c, s, t, p);
    } else {
      var end :| CopyStep(c, s, t, end);
      CopyKeepsInvariant(c, s, t, end);
    }
  }

  lemma {:induction false} InvariantHolds(c: Streams, run: seq<State>, i: nat)
    requires IsRun(c, run) && i < |run|
    ensures Invariant(c, run[i])
  {
    if i > 0 {
      InvariantHolds(c, run, i - 1);
      InvariantStep(c, run[i - 1], run[i]);
    }
  }

  /** In every interleaving the terminal is restored at most once, and when `stream` has returned
      after a successful setup it has been restored. */
  lemma {:induction false} RestoredOnceBeforeReturn(c: Streams, run: seq<State>, i: nat)
    requires IsRun(c, run) && i < |run|
    ensures run[i].restores <= 1
    ensures run[i].main.Returned? && run[i].main.result != SetupError && NeedsTerminal(c) ==> run[i].restores == 1
    ensures run[i].main.Returned? && run[i].main.result != SetupError ==> !run[i].inRaw && !run[i].outRaw
  {
    InvariantHolds(c, run, i);
  }

  /** The input side signals exactly one of done and detached by the time it has finished, and
      nothing before. */
  lemma {:induction false} InputSignalsOnce(c: Streams, run: seq<State>, i: nat)
    requires IsRun(c, run) && i < |run|
    ensures run[i].doneSignals + run[i].detachSignals == if InputFinished(run[i]) then 1 else 0
  {
    InvariantHolds(c, run, i);
  }

  /** A nil result with an output stream means that the output was copied to its end. */
  lemma {:induction false} NilMeansCopied(c: Streams, run: seq<State>, i: nat)
    requires IsRun(c, run) && i < |run|
    requires run[i].main == Returned(Nil) && HasOutput(c)
    ensures run[i].output == OutputSent(Eof)
  {
    InvariantHolds(c, run, i);
  }

  // What happens to the streams and the terminal.

  /** With an input on a terminal both ends are raw from the setup to the restore, otherwise never. Only an
      input that is there is copied, and the output goroutine exactly for an output or error stream. Nobody
      reports the end of a stream on a terminal before the terminal has been restored. */
  ghost predicate StreamsFit(c: Streams, s: State) {
    && (Started(s) ==> (s.inRaw <==> c.input && c.tty && !s.once.Ran?) && (s.outRaw <==> s.inRaw))
    && (Started(s) ==> (s.output.NoOutput? <==> !c.output && !c.errors))
    && (s.input.CopyingInput? || s.input.InputRestores? ==> c.input)
    && (s.output.OutputRestores? ==> c.output && c.tty)
    && (s.output.SendingOutput? || s.output.OutputSent? ==> !(c.input && c.output && c.tty) || s.once.Ran?)
    && (s.input.SendingDetach? || s.input.Closing? || InputFinished(s) ==> !(c.input && c.tty) || s.once.Ran?)
  }

  lemma MainFitsStreams(c: Streams, s: State, t: State)
    requires Invariant(c, s) && StreamsFit(c, s) && MainStep(c, s, t)
    ensures StreamsFit(c, t)
  {
  }

  lemma RestoreFitsStreams(c: Streams, s: State, t: State, p: Party)
    requires Invariant(c, s) && StreamsFit(c, s) && RestoreStep(c, s, t, p)
    ensures StreamsFit(c, t)
  {
  }

  lemma CopyFitsStreams(c: Streams, s: State, t: State, end: CopyEnd)
    requires StreamsFit(c, s) && CopyStep(c, s, t, end)
    ensures StreamsFit(c, t)
  {
  }

  lemma {:induction false} RestoredBeforeReported(c: Streams, run: seq<State>, i: nat)
    requires IsRun(c, run) && i < |run|
    ensures StreamsFit(c, run[i])
  {
    if i > 0 {
      hide Invariant, StreamsFit, Next, Init;
      RestoredBeforeReported(c, run, i - 1);
      InvariantHolds(c, run, i - 1);
      assert Next(c, run[i - 1], run[i]);
      StreamsStep(c, run[i - 1], run[i]);
    }
  }

  lemma StreamsStep(c: Streams, s: State, t: State)
    requires Invariant(c, s) && StreamsFit(c, s) && Next(c, s, t)
    ensures StreamsFit(c, t)
  {
    hide Invariant, StreamsFit, MainStep, RestoreStep, CopyStep;
    if MainStep(c, s, t) {
      MainFitsStreams(c, s, t);
    } else if p :| RestoreStep(c, s, t, p) {
      RestoreFitsStreams(c, s, t, p);
    } else {
      var end :| CopyStep(c, s, t, end);
      CopyFitsStreams(c, s, t, end);
    }
  }

  // What the result tells.

  ghost predicate HasResult(s: State) {
    s.main.Deferred? || s.main.Returned?
  }

  /** Output that was handed over decides the result; an output error, a detach and a cancellation have
      happened when they are reported. */
  ghost predicate ResultFits(s: State) {
    && (s.output.OutputSent? ==> HasResult(s) && s.main.result == if s.output.end.Eof? then Nil else OutputError)
    && (HasResult(s) && s.main.result.OutputError? ==> s.output.OutputSent? && !s.output.end.Eof?)
    && (HasResult(s) && s.main.result.ContextError? ==> s.cancelled)
    && (HasResult(s) && s.main.result.DetachError? ==> s.input.DetachSent?)
  }

  lemma ResultStep(c: Streams, s: State, t: State)
    requires Invariant(c, s) && ResultFits(s) && Next(c, s, t)
    ensures ResultFits(t)
  {
    hide Invariant, ResultFits, MainStep, RestoreStep, CopyStep;
    if MainStep(c, s, t) {
      NothingRunsBeforeSetup(c, s);
      MainFitsResult(c, s, t);
    } else if p :| RestoreStep(c, s, t, p) {
      RestoreFitsResult(c, s, t, p);
    } else {
      var end :| CopyStep(c, s, t, end);
      CopyFitsResult(c, s, t, end);
    }
  }

  lemma MainFitsResult(c: Streams, s: State, t: State)
    requires ResultFits(s) && MainStep(c, s, t)
    requires !Started(s) ==> s.output.NoOutput? && s.input.NoInput? && s.once.Unused? && !s.outRaw
    ensures ResultFits(t)
  {
  }

  lemma RestoreFitsResult(c: Streams, s: State, t: State, p: Party)
    requires ResultFits(s) && RestoreStep(c, s, t, p)
    ensures ResultFits(t)
  {
  }

  lemma CopyFitsResult(c: Streams, s: State, t: State, end: CopyEnd)
    requires ResultFits(s) && CopyStep(c, s, t, end)
    ensures ResultFits(t)
  {
  }

  /** Whenever `stream` has a result: output that was handed over gives nil at its end and an output error
      otherwise, and nothing else gives an output error; a context error means cancelled, a detach error
      detached. */
  lemma {:induction false} ResultMeaning(c: Streams, run: seq<State>, i: nat)
    requires IsRun(c, run) && i < |run|
    ensures ResultFits(run[i])
  {
    hide Invariant, Next, ResultFits, Init;
    if i > 0 {
      ResultMeaning(c, run, i - 1);
      InvariantHolds(c, run, i - 1);
      assert Next(c, run[i - 1], run[i]);
      ResultStep(c, run[i - 1], run[i]);
    } else {
      NoResultYet(run[0]);
    }
  }

  lemma NoResultYet(s: State)
    requires Init(s)
    ensures ResultFits(s)
  {
  }

  /** The escape keys can only be read through a raw terminal, and every trace of a detach comes
      after they were. */
  predicate DetachTraces(c: Streams, s: State, escaped: bool) {
    && (s.input == InputRestores(Escape) ==> NeedsTerminal(c))
    && (s.input.SendingDetach? || s.input.DetachSent? ==> NeedsTerminal(c) && escaped)
    && ((s.main.Deferred? || s.main.Returned?) && s.main.result.DetachError? ==> s.input.DetachSent?)
  }

  lemma DetachTracesStepMain(c: Streams, s: State, t: State, escaped: bool)
    requires DetachTraces(c, s, escaped) && MainStep(c, s, t)
    ensures DetachTraces(c, t, escaped || s.input == InputRestores(Escape))
  {
  }

  lemma DetachTracesStepRestore(c: Streams, s: State, t: State, escaped: bool, p: Party)
    requires DetachTraces(c, s, escaped) && RestoreStep(c, s, t, p)
    ensures DetachTraces(c, t, escaped || s.input == InputRestores(Escape))
  {
  }

  lemma DetachTracesStepCopy(c: Streams, s: State, t: State, escaped: bool, end: CopyEnd)
    requires DetachTraces(c, s, escaped) && CopyStep(c, s, t, end)
    ensures DetachTraces(c, t, escaped || s.input == InputRestores(Escape))
  {
  }

  lemma DetachTracesStep(c: Streams, s: State, t: State, escaped: bool)
    requires DetachTraces(c, s, escaped) && Next(c, s, t)
    ensures DetachTraces(c, t, escaped || s.input == InputRestores(Escape))
  {
    if MainStep(c, s, t) {
      DetachTracesStepMain(c, s, t, escaped);
    } else if p :| RestoreStep(c, s, t, p) {
      DetachTracesStepRestore(c, s, t, escaped, p);
    } else {
      var end :| CopyStep(c, s, t, end);
      DetachTracesStepCopy(c, s, t, escaped, end);
    }
  }

  predicate SawEscape(run: seq<State>, i: nat)
    requires i < |run|
  {
    i > 0 && (run[i - 1].input == InputRestores(Escape) || SawEscape(run, i - 1))
  }

  lemma {:induction false} SawEscapeMeaning(run: seq<State>, i: nat)
    requires i < |run| && SawEscape(run, i)
    ensures exists j :: 0 <= j < i && run[j].input == InputRestores(Escape)
  {
    if run[i - 1].input != InputRestores(Escape) {
      SawEscapeMeaning(run, i - 1);
    }
  }

  lemma {:induction false} DetachHistory(c: Streams, run: seq<State>, i: nat)
    requires IsRun(c, run) && i < |run|
    ensures DetachTraces(c, run[i], SawEscape(run, i))
  {
    if i > 0 {
      DetachHistory(c, run, i - 1);
      DetachTracesStep(c, run[i - 1], run[i], SawEscape(run, i - 1));
    }
  }

  /** A detach result means that the escape keys were read, which only a raw terminal can deliver. */
  lemma {:induction false} DetachMeansEscape(c: Streams, run: seq<State>, i: nat)
    requires IsRun(c, run) && i < |run| && run[i].main == Returned(DetachError)
    ensures NeedsTerminal(c) && exists j :: 0 <= j < i && run[j].input == InputRestores(Escape)
  {
    DetachHistory(c, run, i);
    SawEscapeMeaning(run, i);
  }

  // A setup that fails.

  predicate InputHalfAt(c: Streams, run: seq<State>, j: nat) {
    j + 1 < |run| && InputHalfSucceeds(c, run[j], run[j + 1])
  }

  predicate OutputFailureAt(run: seq<State>, j: nat) {
    j + 1 < |run| && OutputHalfFails(run[j], run[j + 1])
  }

  /** Before step i the input was made raw. */
  predicate InputMadeRaw(c: Streams, run: seq<State>, i: nat) {
    exists j | 0 <= j < i :: InputHalfAt(c, run, j)
  }

  /** Before step i making the output raw failed. */
  predicate OutputRefused(run: seq<State>, i: nat) {
    exists j | 0 <= j < i :: OutputFailureAt(run, j)
  }

  predicate SetupHistory(c: Streams, run: seq<State>, i: nat)
    requires i < |run|
  {
    match run[i].main
    case Setup => !run[i].inRaw && !InputMadeRaw(c, run, i) && !OutputRefused(run, i)
    case SettingOutput => run[i].inRaw && InputMadeRaw(c, run, i) && !OutputRefused(run, i)
    case Returned(SetupError) =>
      (run[i].inRaw <==> InputMadeRaw(c, run, i)) && (run[i].inRaw <==> OutputRefused(run, i)) && !run[i].outRaw
    case _ => true
  }

  /** One more step adds at most that step to what happened before. */
  lemma OneStepMore(c: Streams, run: seq<State>, i: nat)
    requires i + 1 < |run|
    ensures InputMadeRaw(c, run, i + 1) <==> InputMadeRaw(c, run, i) || InputHalfAt(c, run, i)
    ensures OutputRefused(run, i + 1) <==> OutputRefused(run, i) || OutputFailureAt(run, i)
  {
    hide InputHalfAt, OutputFailureAt;
  }

  lemma {:induction false} SetupHistoryHolds(c: Streams, run: seq<State>, i: nat)
    requires IsRun(c, run) && i < |run|
    ensures SetupHistory(c, run, i)
  {
    hide InputMadeRaw, OutputRefused, InputHalfAt, OutputFailureAt, SetupHistory, Invariant, Next, Init;
    if i > 0 {
      SetupHistoryHolds(c, run, i - 1);
      InvariantHolds(c, run, i - 1);
      OneStepMore(c, run, i - 1);
      assert Next(c, run[i - 1], run[i]);
      SetupHistoryStep(c, run, i - 1);
    } else {
      SetupHistoryStarts(c, run);
    }
  }

  lemma SetupHistoryStarts(c: Streams, run: seq<State>)
    requires run != [] && Init(run[0])
    ensures SetupHistory(c, run, 0)
  {
  }

  lemma SetupHistoryStep(c: Streams, run: seq<State>, i: nat)
    requires i + 1 < |run| && SetupHistory(c, run, i) && Invariant(c, run[i]) && Next(c, run[i], run[i + 1])
    requires InputMadeRaw(c, run, i + 1) <==> InputMadeRaw(c, run, i) || InputHalfAt(c, run, i)
    requires OutputRefused(run, i + 1) <==> OutputRefused(run, i) || OutputFailureAt(run, i)
    ensures SetupHistory(c, run, i + 1)
  {
    hide InputMadeRaw, OutputRefused, Invariant;
    var s, t := run[i], run[i + 1];
    assert s.main.Deferred? ==> !s.main.result.SetupError? by { DeferredIsNoSetupError(c, s); }
    assert !Started(s) ==> s.output.NoOutput? && s.input.NoInput? && s.once.Unused? && !s.outRaw by {
      NothingRunsBeforeSetup(c, s);
    }
    if MainStep(c, s, t) {
    } else if p :| RestoreStep(c, s, t, p) {
    } else {
      var end :| CopyStep(c, s, t, end);
    }
  }

  lemma DeferredIsNoSetupError(c: Streams, s: State)
    requires Invariant(c, s)
    ensures s.main.Deferred? ==> !s.main.result.SetupError?
  {
  }

  lemma NothingRunsBeforeSetup(c: Streams, s: State)
    requires Invariant(c, s)
    ensures !Started(s) ==> s.output.NoOutput? && s.input.NoInput? && s.once.Unused? && !s.outRaw
  {
  }

  /** After a setup error the input is left raw exactly when it had been made raw and making the output
      raw failed; the output never is. */
  lemma {:induction false} RawAfterSetupErrorExactlyWhen(c: Streams, run: seq<State>, i: nat)
    requires IsRun(c, run) && i < |run| && run[i].main == Returned(SetupError)
    ensures run[i].inRaw <==> InputMadeRaw(c, run, i) && OutputRefused(run, i)
    ensures !run[i].outRaw
  {
    SetupHistoryHolds(c, run, i);
  }

  /** Such a run: the first half succeeds, the second does not. */
  lemma FailedSetupMayLeaveInputRaw()
    ensures exists c: Streams, run: seq<State> ::
              IsRun(c, run) && run[|run| - 1].main == Returned(SetupError) && run[|run| - 1].inRaw
  {
    var c := Streams(true, true, true, true);
    var s := State(Setup, NoOutput, NoInput, Unused, 0, false, false, false, 0, 0);
    var t := s.(main := SettingOutput, inRaw := true);
    var u := t.(main := Returned(SetupError));
    assert InputHalfSucceeds(c, s, t) && OutputHalfFails(t, u);
    assert IsRun(c, [s, t, u]);
  }

  // Cancellation.

  function MainRank(m: MainState): nat {
    match m
    case Selecting => 3
    case WaitingForOutput => 2
    case Deferred(_) => 1
    case Returned(_) => 0
    case _ => 4
  }

  function OnceRank(once: Once): nat {
    match once
    case Unused => 2
    case Running(_) => 1
    case Ran => 0
  }

  /** What is left to do before `stream` returns. */
  function Measure(s: State): nat {
    MainRank(s.main) + OnceRank(s.once)
  }

  /** A step of main, or of whoever is inside the once. */
  ghost predicate BringsReturnCloser(c: Streams, s: State, t: State) {
    MainStep(c, s, t) || RestoreStep(c, s, t, Main) || exists p :: OnceBegins(c, s, t, p) || OnceEnds(s, t, p)
  }

  lemma MeasureStepMain(c: Streams, s: State, t: State)
    requires Started(s) && MainStep(c, s, t)
    ensures Measure(t) <= Measure(s)
    ensures BringsReturnCloser(c, s, t) ==> Measure(t) < Measure(s)
  {
  }

  lemma MeasureStepRestore(c: Streams, s: State, t: State, p: Party)
    requires Started(s) && RestoreStep(c, s, t, p)
    ensures Measure(t) <= Measure(s)
    ensures BringsReturnCloser(c, s, t) ==> Measure(t) < Measure(s)
  {
  }

  lemma MeasureStepCopy(c: Streams, s: State, t: State, end: CopyEnd)
    requires Started(s) && CopyStep(c, s, t, end)
    ensures Measure(t) <= Measure(s)
    ensures BringsReturnCloser(c, s, t) ==> Measure(t) < Measure(s)
  {
    CopyLeavesMain(c, s, t, end);
    hide CopyStep, MainStep, RestoreStep, OnceBegins, OnceEnds;
    if MainStep(c, s, t) {
      MeasureStepMain(c, s, t);
    } else if p :| RestoreStep(c, s, t, p) {
      MeasureStepRestore(c, s, t, p);
    } else if BringsReturnCloser(c, s, t) {
      var p :| OnceBegins(c, s, t, p) || OnceEnds(s, t, p);
      OnceMoves(c, s, t, p);
    }
  }

  lemma CopyLeavesMain(c: Streams, s: State, t: State, end: CopyEnd)
    requires CopyStep(c, s, t, end)
    ensures t.main == s.main && t.once == s.once
  {
  }

  lemma OnceMoves(c: Streams, s: State, t: State, p: Party)
    requires OnceBegins(c, s, t, p) || OnceEnds(s, t, p)
    ensures t.once != s.once && OnceRank(t.once) < OnceRank(s.once)
  {
  }

  /** Such a step decreases the measure, and no step of anybody increases it. */
  lemma MeasureStep(c: Streams, s: State, t: State)
    requires Started(s) && Next(c, s, t)
    ensures Measure(t) <= Measure(s)
    ensures BringsReturnCloser(c, s, t) ==> Measure(t) < Measure(s)
  {
    if MainStep(c, s, t) {
      MeasureStepMain(c, s, t);
    } else if p :| RestoreStep(c, s, t, p) {
      MeasureStepRestore(c, s, t, p);
    } else {
      var end :| CopyStep(c, s, t, end);
      MeasureStepCopy(c, s, t, end);
    }
  }

  lemma StartedStaysMain(c: Streams, s: State, t: State)
    requires Invariant(c, s) && Started(s) && MainStep(c, s, t)
    ensures Started(t) && (s.cancelled ==> t.cancelled) && (s.main.Returned? ==> t.main == s.main)
  {
  }

  lemma StartedStaysRestore(c: Streams, s: State, t: State, p: Party)
    requires Invariant(c, s) && Started(s) && RestoreStep(c, s, t, p)
    ensures Started(t) && (s.cancelled ==> t.cancelled) && (s.main.Returned? ==> t.main == s.main)
  {
  }

  lemma StartedStaysCopy(c: Streams, s: State, t: State, end: CopyEnd)
    requires Invariant(c, s) && Started(s) && CopyStep(c, s, t, end)
    ensures Started(t) && (s.cancelled ==> t.cancelled) && (s.main.Returned? ==> t.main == s.main)
  {
  }

  lemma StartedStays(c: Streams, s: State, t: State)
    requires Invariant(c, s) && Started(s) && Next(c, s, t)
    ensures Started(t) && (s.cancelled ==> t.cancelled) && (s.main.Returned? ==> t.main == s.main)
  {
    if MainStep(c, s, t) {
      StartedStaysMain(c, s, t);
    } else if p :| RestoreStep(c, s, t, p) {
      StartedStaysRestore(c, s, t, p);
    } else {
      var end :| CopyStep(c, s, t, end);
      StartedStaysCopy(c, s, t, end);
    }
  }

  ghost predicate CloserAt(c: Streams, run: seq<State>, k: nat) {
    k + 1 < |run| && BringsReturnCloser(c, run[k], run[k + 1])
  }

  /** The steps between two states of a run that bring the return closer. */
  ghost function CloserSteps(c: Streams, run: seq<State>, i: nat, j: nat): set<nat>
    requires i <= j < |run|
  {
    set k | i <= k < j && CloserAt(c, run, k)
  }

  lemma OneCloserStepMore(c: Streams, run: seq<State>, i: nat, j: nat)
    requires i < j < |run|
    ensures |CloserSteps(c, run, i, j)|
         <= |CloserSteps(c, run, i, j - 1)| + if BringsReturnCloser(c, run[j - 1], run[j]) then 1 else 0
  {
    hide BringsReturnCloser;
    var before, after := CloserSteps(c, run, i, j - 1), CloserSteps(c, run, i, j);
    if BringsReturnCloser(c, run[j - 1], run[j]) {
      assert after == before + {j - 1};
    } else {
      assert after == before;
    }
  }

  lemma MeasureIsAtMostFive(s: State)
    requires Started(s)
    ensures 0 <= Measure(s) <= 5
  {
  }

  /** In no run are there more of them than the measure allows, which is five. */
  lemma {:induction false} CloserStepsAreFew(c: Streams, run: seq<State>, i: nat, j: nat)
    requires IsRun(c, run) && i <= j < |run| && Started(run[i])
    ensures Started(run[j]) && (run[i].cancelled ==> run[j].cancelled)
    ensures |CloserSteps(c, run, i, j)| + Measure(run[j]) <= Measure(run[i]) <= 5
    decreases j
  {
    hide BringsReturnCloser, Invariant, Next, Measure, CloserSteps, Started;
    MeasureIsAtMostFive(run[i]);
    if i == j {
      NoCloserSteps(c, run, i);
    } else {
      CloserStepsAreFew(c, run, i, j - 1);
      InvariantHolds(c, run, j - 1);
      assert Next(c, run[j - 1], run[j]);
      StartedStays(c, run[j - 1], run[j]);
      MeasureStep(c, run[j - 1], run[j]);
      OneCloserStepMore(c, run, i, j);
    }
  }

  lemma NoCloserSteps(c: Streams, run: seq<State>, i: nat)
    requires i < |run|
    ensures CloserSteps(c, run, i, i) == {}
  {
  }

  /** Once cancelled, some step that waits for neither connection nor user brings the return closer, in
      every reachable state, until `stream` has returned. */
  lemma {:induction false} CancelledMoves(c: Streams, run: seq<State>, i: nat) returns (t: State)
    requires IsRun(c, run) && i < |run|
    requires run[i].cancelled && Started(run[i]) && !run[i].main.Returned?
    ensures Next(c, run[i], t) && BringsReturnCloser(c, run[i], t)
    ensures t.output == run[i].output && t.input == run[i].input
  {
    var s := run[i];
    InvariantHolds(c, run, i);
    if !s.main.Deferred? {
      t := s.(main := Deferred(ContextError));
      assert ReceiveCancel(s, t);
    } else if NeedsTerminal(c) && s.once.Unused? {
      t := s.(once := Running(Main), restores := s.restores + 1);
      assert OnceBegins(c, s, t, Main) && RestoreStep(c, s, t, Main);
    } else if NeedsTerminal(c) && s.once.Running? {
      t := s.(once := Ran, inRaw := false, outRaw := false);
      assert OnceEnds(s, t, s.once.party) && RestoreStep(c, s, t, s.once.party);
    } else {
      t := s.(main := Returned(s.main.result));
      assert RestoreStep(c, s, t, Main);
    }
  }

  /** Something is there for main or for the once to do. */
  ghost predicate HasWork(c: Streams, s: State) {
    || s.main.Deferred? || s.once.Running?
    || (s.cancelled && !s.main.Returned?)
    || (s.output.SendingOutput? && !s.main.Returned?)
    || (s.main.Selecting? && (s.input.Closed? || s.input.SendingDetach?))
    || (c.input && c.tty && s.once.Unused? && (s.output.OutputRestores? || s.input.InputRestores?))
  }

  /** Main and the once are blocked exactly when no stream has ended, nobody has cancelled or detached and no
      terminal is to be restored: they never wait for each other. */
  lemma {:induction false} BlockedExactlyWhen(c: Streams, run: seq<State>, i: nat)
    requires IsRun(c, run) && i < |run| && Started(run[i])
    ensures (exists t :: BringsReturnCloser(c, run[i], t)) <==> HasWork(c, run[i])
  {
    hide IsRun;
    InvariantHolds(c, run, i);
    if HasWork(c, run[i]) {
      var t := WorkIsDone(c, run[i]);
    } else if t :| BringsReturnCloser(c, run[i], t) {
      NothingToDo(c, run[i], t);
    }
  }

  lemma NothingToDo(c: Streams, s: State, t: State)
    requires Started(s) && BringsReturnCloser(c, s, t)
    ensures HasWork(c, s)
  {
  }

  lemma WorkIsDone(c: Streams, s: State) returns (t: State)
    requires Invariant(c, s) && Started(s) && HasWork(c, s)
    ensures BringsReturnCloser(c, s, t)
  {
    if s.once.Running? {
      t := s.(once := Ran, inRaw := false, outRaw := false);
      assert OnceEnds(s, t, s.once.party);
    } else if NeedsTerminal(c) && s.once.Unused? && Restoring(s, Main) {
      t := s.(once := Running(Main), restores := s.restores + 1);
      assert OnceBegins(c, s, t, Main);
    } else if s.main.Deferred? {
      t := s.(main := Returned(s.main.result));
      assert RestoreStep(c, s, t, Main);
    } else if s.cancelled && !s.main.Returned? {
      t := s.(main := Deferred(ContextError));
      assert ReceiveCancel(s, t);
    } else if s.output.SendingOutput? && !s.main.Returned? {
      t := s.(main := Deferred(OutputResult(s.output.end)), output := OutputSent(s.output.end));
      assert ReceiveOutput(s, t);
    } else if s.main.Selecting? && s.input.Closed? {
      t := s.(main := if HasOutput(c) then WaitingForOutput else Deferred(Nil));
      assert ReceiveDone(c, s, t);
    } else if s.main.Selecting? && s.input.SendingDetach? {
      t := s.(main := Deferred(DetachError), input := DetachSent, detachSignals := s.detachSignals + 1);
      assert ReceiveDetach(s, t);
    } else {
      var p := if s.output.OutputRestores? then Output else Input;
      t := s.(once := Running(p), restores := s.restores + 1);
      assert OnceBegins(c, s, t, p);
    }
  }

  /** Cancelling never leaves `stream` stuck: in every run, whatever the other parties do, main and
      whoever is inside the once take at most five steps after the start, and until `stream` has
      returned a cancelled one always has such a step to take. */
  lemma {:induction false} CancelledStreamReturns(c: Streams, run: seq<State>, i: nat, j: nat)
    requires IsRun(c, run) && i <= j < |run| && run[i].cancelled && Started(run[i])
    ensures |CloserSteps(c, run, i, j)| <= 5
    ensures |CloserSteps(c, run, i, j)| == Measure(run[i]) ==> run[j].main.Returned?
    ensures run[j].main.Returned? || exists t :: Next(c, run[j], t) && BringsReturnCloser(c, run[j], t)
  {
    CloserStepsAreFew(c, run, i, j);
    if !run[j].main.Returned? {
      var t := CancelledMoves(c, run, j);
    }
  }
}
