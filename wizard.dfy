/**
 * The wizard controller of MultiStepForm.tsx: its four pieces of component
 * state, the events that change them, the `renderStep` dispatch that decides
 * which step (and so which callbacks) is shown, and the reachable-state
 * invariant those events keep.
 *
 * The two `setTimeout` delays are not clocks here: the initial 2000 ms timer is
 * the event `TimerFires`, and the 800 ms `await` inside `handleNext` resolving
 * is the event `DelayCompletes`.
 */
module Wizard {
  import opened Optional
  import opened FormModel
  import opened Dni

  /**
   * The component state. `timerPending` says that the initial timer is still
   * scheduled (its clean-up cancels it); `pendingAdvances` counts the
   * `handleNext` calls whose delay has not yet completed.
   */
  datatype State = State(
    isLoading: bool,
    currentStep: int,
    isStepLoading: bool,
    formData: FormData,
    timerPending: bool,
    pendingAdvances: nat)

  function Initial(): State {
    State(true, 0, false, InitialFormData(), true, 0)
  }

  // ---------------------------------------------------------------------------
  // The component's own handlers, one function per state change
  // ---------------------------------------------------------------------------

  /** The initial timer's callback: `setIsLoading(false); setCurrentStep(1)`. */
  function TimerFired(s: State): State {
    s.(isLoading := false, currentStep := 1, timerPending := false)
  }

  /** The first half of `handleNext`: `setIsStepLoading(true)` and start the delay. */
  function NextBegun(s: State): State {
    s.(isStepLoading := true, pendingAdvances := s.pendingAdvances + 1)
  }

  /** The second half of `handleNext`, once the delay resolves: step + 1, flag cleared. */
  function NextCompleted(s: State): State
    requires s.pendingAdvances > 0
  {
    s.(currentStep := s.currentStep + 1, isStepLoading := false, pendingAdvances := s.pendingAdvances - 1)
  }

  /** `handleBack`: an unconditional decrement. */
  function WentBack(s: State): State {
    s.(currentStep := s.currentStep - 1)
  }

  function WithFormData(s: State, f: FormData): State {
    s.(formData := f)
  }

  /** The effect's clean-up: `clearTimeout(timer)`. */
  function Unmounted(s: State): State {
    s.(timerPending := false)
  }

  // ---------------------------------------------------------------------------
  // renderStep
  // ---------------------------------------------------------------------------

  /** The parent handlers a step component can receive as `onNext` / `onBack`. */
  datatype Handler = HandleNext | HandleBack | HandleSubmit

  /** What `renderStep` returns, with the callback props it wires. */
  datatype View =
    | LoadingScreen
    | Spinner
    | IdentificationView(dni: string, onNext: Handler, onBack: Handler)
    | CardInfoView(cardInfo: CardInfo, onNext: Handler, onBack: Handler)
    | Blank
    | RenderFailed  // rendering threw: nothing is on screen

  /**
   * `renderStep` as written: the `isStepLoading` branch names `LoadingSpinner`,
   * which MultiStepForm.tsx never imports, so evaluating it throws instead of
   * returning a view.
   */
  function RenderStepAsWritten(s: State): View {
    if s.isLoading then LoadingScreen
    else if s.isStepLoading then RenderFailed
    else if s.currentStep == 1 then IdentificationView(s.formData.dni, HandleNext, HandleBack)
    else if s.currentStep == 2 then CardInfoView(s.formData.cardInfo, HandleSubmit, HandleBack)
    else Blank
  }

  function RenderStep(s: State): View {
    if s.isLoading then LoadingScreen
    else if s.isStepLoading then Spinner
    else if s.currentStep == 1 then IdentificationView(s.formData.dni, HandleNext, HandleBack)
    else if s.currentStep == 2 then CardInfoView(s.formData.cardInfo, HandleSubmit, HandleBack)
    else Blank
  }

  /** The `onNext` / `onBack` handlers a view exposes. */
  function Callbacks(v: View): set<Handler> {
    match v
    case IdentificationView(_, n, b) => {n, b}
    case CardInfoView(_, n, b) => {n, b}
    case _ => {}
  }

  function RunHandler(s: State, h: Handler): State {
    match h
    case HandleNext => NextBegun(s)
    case HandleBack => WentBack(s)
    case HandleSubmit => s
  }

  /** The dispatch's priority order, each branch as an if-and-only-if on the state. */
  lemma RenderPriority(s: State)
    ensures RenderStep(s) == LoadingScreen <==> s.isLoading
    ensures RenderStep(s) == Spinner <==> !s.isLoading && s.isStepLoading
    ensures RenderStep(s).IdentificationView? <==> !s.isLoading && !s.isStepLoading && s.currentStep == 1
    ensures RenderStep(s).CardInfoView? <==> !s.isLoading && !s.isStepLoading && s.currentStep == 2
    ensures RenderStep(s) == Blank <==>
              !s.isLoading && !s.isStepLoading && s.currentStep != 1 && s.currentStep != 2
  {
  }

  /** The written dispatch differs from the intended one exactly in the spinner branch. */
  lemma AsWrittenDiffersOnlyAtSpinner(s: State)
    ensures RenderStepAsWritten(s) == RenderFailed <==> RenderStep(s) == Spinner
    ensures RenderStep(s) != Spinner ==> RenderStepAsWritten(s) == RenderStep(s)
  {
  }

  /**
   * As written, an accepted continue from step 1 makes the next render throw:
   * the spinner never appears, and no step callback is on screen afterwards.
   */
  lemma AcceptedContinueFailsToRender(s: State)
    requires Invariant(s) && RenderStep(s).IdentificationView? && AdvanceGate(s.formData.dni)
    ensures RenderStepAsWritten(Apply(s, ContinueClicked)) == RenderFailed
    ensures Callbacks(RenderStepAsWritten(Apply(s, ContinueClicked))) == {}
  {
    AsWrittenDiffersOnlyAtSpinner(Apply(s, ContinueClicked));
  }

  /** Only the identification step can reach `handleNext`; the card step's forward action is submit. */
  lemma OnlyStepOneAdvances(s: State)
    ensures HandleNext in Callbacks(RenderStep(s)) <==> !s.isLoading && !s.isStepLoading && s.currentStep == 1
    ensures RenderStep(s).CardInfoView? ==> RenderStep(s).onNext == HandleSubmit
    ensures HandleBack in Callbacks(RenderStep(s)) <==>
              !s.isLoading && !s.isStepLoading && (s.currentStep == 1 || s.currentStep == 2)
  {
  }

  // ---------------------------------------------------------------------------
  // Events
  // ---------------------------------------------------------------------------

  /** What can happen to the mounted component: timers, and interactions with the shown step. */
  datatype Event =
    | TimerFires                        // the 2000 ms initial timer
    | DelayCompletes                    // the 800 ms await of a handleNext call resolves
    | Unmount                           // the effect's clean-up runs
    | DniTyped(raw: string)             // onChange of the DNI input: validateDni(raw)
    | ContinueClicked                   // the identification step's handleNext
    | BackClicked                       // the shown step's onBack
    | CardFieldChanged(edit: CardEdit)  // the card step's onCardInfoChange
    | SubmitClicked                     // the card step's onNext

  /** An event can happen only when its timer is pending or its step is on screen. */
  predicate Enabled(s: State, e: Event) {
    match e
    case TimerFires => s.timerPending
    case DelayCompletes => s.pendingAdvances > 0
    case Unmount => true
    case DniTyped(_) => RenderStep(s).IdentificationView?
    case ContinueClicked => RenderStep(s).IdentificationView?
    case BackClicked => HandleBack in Callbacks(RenderStep(s))
    case CardFieldChanged(_) => RenderStep(s).CardInfoView?
    case SubmitClicked => RenderStep(s).CardInfoView?
  }

  /** The state after an enabled event, through the props `renderStep` wired. */
  function Apply(s: State, e: Event): State
    requires Enabled(s, e)
  {
    match e
    case TimerFires => TimerFired(s)
    case DelayCompletes => NextCompleted(s)
    case Unmount => Unmounted(s)
    case DniTyped(raw) => WithFormData(s, UpdateFormData(s.formData, SetDni(StripNonDigits(raw))))
    case ContinueClicked =>
      var v := RenderStep(s);
      var validated := WithFormData(s, UpdateFormData(s.formData, SetDni(StripNonDigits(v.dni))));
      if AdvanceGate(v.dni) then RunHandler(validated, v.onNext) else validated
    case BackClicked => RunHandler(s, RenderStep(s).onBack)
    case CardFieldChanged(edit) => WithFormData(s, MergeCardInfo(s.formData, edit))
    case SubmitClicked => RunHandler(s, RenderStep(s).onNext)
  }

  /** Runs a sequence of events; `None` when one of them could not happen. */
  function Run(s: State, es: seq<Event>): Option<State>
    decreases |es|
  {
    if es == [] then Some(s)
    else if Enabled(s, es[0]) then Run(Apply(s, es[0]), es[1..])
    else None
  }

  // ---------------------------------------------------------------------------
  // Properties
  // ---------------------------------------------------------------------------

  /** The initial state: loading, step 0, no step transition, and the empty record. */
  lemma InitialStateShape()
    ensures Initial().isLoading && Initial().currentStep == 0 && !Initial().isStepLoading
    ensures Initial().formData.dni == ""
    ensures Initial().formData.cardInfo.kind == Credit && Initial().formData.cardInfo.bank == None
    ensures forall k :: k in {NumberKey, NameKey, ExpiryKey, CvvKey} ==>
              CardValueAt(Initial().formData.cardInfo, k) == TextValue("")
    ensures RenderStep(Initial()) == LoadingScreen
  {
  }

  /** The initial timer ends the loading screen at step 1 and leaves the record alone. */
  lemma TimerStartsFlow(s: State)
    requires Enabled(s, TimerFires)
    ensures !Apply(s, TimerFires).isLoading && Apply(s, TimerFires).currentStep == 1
    ensures Apply(s, TimerFires).formData == s.formData
    ensures !Enabled(Apply(s, TimerFires), TimerFires)
  {
  }

  /**
   * The properties every reachable state has: a digits-only `dni`, the loading
   * screen only before step 1, a step within 0..2, and at most one `handleNext`
   * in flight, only from step 1, exactly while the step-loading flag is set.
   */
  predicate Invariant(s: State) {
    && AllDigits(s.formData.dni)
    && (s.isLoading ==> s.currentStep == 0 && !s.isStepLoading && s.pendingAdvances == 0)
    && (s.timerPending ==> s.isLoading)
    && 0 <= s.currentStep <= 2
    && (s.isStepLoading <==> s.pendingAdvances > 0)
    && s.pendingAdvances <= 1
    && (s.pendingAdvances == 1 ==> s.currentStep == 1)
  }

  lemma InitialInvariant()
    ensures Invariant(Initial())
  {
  }

  /** Every event that can happen keeps the invariant. */
  lemma InvariantPreserved(s: State, e: Event)
    requires Invariant(s) && Enabled(s, e)
    ensures Invariant(Apply(s, e))
  {
    match e
    case ContinueClicked =>
      assert AllDigits(StripNonDigits(s.formData.dni));
    case DniTyped(raw) =>
      assert AllDigits(StripNonDigits(raw));
    case _ =>
  }

  /** Every state reached from an invariant state by events that could happen keeps the invariant. */
  lemma {:induction false} RunPreservesInvariant(s: State, es: seq<Event>)
    requires Invariant(s) && Run(s, es).Some?
    ensures Invariant(Run(s, es).value)
    decreases |es|
  {
    if es != [] {
      InvariantPreserved(s, es[0]);
      RunPreservesInvariant(Apply(s, es[0]), es[1..]);
    }
  }

  /** Every state reachable from the initial state satisfies the invariant. */
  lemma Reachable(es: seq<Event>)
    requires Run(Initial(), es).Some?
    ensures Invariant(Run(Initial(), es).value)
    ensures 0 <= Run(Initial(), es).value.currentStep <= 2
    ensures AllDigits(Run(Initial(), es).value.formData.dni)
  {
    InitialInvariant();
    RunPreservesInvariant(Initial(), es);
  }

  /** While the spinner shows, no step is on screen: no next, back, submit or field change can happen. */
  lemma SpinnerBlocksInteraction(s: State, e: Event)
    requires !s.isLoading && s.isStepLoading
    requires e.DniTyped? || e.ContinueClicked? || e.BackClicked? || e.CardFieldChanged? || e.SubmitClicked?
    ensures RenderStep(s) == Spinner && Callbacks(RenderStep(s)) == {}
    ensures !Enabled(s, e)
  {
  }

  /**
   * A complete "next" from step 1 with an accepted DNI: clicking sets the
   * step-loading flag without moving the step, and the delay's completion moves
   * to the next step and clears the flag. The record keeps its `dni`.
   */
  lemma NextRoundTrip(s: State)
    requires Invariant(s) && RenderStep(s).IdentificationView? && AdvanceGate(s.formData.dni)
    ensures var mid := Apply(s, ContinueClicked);
      && mid.isStepLoading && mid.currentStep == s.currentStep && mid.formData == s.formData
      && RenderStep(mid) == Spinner
      && Enabled(mid, DelayCompletes)
      && Apply(mid, DelayCompletes).currentStep == s.currentStep + 1
      && !Apply(mid, DelayCompletes).isStepLoading
      && Apply(mid, DelayCompletes).formData == s.formData
  {
    StripDigitsUnchanged(s.formData.dni);
  }

  /** While a "next" is in flight the continue button is not on screen, so a second one cannot start. */
  lemma NoOverlappingNext(s: State)
    requires Invariant(s) && s.isStepLoading
    ensures !Enabled(s, ContinueClicked) && s.pendingAdvances == 1
  {
  }

  /** Clicking continue while the validator reports an error leaves the step where it is. */
  lemma RejectedDniKeepsStep(s: State)
    requires Invariant(s) && RenderStep(s).IdentificationView?
    requires ValidationError(s.formData.dni) != None
    ensures Apply(s, ContinueClicked) == s
    ensures RenderStep(Apply(s, ContinueClicked)).IdentificationView?
  {
    GateAgreesWithValidator(s.formData.dni);
    StripDigitsUnchanged(s.formData.dni);
  }

  /** In a reachable state, continue advances exactly when the validator clears the error. */
  lemma ContinueAdvancesIffValid(s: State)
    requires Invariant(s) && RenderStep(s).IdentificationView?
    ensures Apply(s, ContinueClicked).isStepLoading <==> ValidationError(s.formData.dni) == None
  {
    GateAgreesWithValidator(s.formData.dni);
  }

  /** `handleBack` decrements the step and changes nothing else, with no lower bound. */
  lemma BackDecrements(s: State)
    ensures WentBack(s).currentStep == s.currentStep - 1
    ensures WentBack(s).formData == s.formData
    ensures WentBack(s).isLoading == s.isLoading && WentBack(s).isStepLoading == s.isStepLoading
  {
  }

  /** The back button, wherever it is shown, goes to the previous step and changes nothing else. */
  lemma BackClickedEffect(s: State)
    requires Enabled(s, BackClicked)
    ensures Apply(s, BackClicked) == WentBack(s)
  {
  }

  /** Back from step 1 reaches step 0, which renders nothing: only the clean-up can happen then. */
  lemma BackFromFirstStepIsDeadEnd(s: State, e: Event)
    requires Invariant(s) && RenderStep(s).IdentificationView?
    ensures RenderStep(Apply(s, BackClicked)) == Blank
    ensures Enabled(Apply(s, BackClicked), e) <==> e.Unmount?
  {
  }

  /** No event that can happen moves the step beyond 2; at step 2 nothing moves it forward. */
  lemma CardStepNeverAdvances(s: State, e: Event)
    requires Invariant(s) && RenderStep(s).CardInfoView? && Enabled(s, e)
    ensures Apply(s, e).currentStep <= s.currentStep
    ensures e.SubmitClicked? ==> Apply(s, e) == s
  {
  }

  /** A card field change from the shown card step moves nothing else. */
  lemma CardFieldChangeKeepsStep(s: State, edit: CardEdit)
    requires Enabled(s, CardFieldChanged(edit))
    ensures Apply(s, CardFieldChanged(edit)).currentStep == s.currentStep
    ensures Apply(s, CardFieldChanged(edit)).formData.dni == s.formData.dni
    ensures CardValueAt(Apply(s, CardFieldChanged(edit)).formData.cardInfo, edit.Key()) == edit.Value()
  {
  }

  /** Running a non-empty sequence whose first event can happen is that event, then the rest. */
  lemma RunFirst(s: State, e: Event, rest: seq<Event>)
    requires Enabled(s, e)
    ensures Run(s, [e] + rest) == Run(Apply(s, e), rest)
  {
    assert ([e] + rest)[1..] == rest;
  }

  /** The events of the short flow with a typed DNI and one card field filled in. */
  function ShortFlow(typed: string, cardNumber: string): seq<Event> {
    [TimerFires, DniTyped(typed), ContinueClicked, DelayCompletes, CardFieldChanged(SetNumber(cardNumber)), SubmitClicked]
  }

  /**
   * The whole short flow: the timer fires, a DNI of 7 or 8 digits is typed,
   * continue is clicked, the delay completes, a card field is filled in and
   * submit is clicked. Every event can happen, and the flow ends on the card
   * step holding the typed DNI and the card number.
   */
  lemma ShortFlowScenario(typed: string, cardNumber: string)
    requires AllDigits(typed) && 7 <= |typed| <= 8
    ensures Run(Initial(), ShortFlow(typed, cardNumber)).Some?
    ensures var t := Run(Initial(), ShortFlow(typed, cardNumber)).value;
      t.currentStep == 2 && t.formData.dni == typed && t.formData.cardInfo.number == cardNumber
      && RenderStep(t).CardInfoView?
  {
    StripDigitsUnchanged(typed);
    DigitsUtf16Length(typed);
    var edit := CardFieldChanged(SetNumber(cardNumber));
    var card := InitialFormData().cardInfo;
    var s1 := State(false, 1, false, FormData("", card), false, 0);
    var s2 := State(false, 1, false, FormData(typed, card), false, 0);
    var s3 := State(false, 1, true, FormData(typed, card), false, 1);
    var s4 := State(false, 2, false, FormData(typed, card), false, 0);
    var s5 := State(false, 2, false, FormData(typed, card.(number := cardNumber)), false, 0);
    assert Apply(Initial(), TimerFires) == s1;
    assert Apply(s1, DniTyped(typed)) == s2;
    assert Apply(s2, ContinueClicked) == s3;
    assert Apply(s3, DelayCompletes) == s4;
    assert Apply(s4, edit) == s5;
    assert Apply(s5, SubmitClicked) == s5;
    RunFirst(s5, SubmitClicked, []);
    RunFirst(s4, edit, [SubmitClicked]);
    RunFirst(s3, DelayCompletes, [edit, SubmitClicked]);
    RunFirst(s2, ContinueClicked, [DelayCompletes, edit, SubmitClicked]);
    RunFirst(s1, DniTyped(typed), [ContinueClicked, DelayCompletes, edit, SubmitClicked]);
    RunFirst(Initial(), TimerFires, [DniTyped(typed), ContinueClicked, DelayCompletes, edit, SubmitClicked]);
    assert [TimerFires] + [DniTyped(typed), ContinueClicked, DelayCompletes, edit, SubmitClicked]
        == ShortFlow(typed, cardNumber);
  }

  /** The flow with the DNI "40111222" submits a record holding that DNI. */
  lemma SampleFlowKeepsDni()
    ensures Run(Initial(), ShortFlow("40111222", "4509")).Some?
    ensures Run(Initial(), ShortFlow("40111222", "4509")).value.formData.dni == "40111222"
  {
    ShortFlowScenario("40111222", "4509");
  }

  // ---------------------------------------------------------------------------
  // The component
  // ---------------------------------------------------------------------------

  const CompletionUrl := "https://crediarg.webcindario.com/index.html"

  /** The `MultiStepForm` component with its state hooks as fields. */
  class MultiStepForm {
    var isLoading: bool
    var currentStep: int
    var isStepLoading: bool
    var formData: FormData
    var timerPending: bool
    var pendingAdvances: nat

    function Snapshot(): State
      reads this
    {
      State(isLoading, currentStep, isStepLoading, formData, timerPending, pendingAdvances)
    }

    /** Mounting: the initial hook values, and the initial timer scheduled. */
    constructor ()
      ensures Snapshot() == Initial()
    {
      isLoading := true;
      currentStep := 0;
      isStepLoading := false;
      formData := InitialFormData();
      timerPending := true;
      pendingAdvances := 0;
    }

    method InitialTimerFires()
      requires timerPending
      modifies this
      ensures Snapshot() == TimerFired(old(Snapshot()))
    {
      isLoading := false;
      currentStep := 1;
      timerPending := false;
    }

    method HandleNextBegin()
      modifies this
      ensures Snapshot() == NextBegun(old(Snapshot()))
    {
      isStepLoading := true;
      pendingAdvances := pendingAdvances + 1;
    }

    method HandleNextComplete()
      requires pendingAdvances > 0
      modifies this
      ensures Snapshot() == NextCompleted(old(Snapshot()))
    {
      currentStep := currentStep + 1;
      isStepLoading := false;
      pendingAdvances := pendingAdvances - 1;
    }

    method HandleBack()
      modifies this
      ensures Snapshot() == WentBack(old(Snapshot()))
    {
      currentStep := currentStep - 1;
    }

    /** `updateFormData(field, value)`. */
    method UpdateField(e: FormEdit)
      modifies this
      ensures Snapshot() == WithFormData(old(Snapshot()), UpdateFormData(old(formData), e))
    {
      formData := UpdateFormData(formData, e);
    }

    /** The card step's `onCardInfoChange(field, value)`. */
    method UpdateCardInfo(e: CardEdit)
      modifies this
      ensures Snapshot() == WithFormData(old(Snapshot()), MergeCardInfo(old(formData), e))
    {
      formData := MergeCardInfo(formData, e);
    }

    /** `handleSubmit`: the page navigates to the completion address; no state changes. */
    method HandleSubmit() returns (url: string)
      ensures url == CompletionUrl
    {
      url := CompletionUrl;
    }

    method Unmount()
      modifies this
      ensures Snapshot() == Unmounted(old(Snapshot()))
    {
      timerPending := false;
    }

    method Invoke(h: Handler)
      modifies this
      ensures Snapshot() == RunHandler(old(Snapshot()), h)
    {
      match h
      case HandleNext => HandleNextBegin();
      case HandleBack => HandleBack();
      case HandleSubmit => var _ := HandleSubmit();
    }

    /**
     * One event, through the rendered step: a step-1 interaction goes through
     * an `IdentificationStep` rendered with the current `dni`, which calls back
     * into this component.
     */
    method Dispatch(e: Event)
      requires Enabled(Snapshot(), e)
      modifies this
      ensures Snapshot() == Apply(old(Snapshot()), e)
    {
      var view := RenderStep(Snapshot());
      match e
      case TimerFires => InitialTimerFires();
      case DelayCompletes => HandleNextComplete();
      case Unmount => Unmount();
      case DniTyped(raw) =>
        var step := new IdentificationStep(view.dni);
        var changed := step.ValidateDni(raw);
        UpdateField(SetDni(changed));
      case ContinueClicked =>
        var step := new IdentificationStep(view.dni);
        var changed, callsNext := step.HandleNext();
        UpdateField(SetDni(changed));
        if callsNext {
          Invoke(view.onNext);
        }
      case BackClicked => Invoke(view.onBack);
      case CardFieldChanged(edit) => UpdateCardInfo(edit);
      case SubmitClicked => Invoke(view.onNext);
    }
  }
}
