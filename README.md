# Loan-application wizard: state machine and DNI validation

This project models the two pieces of logic in a two-step client-side wizard
that collects a loan / credit-card application, and proves properties of them:

- **The wizard controller** (`MultiStepForm`). It holds four pieces of component
  state: `isLoading`, `currentStep`, `isStepLoading` and the aggregate record
  `formData`. The events are: the one-shot initial timer; `handleNext`, split
  into its begin half (set the step-loading flag) and its completion half (step
  + 1, clear the flag) once the 800 ms delay resolves; the unconditional
  `handleBack`; the top-level `updateFormData`; and the nested `cardInfo`
  merge. The `renderStep` dispatch decides, in priority order, which screen is
  shown and so which callbacks can be reached.
- **The identification step** (`IdentificationStep`). `validateDni` strips
  every character outside `'0'..'9'`, passes the result to `onDniChange`, and
  classifies it as missing, out of the 7..8 range, or accepted. `handleNext`
  calls `onNext` when the held `dni` has length 7 or 8.

Files:

- `optional.dfy`: module `Optional`, the `Option` type used for the optional
  `bank` and the `string | null` error state.
- `form_data.dfy`: module `FormModel`. It holds `FormData` and `CardInfo`, the
  closed key sets `FormKey` and `CardKey`, the typed edits `FormEdit` and
  `CardEdit`, and the two reducers with their frame, idempotence, last-write
  and commutation lemmas.
- `dni.dfy`: module `Dni`. It holds the normaliser, the classification, the
  gate, their lemmas, and the `IdentificationStep` class.
- `wizard.dfy`: module `Wizard`. It holds the state value `State`, one
  function per handler, `RenderStep`, the user- and timer-level `Event`s with
  `Enabled`/`Apply`/`Run`, the reachable-state `Invariant` and its
  preservation, and the `MultiStepForm` class. The class's methods are proved
  against those functions.

The two delays are not modelled as time. The initial 2000 ms timer firing is
the event `TimerFires`. A `handleNext` delay resolving is the event
`DelayCompletes`. `pendingAdvances` counts the `handleNext` calls whose delay
has not resolved yet. The code has no guard against overlapping "next" calls,
and the model adds none. Instead, the lemma `NoOverlappingNext` proves that
the continue button is not on screen while a delay is pending.

The main result is `Wizard.Reachable`. It proves an invariant for every state
reachable from mount through events that can happen. In such a state, `dni` is
digits only, the step stays within 0..2, and at most one "next" is pending,
only from step 1. Because `dni` is always digits only, the identification
step's length gate (which reads the held, un-normalised value) always agrees
with the validator there (`ContinueAdvancesIffValid`). On a value with a
non-digit, the two would disagree (`GateIgnoresNonDigits`: `"123456a"` passes
the gate but gets the range error). Such a value cannot reach the gate,
because the only writer of `dni` passes it through the normaliser first.

Back from step 1 goes to step 0, which renders nothing, and no control is
then on screen. The model proves this as the code has it
(`BackFromFirstStepIsDeadEnd`).

The spinner branch of `renderStep` (`src/components/MultiStepForm.tsx:77`)
uses `LoadingSpinner`, but the file never imports that name. As written,
rendering that branch throws. `RenderStepAsWritten` models this: it gives
`RenderFailed` there, and `AcceptedContinueFailsToRender` proves that an
accepted continue leads to that failure. The rest of the model uses the
intended dispatch `RenderStep`, which shows the spinner (see "## Findings").

## Model

| member | source | states |
|---|---|---|
| `FormModel.CardInfoExtensional` | src/components/MultiStepForm.tsx:11-18 | two card records that agree on every one of the six `cardInfo` keys are equal, so the key set is closed |
| `FormModel.FormDataExtensional` | src/components/MultiStepForm.tsx:9-19 | two records that agree on `dni` and `cardInfo` are equal |
| `FormModel.UpdateFormData` | src/components/MultiStepForm.tsx:56-61 | the addressed top-level key takes the new value, and the other key keeps its old value |
| `FormModel.UpdateFormDataIdempotent` | src/components/MultiStepForm.tsx:56-61 | applying the same top-level update twice gives the same record as applying it once |
| `FormModel.SetDniKeepsCardInfo` | src/components/MultiStepForm.tsx:56-61 | `updateFormData('dni', v)` sets `dni` to `v` and leaves `cardInfo` unchanged |
| `FormModel.MergeCardInfo` | src/components/MultiStepForm.tsx:94-101 | the card update sets the addressed `cardInfo` key to the new value; `dni` and every other card key keep their values |
| `FormModel.MergeCardInfoIdempotent` | src/components/MultiStepForm.tsx:94-101 | applying the same card update twice is the same as applying it once |
| `FormModel.MergeCardInfoLastWins` | src/components/MultiStepForm.tsx:94-101 | of two updates to the same card key, only the later one is visible |
| `FormModel.MergeCardInfoCommutes` | src/components/MultiStepForm.tsx:94-101 | updates to two different card keys give the same record in either order |
| `Dni.StripNonDigits` | src/components/steps/IdentificationStep.tsx:21 | the normalised value contains only `'0'..'9'` and is no longer than the input |
| `Dni.StripDigitsUnchanged` | src/components/steps/IdentificationStep.tsx:21 | a value that is already digits only comes back unchanged |
| `Dni.StripIdempotent` | src/components/steps/IdentificationStep.tsx:21 | normalising twice gives the same value as normalising once |
| `Dni.StripFixedPointIffDigits` | src/components/steps/IdentificationStep.tsx:21 | a value normalises to itself exactly when it is digits only |
| `Dni.StripCharacter` | src/components/steps/IdentificationStep.tsx:21 | a single character is kept exactly when it is a digit |
| `Dni.StripAppend` | src/components/steps/IdentificationStep.tsx:21 | normalising a concatenation gives the concatenation of the normalised parts, so the kept digits stay in their original order |
| `Dni.StripKeepsEveryDigit` | src/components/steps/IdentificationStep.tsx:21 | each digit occurs as often in the normalised value as in the input |
| `Dni.ValidationOutcomes` | src/components/steps/IdentificationStep.tsx:24-29 | the required error exactly when the normalised value is empty; the range error exactly when its length is non-zero and below 7 or above 8; no error exactly when its length is 7 or 8 |
| `Dni.EmptyIsMissing` | src/components/steps/IdentificationStep.tsx:24-25 | an empty input gives "Por favor ingrese su DNI" |
| `Dni.SixDigitsOutOfRange` | src/components/steps/IdentificationStep.tsx:26-27 | six digits give the range error |
| `Dni.NineDigitsOutOfRange` | src/components/steps/IdentificationStep.tsx:26-27 | nine digits give the range error |
| `Dni.EightDigitsAccepted` | src/components/steps/IdentificationStep.tsx:28-29 | eight digits clear the error |
| `Dni.SampleDniAdvances` | src/components/steps/IdentificationStep.tsx:19-38 | "40111222" clears the error and passes the gate |
| `Dni.GateAgreesWithValidator` | src/components/steps/IdentificationStep.tsx:19-38 | for a digits-only held value, the gate opens exactly when the validator clears the error |
| `Dni.Utf16Length` | src/components/steps/IdentificationStep.tsx:35 | `dni.length` counts UTF-16 code units: at least one per character and at most two |
| `Dni.DigitsUtf16Length` | src/components/steps/IdentificationStep.tsx:35 | for a digits-only value, the JavaScript length equals the number of characters |
| `Dni.GateCountsCodeUnits` | src/components/steps/IdentificationStep.tsx:35 | seven digits followed by one emoji have 8 characters but JavaScript length 9, so the gate stays shut |
| `Dni.GateIgnoresNonDigits` | src/components/steps/IdentificationStep.tsx:33-38 | the gate measures the held value, not the normalised one: "123456a" opens the gate while the validator shows the range error |
| `Dni.IdentificationStep.constructor` | src/components/steps/IdentificationStep.tsx:17 | the step holds its `dni` prop, and its error starts as `null` |
| `Dni.IdentificationStep.ValidateDni` | src/components/steps/IdentificationStep.tsx:19-31 | the value passed to `onDniChange` is the normalised input, and `error` is the classification's message |
| `Dni.IdentificationStep.HandleNext` | src/components/steps/IdentificationStep.tsx:33-38 | passes the normalised held value to `onDniChange`, sets the error, and calls `onNext` exactly when the held value's JavaScript (UTF-16) length is 7 or 8, which for a digits-only value is exactly when the error is cleared |
| `Wizard.InitialStateShape` | src/components/MultiStepForm.tsx:22-34 | the initial state is loading, at step 0, with no step transition; `dni` is empty and `cardInfo` is a credit card with empty strings and no bank; the loading screen shows |
| `Wizard.InitialInvariant` | src/components/MultiStepForm.tsx:22-34 | the initial state satisfies the reachable-state invariant |
| `Wizard.TimerStartsFlow` | src/components/MultiStepForm.tsx:37-43 | after the initial timer fires, the loading screen is over, the step is 1, the record is unchanged, and the timer cannot fire again |
| `Wizard.RenderPriority` | src/components/MultiStepForm.tsx:71-109 | `isLoading` gives the loading screen; otherwise `isStepLoading` gives the spinner; otherwise step 1 gives the identification step and step 2 the card step; anything else gives nothing (each as an if-and-only-if) |
| `Wizard.AsWrittenDiffersOnlyAtSpinner` | src/components/MultiStepForm.tsx:71-109 | the written dispatch fails to render exactly where the intended one shows the spinner, and agrees with it everywhere else |
| `Wizard.AcceptedContinueFailsToRender` | src/components/MultiStepForm.tsx:76-78 | as written, after an accepted continue from step 1 the render throws, and no step callback is on screen |
| `Wizard.OnlyStepOneAdvances` | src/components/MultiStepForm.tsx:80-106 | `handleNext` is reachable exactly from the shown step 1; the card step's forward action is `handleSubmit`; `handleBack` is reachable exactly from shown steps 1 and 2 |
| `Wizard.SpinnerBlocksInteraction` | src/components/MultiStepForm.tsx:76-78 | while the spinner shows, no callback is exposed and no step interaction can happen |
| `Wizard.NextRoundTrip` | src/components/MultiStepForm.tsx:45-50 | an accepted continue sets the step-loading flag without moving the step; the delay's completion then gives old step + 1 with the flag clear and the record unchanged |
| `Wizard.NoOverlappingNext` | src/components/MultiStepForm.tsx:45-50 | in a reachable state, while a "next" is in flight, exactly one is pending and continue cannot be clicked |
| `Wizard.RejectedDniKeepsStep` | src/components/steps/IdentificationStep.tsx:33-38 | continue with a DNI the validator rejects leaves the whole wizard state unchanged |
| `Wizard.ContinueAdvancesIffValid` | src/components/steps/IdentificationStep.tsx:19-38 | in a reachable state, continue starts a step transition exactly when the validator reports no error |
| `Wizard.BackDecrements` | src/components/MultiStepForm.tsx:52-54 | `handleBack` gives step - 1 with no lower bound, and changes neither the record nor the loading flags |
| `Wizard.BackClickedEffect` | src/components/MultiStepForm.tsx:52-54 | the back button of either step is wired to `handleBack` |
| `Wizard.BackFromFirstStepIsDeadEnd` | src/components/MultiStepForm.tsx:107-108 | back from step 1 reaches step 0, which renders nothing, and only the clean-up can happen afterwards |
| `Wizard.CardStepNeverAdvances` | src/components/MultiStepForm.tsx:90-106 | no event on the card step moves the step forward, and submit leaves the state unchanged |
| `Wizard.CardFieldChangeKeepsStep` | src/components/MultiStepForm.tsx:94-101 | a card field change from the card step sets that field and keeps the step and `dni` |
| `Wizard.InvariantPreserved` | src/components/MultiStepForm.tsx:37-109 | every event that can happen keeps the invariant: digits-only `dni`, step in 0..2, loading only at step 0, at most one pending "next" and only from step 1, with the flag set exactly while one is pending |
| `Wizard.RunPreservesInvariant` | src/components/MultiStepForm.tsx:37-109 | any sequence of events that can happen, started from a state satisfying the invariant, ends in a state satisfying it |
| `Wizard.Reachable` | src/components/MultiStepForm.tsx:22-109 | every state reachable from mount satisfies the invariant, has step in 0..2 and a digits-only `dni` |
| `Wizard.ShortFlowScenario` | src/components/MultiStepForm.tsx:37-106 | timer, typing a 7- or 8-digit DNI, continue, delay, a card field change and submit can all happen in that order, ending on the card step with the typed DNI and card number held |
| `Wizard.SampleFlowKeepsDni` | src/components/MultiStepForm.tsx:37-106 | the flow with "40111222" ends holding `dni` "40111222" |
| `Wizard.MultiStepForm.constructor` | src/components/MultiStepForm.tsx:22-43 | mounting gives the initial state with the initial timer scheduled |
| `Wizard.MultiStepForm.InitialTimerFires` | src/components/MultiStepForm.tsx:38-41 | the timer callback clears `isLoading` and sets step 1 |
| `Wizard.MultiStepForm.HandleNextBegin` | src/components/MultiStepForm.tsx:45-47 | sets `isStepLoading` and records one more pending delay |
| `Wizard.MultiStepForm.HandleNextComplete` | src/components/MultiStepForm.tsx:47-49 | increments the step, clears `isStepLoading`, and consumes one pending delay |
| `Wizard.MultiStepForm.HandleBack` | src/components/MultiStepForm.tsx:52-54 | decrements the step and changes nothing else |
| `Wizard.MultiStepForm.UpdateField` | src/components/MultiStepForm.tsx:56-61 | replaces `formData` with the top-level update of the old record |
| `Wizard.MultiStepForm.UpdateCardInfo` | src/components/MultiStepForm.tsx:94-101 | replaces `formData` with the card merge of the old record |
| `Wizard.MultiStepForm.HandleSubmit` | src/components/MultiStepForm.tsx:63-69 | yields the completion address and changes no state |
| `Wizard.MultiStepForm.Unmount` | src/components/MultiStepForm.tsx:42 | the effect's clean-up cancels the pending initial timer |
| `Wizard.MultiStepForm.Invoke` | src/components/MultiStepForm.tsx:86-104 | invoking a wired `onNext`/`onBack` handler has that handler's effect |
| `Wizard.MultiStepForm.Dispatch` | src/components/MultiStepForm.tsx:71-109 | an event that can happen, routed through the rendered step (for step 1, an identification step holding the current `dni`), changes the component's state exactly as `Apply` says |

## Findings

| source | as written | input that shows it | evidently intended | confidence | as-written member | corrected member |
|---|---|---|---|---|---|---|
| src/components/MultiStepForm.tsx:76-78 | the `isStepLoading` branch returns `<LoadingSpinner />`, a name the file never imports (lines 1-7), so rendering throws | continue clicked at step 1 with the held `dni` "40111222": `isStepLoading` becomes true and the next render reaches line 77 | `LoadingSpinner` imported from `./LoadingSpinner`; the spinner shows during the delay, then step 2 | not executed; the missing import is visible in lines 1-7 | `Wizard.AcceptedContinueFailsToRender` | `Wizard.RenderPriority` |

## Left out

- Wizard.RenderPriority: describes the intended dispatch (`RenderStep`), which assumes `LoadingSpinner` is imported. The written code throws in that branch, as shown by `RenderStepAsWritten` and `AcceptedContinueFailsToRender`. `NextRoundTrip`, `SpinnerBlocksInteraction`, `ShortFlowScenario` and `SampleFlowKeepsDni` are stated for the intended dispatch. The model does not cover the thrown error unmounting the component tree.
- Wizard.MultiStepForm.Dispatch: creates a new `IdentificationStep` for each step-1 event, so the child's `error` state does not carry over from one event to the next, whereas React keeps it while step 1 stays mounted. That state is only displayed, and nothing in the wizard reads it.

- Markup, styling, `framer-motion` animation, the `AnimatePresence` key, the progress indicator and the floating logo. These are presentation only.
- `LoadingSpinner`, `LoadingScreen`, `CardInfoStep`, `ProgressIndicator` and `FloatingLogo`: only which screen is shown is modelled. The card step's own validation and the exact types its `onCardInfoChange` passes are not visible. `CardEdit` therefore gives each card key a value of that key's declared type.
- The `cardInfo` key `type` is named `kind`, because `type` is a Dafny keyword.
- `FormModel.UpdateFormData`: the source takes any string key and any value. The model admits only the two declared keys, each with a value of its declared type. The code only ever calls it with `'dni'` and a string.
- `FormModel.MergeCardInfo`: setting `bank` back to `undefined` is not an edit the model offers. An edit always stores a string.
- `Wizard.MultiStepForm.HandleSubmit`: the `window.location.href` navigation and the `console.error` in its `catch` are browser I/O. The model returns the address and changes no state.
- Real time: `setTimeout`'s 2000 ms and 800 ms are events, not durations. React's batching of the setters inside one handler is modelled as one atomic state change.
- `Wizard.Unmounted`: the only effect modelled is that the clean-up cancels the initial timer. After unmount, the model still admits further events, which React would discard.
- Dafny's `char` is a Unicode scalar value, whereas JavaScript strings hold UTF-16 code units.
  - The `\D` class removes both halves of a surrogate pair, because neither half is a digit. The model keeps no non-digit, so both remove the same characters.
  - `dni.length` in the gate is `Utf16Length`.
  - The classification uses the character count of the normalised value, which is all digits. For such a value both counts are the same (`DigitsUtf16Length`).
- The 11-step flow variant: no file in this model implements it.
