# Millisecond reaction test, modelled in Dafny

Millisecond is an iOS reaction-time game. A round starts red. After a random
delay of one to five seconds the screen turns green, and the player taps as fast
as they can. The app shows the latency in milliseconds. A tap while the screen
is still red is an early tap ("orange", shown in yellow), and the next tap
restarts the round. A scoreboard maps a time to one of sixteen percentile
labels. The login scene has a three-field validator whose fields match the
sign-up form; no shown screen binds it. The sign-up screen adds the return-key
focus chain and the keyboard-dimming flag. It also uses a text field whose eye
button toggles secure entry.

The model is functional. Each piece of state is an immutable datatype and each
handler a pure function:

- `GameViewModel.Model` holds the values of the view model's relays: state,
  guide prompt and reaction text. It also holds the pending timer and the
  optional start time.
- The clock (`Date()`, in seconds) and the random delay are parameters.
- The Foundation timer is `timer: Option<real>`, the delay of the one scheduled
  timer. So at most one timer can be pending, by construction. Its callback is
  the explicit step `FireTimer`.
- `GameView` composes the tap dispatcher with the view model. `GameView.Coherent`
  is the invariant of every round the player can reach from a loaded screen.
- `Decimal` models the `%.0f` conversion: round to nearest, ties to even, on
  exact reals.

Modules follow the source files: `GuideTextEnum`, `GameStateEnum`,
`GameViewModel`, `GameView`, `Scoreboard`, `LoginViewModel`,
`SegmentedProgressBar`, `SignUpView` and `CustomTextField`. `Wrappers` and
`Decimal` are helpers.

Notes on the code:

- The view model's `handleStateChange` matches `case .yellow` and sends
  `.yellow`. But `GameState` declares `orange`, and the view sends `.orange`.
  As written, the view model does not compile, so there is no "as written"
  behaviour to model. The branch is modelled as the `Orange` case, and a comment
  on `GameViewModel.HandleStateChange` records the mismatch.
- The game screen runs one round at a time, and no shown file calls
  `Scoreboard.calculateScore`. So the scoreboard stands alone.
- The scoreboard labels are the strings of the code, such as "평균 이상".
- Negative times fall to the default label, because the switch has no interval
  below 0.
- The initial guide relay holds the restart prompt while the state is red. That
  prompt is not the red state's own guide text (`GameViewModel.InitialRound`).
  The `startTest` sent by `viewDidLoad` corrects it right away.
- While green, the guide relay holds the start prompt, whereas
  `GameState.guideText(.green)` is the restart prompt. The guide label is hidden
  in green, and nothing shown reads `guideText`.

## Model

| member | source | states |
|---|---|---|
| `Decimal.NatToDigits` | Millisecond/Sources/Scenes/GameScene/ViewModel/GameViewModel.swift:93 | the printed digits are non-empty decimal digits with no leading zero, and "0" exactly for zero |
| `Decimal.DigitsRoundTrip` | Millisecond/Sources/Scenes/GameScene/ViewModel/GameViewModel.swift:93 | reading the printed digits back gives the printed number |
| `Decimal.DigitsInjective` | Millisecond/Sources/Scenes/GameScene/ViewModel/GameViewModel.swift:93 | different numbers print different digits |
| `Decimal.RoundHalfEven` | Millisecond/Sources/Scenes/GameScene/ViewModel/GameViewModel.swift:93 | `%.0f` rounding is within one half of the value, an exact tie goes to the even integer, and a non-negative value rounds to a non-negative one |
| `Decimal.RoundIsNearest` | Millisecond/Sources/Scenes/GameScene/ViewModel/GameViewModel.swift:93 | no integer is closer to the value than its rounding |
| `Decimal.FormatFixed0` | Millisecond/Sources/Scenes/GameScene/ViewModel/GameViewModel.swift:93 | `%.0f` output is a '-' exactly for negative values, followed by at least one digit, with no leading zero, whose value is the rounded magnitude |
| `GuideTextEnum.RawValue` | Millisecond/Sources/Scenes/GameScene/Enum/GameGuideText.swift:10-13 | each raw value is one of the two prompt strings, and the start prompt's string belongs to the start prompt alone |
| `GuideTextEnum.FromRawValue` | Millisecond/Sources/Scenes/GameScene/Enum/GameGuideText.swift:10-13 | a case found by `init(rawValue:)` has the given string as its raw value |
| `GuideTextEnum.RawValueInjective` | Millisecond/Sources/Scenes/GameScene/Enum/GameGuideText.swift:11-12 | the two prompts have different raw values, so raw values identify cases |
| `GuideTextEnum.FromRawValueRoundTrip` | Millisecond/Sources/Scenes/GameScene/Enum/GameGuideText.swift:10-13 | `init(rawValue: c.rawValue)` gives back `c` for both cases |
| `GuideTextEnum.FromRawValueRejectsOthers` | Millisecond/Sources/Scenes/GameScene/Enum/GameGuideText.swift:10-13 | `init(rawValue:)` yields nil exactly for strings that are no case's raw value |
| `GameStateEnum.GuideText` | Millisecond/Sources/Scenes/GameScene/Enum/GameState.swift:13-19 | red shows the start prompt, green and result the restart prompt, orange the start prompt, a blank line, then the restart prompt |
| `GameStateEnum.StatesAreFour` | Millisecond/Sources/Scenes/GameScene/Enum/GameState.swift:11 | there are exactly four states, so `guideText` covers all of them |
| `GameStateEnum.OrangeGuideConcatenates` | Millisecond/Sources/Scenes/GameScene/Enum/GameState.swift:15-17 | the early-tap text is the red text, a blank line, then the green text |
| `GameStateEnum.GuideTextSharing` | Millisecond/Sources/Scenes/GameScene/Enum/GameState.swift:15-17 | two states share a guide text exactly when they are equal or are green and result |
| `GameStateEnum.GuideTextMatchesPrompts` | Millisecond/Sources/Scenes/GameScene/Enum/GameState.swift:15-17 | the red text is the start prompt's raw value; the green and result texts are the restart prompt's |
| `GameViewModel.Initial` | Millisecond/Sources/Scenes/GameScene/ViewModel/GameViewModel.swift:30-36 | the initial relays have no timer and no start time, and a guide that is not the red state's text |
| `GameViewModel.HandleStateChange` | Millisecond/Sources/Scenes/GameScene/ViewModel/GameViewModel.swift:76-96 | the requested state is entered, except a result request without a start time, which changes nothing; only green sets the start time; red, orange and an honoured result request leave no timer; no request schedules one |
| `GameViewModel.ReactionText` | Millisecond/Sources/Scenes/GameScene/ViewModel/GameViewModel.swift:93 | the reaction text is "반응속도: ", then the `%.0f` form of the latency, then "ms" |
| `GameViewModel.LatencyMs` | Millisecond/Sources/Scenes/GameScene/ViewModel/GameViewModel.swift:89 | the latency is the elapsed seconds in milliseconds, and is non-negative when the clock did not go back |
| `GameViewModel.InitialRound` | Millisecond/Sources/Scenes/GameScene/ViewModel/GameViewModel.swift:30-36 | the round starts red with empty text, no timer and no start time, and with the restart prompt, which is not red's guide text |
| `GameViewModel.StopTimer` | Millisecond/Sources/Scenes/GameScene/ViewModel/GameViewModel.swift:105-108 | no timer is pending afterwards, and nothing else changes |
| `GameViewModel.ResetState` | Millisecond/Sources/Scenes/GameScene/ViewModel/GameViewModel.swift:98-103 | no timer, red, start prompt, empty text; the start time is kept |
| `GameViewModel.StartTest` | Millisecond/Sources/Scenes/GameScene/ViewModel/GameViewModel.swift:63-74 | the round is reset, then exactly one timer is pending, whose delay is in [1, 5] seconds |
| `GameViewModel.FireTimer` | Millisecond/Sources/Scenes/GameScene/ViewModel/GameViewModel.swift:70-73 | firing turns green and stamps the fire time; guide and text are unchanged; nothing is left pending |
| `GameViewModel.RequestRed` | Millisecond/Sources/Scenes/GameScene/ViewModel/GameViewModel.swift:78-79 | requesting red is exactly `resetState` and keeps the start time |
| `GameViewModel.RequestOrange` | Millisecond/Sources/Scenes/GameScene/ViewModel/GameViewModel.swift:80-83 | the early-tap request stops the timer and shows the restart prompt; the text and start time are unchanged |
| `GameViewModel.RequestGreen` | Millisecond/Sources/Scenes/GameScene/ViewModel/GameViewModel.swift:84-86 | requesting green stamps the start time and turns green; the timer and texts are unchanged |
| `GameViewModel.RequestResult` | Millisecond/Sources/Scenes/GameScene/ViewModel/GameViewModel.swift:87-95 | with a start time: result, restart prompt, no timer, and the text for `(now - start) * 1000`; without one: nothing changes |
| `GameViewModel.RequestsCancelTimer` | Millisecond/Sources/Scenes/GameScene/ViewModel/GameViewModel.swift:76-96 | a timer is pending after a request exactly when one was pending before and the request was green, or a result request that was ignored |
| `GameViewModel.StartTimeOnlyFromGreen` | Millisecond/Sources/Scenes/GameScene/ViewModel/GameViewModel.swift:76-96 | among the requests, only green changes the start time |
| `GameView.HandleTap` | Millisecond/Sources/Scenes/GameScene/View/GameViewController.swift:44-52 | a tap never requests green or red, and sends `startTest` exactly in orange and result |
| `GameView.TapRequests` | Millisecond/Sources/Scenes/GameScene/View/GameViewController.swift:46-51 | a tap sends orange from red, result from green, and `startTest` from orange and result |
| `GameView.ViewDidLoad` | Millisecond/Sources/Scenes/GameScene/View/GameViewController.swift:34-40 | after loading: red, start prompt, empty text, exactly the drawn timer pending, no start time; the guide now agrees with red's guide text |
| `GameView.LoadIsOneStartTest` | Millisecond/Sources/Scenes/GameScene/View/GameViewController.swift:37-39 | loading runs exactly one command, and the round it leaves is that of a single `startTest` on the initial relays |
| `GameView.Tap` | Millisecond/Sources/Scenes/GameScene/View/GameViewController.swift:44-52 | a tap restarts from orange and result; from red it enters orange with the restart prompt and nothing pending; from green it shows the latency since the start time, or does nothing without one |
| `GameView.LoadIsCoherent` | Millisecond/Sources/Scenes/GameScene/View/GameViewController.swift:34-40 | the loaded round satisfies the reachable-round invariant |
| `GameView.TapPreservesCoherent` | Millisecond/Sources/Scenes/GameScene/View/GameViewController.swift:44-52 | a tap keeps the invariant: a timer pends only in red, green always has a start time, and each state has its prompt and text |
| `GameView.FirePreservesCoherent` | Millisecond/Sources/Scenes/GameScene/ViewModel/GameViewModel.swift:70-73 | the timer firing keeps the reachable-round invariant |
| `GameView.GreenOnlyFromTimer` | Millisecond/Sources/Scenes/GameScene/View/GameViewController.swift:45-51 | no tap leads into green from a reachable round; a tap that ends in green changed nothing |
| `GameView.TapOnStimulusMeasuresSinceFire` | Millisecond/Sources/Scenes/GameScene/View/GameViewController.swift:49 | tapping green shows the milliseconds since the timer fired, and leaves nothing pending |
| `GameView.UpdateVisibility` | Millisecond/Sources/Scenes/GameScene/View/GameViewController.swift:188-208 | every element ends with a hidden flag |
| `GameView.VisibilityIgnoresPrevious` | Millisecond/Sources/Scenes/GameScene/View/GameViewController.swift:189-191 | because everything is hidden first, visibility depends on the state alone |
| `GameView.VisibilityByState` | Millisecond/Sources/Scenes/GameScene/View/GameViewController.swift:193-207 | green shows nothing; exit shows exactly in orange and result; the result title and reaction label only in result; the joke only in orange; the guide in all but green |
| `Scoreboard.CalculateScore` | Millisecond/Sources/Scenes/GameScene/Scoreboard.swift:11-30 | the switch is total and always returns one of the sixteen labels |
| `Scoreboard.BoundsIncrease` | Millisecond/Sources/Scenes/GameScene/Scoreboard.swift:13-27 | the interval bounds strictly increase, so the intervals do not overlap |
| `Scoreboard.BoundsReflectOrder` | Millisecond/Sources/Scenes/GameScene/Scoreboard.swift:13-27 | a smaller bound belongs to an earlier interval |
| `Scoreboard.ScanFrom` | Millisecond/Sources/Scenes/GameScene/Scoreboard.swift:12-28 | the table scan from interval i returns either an interval at or after i that holds the time, or the default |
| `Scoreboard.BucketIndex` | Millisecond/Sources/Scenes/GameScene/Scoreboard.swift:12-28 | the bucket is one of the sixteen cases |
| `Scoreboard.ScanFindsInterval` | Millisecond/Sources/Scenes/GameScene/Scoreboard.swift:13-27 | the scan returns the one interval that holds the time |
| `Scoreboard.ScanDefault` | Millisecond/Sources/Scenes/GameScene/Scoreboard.swift:28 | the scan reaches the default exactly for times below 0 or at or above 450 |
| `Scoreboard.ScoreIsTableLookup` | Millisecond/Sources/Scenes/GameScene/Scoreboard.swift:12-29 | the case-by-case switch equals the table lookup for every time |
| `Scoreboard.LabelsDistinct` | Millisecond/Sources/Scenes/GameScene/Scoreboard.swift:13-28 | the sixteen labels are pairwise distinct |
| `Scoreboard.IntervalLabel` | Millisecond/Sources/Scenes/GameScene/Scoreboard.swift:13-27 | each half-open interval returns its label, lower end included and upper end excluded |
| `Scoreboard.BoundariesGoUp` | Millisecond/Sources/Scenes/GameScene/Scoreboard.swift:13-21 | 110 gives "Top 2.12%", 250 gives "평균 이상", and 450 gives the default |
| `Scoreboard.OutsideTableIsDefault` | Millisecond/Sources/Scenes/GameScene/Scoreboard.swift:28 | every time at or above 450, and every negative time, gives "하위 3.69%" |
| `Scoreboard.BucketMonotonic` | Millisecond/Sources/Scenes/GameScene/Scoreboard.swift:13-28 | on [0, ∞) a later time never falls in a better bucket |
| `Scoreboard.SameIntervalSameLabel` | Millisecond/Sources/Scenes/GameScene/Scoreboard.swift:13-27 | times in the same interval get the same label |
| `LoginViewModel.IsFormValid` | Millisecond/Sources/Scenes/LoginScene/ViewModel/LoginViewModel.swift:43-47 | the form is valid exactly when none of email, password and nickname is empty |
| `LoginViewModel.ButtonBackgroundColor` | Millisecond/Sources/Scenes/LoginScene/ViewModel/LoginViewModel.swift:50-52 | the background is always white, opaque when the form is valid and at alpha 0.2 otherwise |
| `LoginViewModel.ButtonTintColor` | Millisecond/Sources/Scenes/LoginScene/ViewModel/LoginViewModel.swift:54-56 | the tint is always black, opaque when the form is valid and at alpha 0.67 otherwise |
| `LoginViewModel.InitialFormInvalid` | Millisecond/Sources/Scenes/LoginScene/ViewModel/LoginViewModel.swift:39-47 | the empty relays make the form invalid: faint white background, dimmed black tint |
| `LoginViewModel.WhitespaceIsContent` | Millisecond/Sources/Scenes/LoginScene/ViewModel/LoginViewModel.swift:46 | every form whose three fields are non-empty runs of spaces is valid, with the opaque button style |
| `LoginViewModel.EmptyFieldInvalidates` | Millisecond/Sources/Scenes/LoginScene/ViewModel/LoginViewModel.swift:46 | emptying any one field invalidates the form, whatever the others hold |
| `LoginViewModel.StyleExactlyReflectsValidity` | Millisecond/Sources/Scenes/LoginScene/ViewModel/LoginViewModel.swift:50-56 | two forms get the same button style exactly when they have the same validity |
| `SegmentedProgressBar.SegmentWidth` | Millisecond/Sources/Scenes/GameScene/View/SegmentedProgressBar.swift:97-100 | for n ≥ 1, n segments of this width plus n − 1 gaps of 10 take up the screen width less the two 16-point margins |
| `SegmentedProgressBar.SegmentsSpanScreen` | Millisecond/Sources/Scenes/GameScene/View/SegmentedProgressBar.swift:97-100 | for n ≥ 1, n segments plus n − 1 gaps of 10 fill the screen width less 32, and the last segment ends there |
| `SegmentedProgressBar.Init` | Millisecond/Sources/Scenes/GameScene/View/SegmentedProgressBar.swift:57-90 | construction gives exactly n segments of the computed width and n fills of width 0 |
| `SegmentedProgressBar.FilledWidths` | Millisecond/Sources/Scenes/GameScene/View/SegmentedProgressBar.swift:117-128 | there is one new fill width per fill |
| `SegmentedProgressBar.UpdateFillWidths` | Millisecond/Sources/Scenes/GameScene/View/SegmentedProgressBar.swift:117-129 | fills before the index equal their segment, the fill at it is segment × progress, later fills are 0; segments are unchanged |
| `SegmentedProgressBar.UpdateProgress` | Millisecond/Sources/Scenes/GameScene/View/SegmentedProgressBar.swift:35-42 | an index at or past the fill count changes nothing; any other index applies the fill update |
| `SegmentedProgressBar.NegativeIndexEmptiesBar` | Millisecond/Sources/Scenes/GameScene/View/SegmentedProgressBar.swift:36 | a negative index passes the guard and sets every fill to 0 |
| `SegmentedProgressBar.ResetProgress` | Millisecond/Sources/Scenes/GameScene/View/SegmentedProgressBar.swift:44-53 | every fill becomes 0 and the segments are untouched |
| `SegmentedProgressBar.ResetIdempotent` | Millisecond/Sources/Scenes/GameScene/View/SegmentedProgressBar.swift:44-53 | resetting twice is resetting once |
| `SegmentedProgressBar.ResetOfInitIsInit` | Millisecond/Sources/Scenes/GameScene/View/SegmentedProgressBar.swift:82-88 | a freshly built bar is already reset |
| `SignUpView.TextFieldShouldReturn` | Millisecond/Sources/Scenes/LoginScene/View/SignUpViewController.swift:180-190 | return moves focus to the next listed field, resigns it on the last, sends any other field to nickname, and always answers true |
| `SignUpView.ReturnChainWalksFields` | Millisecond/Sources/Scenes/LoginScene/View/SignUpViewController.swift:170-186 | from nickname, repeated returns visit email, password and confirm in order, then leave nothing focused |
| `SignUpView.KeyboardWillShow` | Millisecond/Sources/Scenes/LoginScene/View/SignUpViewController.swift:59-68 | the screen dims only when the flag was clear; the flag is then set; otherwise nothing changes |
| `SignUpView.KeyboardWillHide` | Millisecond/Sources/Scenes/LoginScene/View/SignUpViewController.swift:70-76 | hiding always animates back to normal and clears the flag |
| `SignUpView.ShowTwiceIsShowOnce` | Millisecond/Sources/Scenes/LoginScene/View/SignUpViewController.swift:60-67 | a repeated show notification is a no-op |
| `SignUpView.KeyboardKeepsDimming` | Millisecond/Sources/Scenes/LoginScene/View/SignUpViewController.swift:59-76 | the screen is dimmed exactly while the flag is set, from the start and after every notification |
| `CustomTextField.Init` | Millisecond/Sources/Scenes/LoginScene/View/CustomTextField.swift:16-25 | a secure field gets the new-password content type and an "eye.slash" button; a plain field gets neither |
| `CustomTextField.BecomeFirstResponder` | Millisecond/Sources/Scenes/LoginScene/View/CustomTextField.swift:39-48 | the text is preserved, and only the responder status can change |
| `CustomTextField.SetSecureTextEntry` | Millisecond/Sources/Scenes/LoginScene/View/CustomTextField.swift:31-37 | setting secure entry changes only that setting, even when the observer re-focuses the field |
| `CustomTextField.TogglePasswordVisibility` | Millisecond/Sources/Scenes/LoginScene/View/CustomTextField.swift:98-104 | the toggle flips secure entry, keeps the text and updates the icon of an existing eye button |
| `CustomTextField.IconStaysInStep` | Millisecond/Sources/Scenes/LoginScene/View/CustomTextField.swift:72-104 | the eye icon matches the setting at init and after every toggle |
| `CustomTextField.ToggleTwiceRestores` | Millisecond/Sources/Scenes/LoginScene/View/CustomTextField.swift:98-104 | toggling twice gives back the field unchanged |
| `CustomTextField.IconShowsSecurity` | Millisecond/Sources/Scenes/LoginScene/View/CustomTextField.swift:100-102 | the icon is "eye.slash" exactly when entry is secure |

## Left out

- RxSwift relays, Drivers and bindings: each relay is a record field, and an emission is a new record value. Emission order and replay are not modelled.
- The Foundation `Timer`: it is the `timer` field plus the `FireTimer` step. When the timer fires is up to the caller, who passes the fire time.
- After the timer fires, the source's `timer` variable still refers to the spent timer until the next `stopTimer`. The model records only whether a callback is still to come, so `timer` is `None` after `FireTimer`.
- `Date()` and `Double.random(in: 1.0...5.0)`: both are parameters. The delay is constrained to [1, 5].
- IEEE double behaviour: the model uses exact reals, so binary rounding of times and latencies and NaN or infinite times are not modelled. A NaN time would fall to the scoreboard's default.
- Colours other than the validator's button colours, fonts, SnapKit constraints, `UIView.animate` and its timing, and `NotificationCenter` registration: these are presentation only. The keyboard notifications are modelled only as the two handlers.
- `updateColors` in the game screen: a state-to-colour table with no logic.
- `UIScreen.main.bounds.width` is a parameter. A segment's laid-out frame width is taken to equal its constraint width.
- SegmentedProgressBar.Init: requires a count of at least 0. A negative count makes `0..<numberOfSegments` trap at run time, and the model does not represent that crash.
- `calculateSegmentWidth` with zero segments divides by zero. The width is then never used, so it is not modelled.
- `CustomTextField.BecomeFirstResponder`: UIKit's answer is a parameter. The caret is assumed to sit at the end of the text, which holds after `removeAll`.
- `SignUpView.TextFieldShouldReturn`: focus is modelled as the field that becomes first responder. UIKit's own responder bookkeeping is not modelled.
- GuideTextEnum.FromRawValue: strings are compared code point by code point. Swift's `String ==` also treats canonically equivalent spellings as equal, for example a decomposed Hangul spelling of a prompt. Model strings stand for their NFC forms, and Unicode normalisation is not modelled.
- GuideTextEnum.FromRawValueRejectsOthers: promises nil for every string that differs from both prompts by code point. For a canonically equivalent but differently encoded spelling of a prompt, Swift finds the case, for the reason given in the line above.
- Authentication, image upload, the credentials record, the home, intro, login and tab controllers, and the base view controller: these are network calls or layout with no discrete logic.
