/**
 * The reaction-round view model. The Rx relays become the fields of an
 * immutable record and each handler a pure step function. The wall clock
 * (`Date()`, seconds) and the random timer delay are parameters. The one
 * Foundation timer becomes `timer`: the delay of the scheduled timer while one
 * is pending, `None` otherwise, so at most one can ever be pending; its
 * callback is the separate step `FireTimer`.
 */
module GameViewModel {
  import opened Wrappers
  import opened Decimal
  import opened GuideTextEnum
  import opened GameStateEnum

  datatype Model = Model(
    state: GameState,
    guide: GameGuideText,
    reactionText: string,
    timer: Option<real>,
    startTime: Option<real>)

  predicate TimerPending(m: Model) {
    m.timer.Some?
  }

  /** The range `Double.random(in: 1.0...5.0)` draws the stimulus delay from. */
  predicate ValidDelay(delay: real) {
    1.0 <= delay <= 5.0
  }

  const ReactionPrefix: string := "반응속도: "
  const ReactionSuffix: string := "ms"

  /** `String(format: "반응속도: %.0fms", latency)`. */
  function ReactionText(latency: real): (t: string)
    ensures |t| > |ReactionPrefix| + |ReactionSuffix|
    ensures t[..|ReactionPrefix|] == ReactionPrefix
    ensures t[|t| - |ReactionSuffix|..] == ReactionSuffix
    ensures t[|ReactionPrefix|..|t| - |ReactionSuffix|] == FormatFixed0(latency)
  {
    ReactionPrefix + FormatFixed0(latency) + ReactionSuffix
  }

  /** Milliseconds between the stimulus and `now`: `timeIntervalSince * 1_000`. */
  function LatencyMs(startTime: real, now: real): (ms: real)
    ensures now >= startTime ==> ms >= 0.0
    ensures ms / 1000.0 == now - startTime
  {
    (now - startTime) * 1000.0
  }

  /** The relays' initial values: red, the restart prompt, no text, no timer, no start time. */
  function Initial(): (m: Model)
    ensures !TimerPending(m) && m.startTime.None?
    ensures RawValue(m.guide) != GuideText(m.state)
  {
    Model(Red, RestartPrompt, "", None, None)
  }

  /**
   * Before the first `startTest` the round is red with nothing pending and no
   * stimulus recorded, but its guide is the restart prompt, which is not the
   * red state's own guide text.
   */
  lemma InitialRound()
    ensures var m := Initial();
      && m.state == Red && !TimerPending(m) && m.startTime == None && m.reactionText == ""
      && m.guide == RestartPrompt && RawValue(m.guide) != GuideText(m.state)
  {
    RawValueInjective(RestartPrompt, StartPrompt);
  }

  /** `stopTimer`: invalidates the pending timer, if any; nothing else changes. */
  function StopTimer(m: Model): (r: Model)
    ensures !TimerPending(r)
    ensures r.(timer := m.timer) == m
  {
    m.(timer := None)
  }

  /** `resetState`: no timer, red, the start prompt, empty reaction text. */
  function ResetState(m: Model): (r: Model)
    ensures !TimerPending(r)
    ensures r.state == Red && r.guide == StartPrompt && r.reactionText == ""
    ensures r.startTime == m.startTime
  {
    StopTimer(m).(state := Red, guide := StartPrompt, reactionText := "")
  }

  /**
   * `startTest`: resets the round, then schedules one non-repeating timer
   * after `delay` seconds.
   */
  function StartTest(m: Model, delay: real): (r: Model)
    requires ValidDelay(delay)
    ensures r.timer == Some(delay) && ValidDelay(r.timer.value)
    ensures r.(timer := None) == ResetState(m)
  {
    ResetState(m).(timer := Some(delay))
  }

  /**
   * The timer's callback, run at time `now` when the pending timer fires:
   * the state turns green and the start time is stamped. The timer is one-shot,
   * so nothing is pending afterwards.
   */
  function FireTimer(m: Model, now: real): (r: Model)
    requires TimerPending(m)
    ensures r.state == Green && r.startTime == Some(now) && !TimerPending(r)
    ensures r.guide == m.guide && r.reactionText == m.reactionText
  {
    m.(state := Green, startTime := Some(now), timer := None)
  }

  /**
   * `handleStateChange`, run at time `now`. The early-tap branch is written
   * `case .yellow` in the view model, but `GameState` declares no `yellow`
   * case: the early-tap state is `orange`, which is what the view sends. The
   * branch is modelled as the `Orange` case.
   */
  function HandleStateChange(m: Model, requested: GameState, now: real): (r: Model)
    ensures r.state == requested || (requested == Result && m.startTime.None? && r == m)
    ensures r.startTime == (if requested == Green then Some(now) else m.startTime)
    ensures TimerPending(r) ==> r.timer == m.timer
    ensures requested in {Red, Orange} ==> !TimerPending(r)
    ensures requested == Result && m.startTime.Some? ==> !TimerPending(r)
  {
    match requested
    case Red => ResetState(m)
    case Orange => StopTimer(m).(state := Orange, guide := RestartPrompt)
    case Green => m.(startTime := Some(now), state := Green)
    case Result =>
      if m.startTime.Some? then
        var latency := LatencyMs(m.startTime.value, now);
        StopTimer(m).(state := Result, guide := RestartPrompt, reactionText := ReactionText(latency))
      else
        m
  }

  /** Requesting red is exactly `resetState`, and keeps the start time. */
  lemma RequestRed(m: Model, now: real)
    ensures HandleStateChange(m, Red, now) == ResetState(m)
    ensures HandleStateChange(m, Red, now).startTime == m.startTime
  {
  }

  /** Requesting the early-tap state stops the timer and shows the restart prompt. */
  lemma RequestOrange(m: Model, now: real)
    ensures var r := HandleStateChange(m, Orange, now);
      && r.state == Orange && r.guide == RestartPrompt && !TimerPending(r)
      && r.reactionText == m.reactionText && r.startTime == m.startTime
  {
  }

  /** Requesting green stamps the start time and leaves timer and texts alone. */
  lemma RequestGreen(m: Model, now: real)
    ensures var r := HandleStateChange(m, Green, now);
      && r.state == Green && r.startTime == Some(now)
      && r.timer == m.timer && r.guide == m.guide && r.reactionText == m.reactionText
  {
  }

  /**
   * Requesting the result with a start time measures the latency in
   * milliseconds, stops the timer and shows it; without a start time it is
   * ignored.
   */
  lemma RequestResult(m: Model, now: real)
    ensures m.startTime.None? ==> HandleStateChange(m, Result, now) == m
    ensures m.startTime.Some? ==>
      var r := HandleStateChange(m, Result, now);
      && r.state == Result && r.guide == RestartPrompt && !TimerPending(r)
      && r.reactionText == ReactionPrefix + FormatFixed0((now - m.startTime.value) * 1000.0) + ReactionSuffix
      && r.startTime == m.startTime
  {
  }

  /**
   * After a red or early-tap request, and after a result request that was
   * not ignored, no timer is pending; only a green request or an ignored
   * result request can leave one.
   */
  lemma RequestsCancelTimer(m: Model, requested: GameState, now: real)
    ensures TimerPending(HandleStateChange(m, requested, now)) <==>
      TimerPending(m) && (requested == Green || (requested == Result && m.startTime.None?))
  {
  }

  /** Only a green request, or the timer, sets the start time. */
  lemma StartTimeOnlyFromGreen(m: Model, requested: GameState, now: real)
    ensures HandleStateChange(m, requested, now).startTime != m.startTime ==> requested == Green
  {
  }
}
