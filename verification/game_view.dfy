/**
 * The game screen's controller logic: the tap dispatcher, the load-time
 * command, and which elements each state shows. Composing the dispatcher with
 * the view model gives the whole round as the player drives it.
 */
module GameView {
  import opened Wrappers
  import opened GuideTextEnum
  import opened GameStateEnum
  import opened GameViewModel

  /** The two inputs of the view model. */
  datatype Command = StartTestCommand | StateChanged(requested: GameState)

  /** `handleTap`: the one command a tap sends in each state. */
  function HandleTap(s: GameState): (c: Command)
    ensures c != StateChanged(Green) && c != StateChanged(Red)
    ensures c.StartTestCommand? <==> s in {Orange, Result}
  {
    match s
    case Red => StateChanged(Orange)
    case Orange => StartTestCommand
    case Green => StateChanged(Result)
    case Result => StartTestCommand
  }

  /** Delivers one command to the view model at time `now`. */
  function Dispatch(m: Model, c: Command, now: real, delay: real): Model
    requires ValidDelay(delay)
  {
    match c
    case StartTestCommand => StartTest(m, delay)
    case StateChanged(s) => HandleStateChange(m, s, now)
  }

  /** A tap at time `now`; `delay` is the draw a restart would use. */
  function Tap(m: Model, now: real, delay: real): (r: Model)
    requires ValidDelay(delay)
    ensures m.state in {Orange, Result} ==> r == StartTest(m, delay)
    ensures m.state == Red ==> r.state == Orange && r.guide == RestartPrompt && !TimerPending(r)
    ensures m.state == Green && m.startTime.Some? ==>
      r.state == Result && !TimerPending(r) && r.reactionText == ReactionText((now - m.startTime.value) * 1000.0)
    ensures m.state == Green && m.startTime.None? ==> r == m
  {
    Dispatch(m, HandleTap(m.state), now, delay)
  }

  /** Delivers `commands` in order, all at time `now`. */
  function RunCommands(m: Model, commands: seq<Command>, now: real, delay: real): Model
    requires ValidDelay(delay)
    decreases |commands|
  {
    if |commands| == 0 then m
    else RunCommands(Dispatch(m, commands[0], now, delay), commands[1..], now, delay)
  }

  /** The commands `viewDidLoad` sends, after binding the outputs. */
  const LoadCommands: seq<Command> := [StartTestCommand]

  /** The view model as `viewDidLoad`, run at time `now`, leaves it. */
  function ViewDidLoad(now: real, delay: real): (m: Model)
    requires ValidDelay(delay)
    ensures m.state == Red && m.guide == StartPrompt && m.reactionText == ""
    ensures m.timer == Some(delay) && m.startTime == None
    ensures RawValue(m.guide) == GuideText(m.state)
  {
    RunCommands(Initial(), LoadCommands, now, delay)
  }

  /**
   * Loading runs exactly one command on the initial relays, and its effect is
   * that of a single `startTest`.
   */
  lemma LoadIsOneStartTest(now: real, delay: real)
    requires ValidDelay(delay)
    ensures |LoadCommands| == 1
    ensures ViewDidLoad(now, delay) == StartTest(Initial(), delay)
  {
    assert LoadCommands[1..] == [];
  }

  /** A tap in red reports an early tap, a tap in green asks for the result. */
  lemma TapRequests()
    ensures HandleTap(Red) == StateChanged(Orange)
    ensures HandleTap(Green) == StateChanged(Result)
    ensures HandleTap(Orange) == StartTestCommand && HandleTap(Result) == StartTestCommand
  {
  }

  /**
   * What holds of every round the player can reach from a loaded screen by
   * tapping and by the timer firing.
   */
  ghost predicate Coherent(m: Model) {
    && (TimerPending(m) ==> m.state == Red && ValidDelay(m.timer.value))
    && (m.state == Red ==> m.guide == StartPrompt && m.reactionText == "")
    && (m.state == Orange ==> m.guide == RestartPrompt && m.reactionText == "")
    && (m.state == Green ==> m.guide == StartPrompt && m.reactionText == "" && m.startTime.Some?)
    && (m.state == Result ==> m.guide == RestartPrompt && m.reactionText != "")
  }

  lemma LoadIsCoherent(now: real, delay: real)
    requires ValidDelay(delay)
    ensures Coherent(ViewDidLoad(now, delay))
  {
  }

  /** A tap keeps a reachable round coherent. */
  lemma TapPreservesCoherent(m: Model, now: real, delay: real)
    requires ValidDelay(delay)
    requires Coherent(m)
    ensures Coherent(Tap(m, now, delay))
  {
    if m.state == Green {
      RequestResult(m, now);
    }
  }

  /** The timer firing keeps a reachable round coherent. */
  lemma FirePreservesCoherent(m: Model, now: real)
    requires TimerPending(m)
    requires Coherent(m)
    ensures Coherent(FireTimer(m, now))
  {
  }

  /**
   * Green is entered only by the timer: in a reachable round no tap leads to
   * green, and in any round a tap that ends in green started there and
   * changed nothing.
   */
  lemma GreenOnlyFromTimer(m: Model, now: real, delay: real)
    requires ValidDelay(delay)
    ensures Tap(m, now, delay).state == Green ==> m.state == Green && Tap(m, now, delay) == m
    ensures Coherent(m) ==> Tap(m, now, delay).state != Green
  {
  }

  /**
   * Tapping the stimulus that fired at `fired` shows the time since it in
   * milliseconds, and leaves nothing pending.
   */
  lemma TapOnStimulusMeasuresSinceFire(m: Model, fired: real, now: real, delay: real)
    requires ValidDelay(delay)
    requires TimerPending(m)
    ensures var r := Tap(FireTimer(m, fired), now, delay);
      && r.state == Result && !TimerPending(r)
      && r.reactionText == ReactionText((now - fired) * 1000.0)
  {
  }

  /** Screen elements whose visibility follows the state. */
  datatype Element = ResultTitle | JokeLabel | GuideLabel | ReactionSpeedLabel | ExitButton

  const AllElements: set<Element> := {ResultTitle, JokeLabel, GuideLabel, ReactionSpeedLabel, ExitButton}

  /** `isHidden` of every element. */
  type Hidden = map<Element, bool>

  /** The elements `updateVisibility` un-hides in each state. */
  function Revealed(s: GameState): set<Element> {
    match s
    case Red => {GuideLabel}
    case Orange => {JokeLabel, GuideLabel, ExitButton}
    case Green => {}
    case Result => {ResultTitle, GuideLabel, ReactionSpeedLabel, ExitButton}
  }

  /**
   * `updateVisibility`: hides every element, then un-hides those the state
   * shows. `previous` is the visibility before the call.
   */
  function UpdateVisibility(previous: Hidden, s: GameState): (h: Hidden)
    ensures h.Keys == AllElements
  {
    var allHidden := map e | e in AllElements :: true;
    allHidden + map e | e in Revealed(s) :: false
  }

  /** The elements left visible. */
  function Visible(h: Hidden): set<Element> {
    set e | e in h && !h[e]
  }

  /** Visibility depends on the state alone, never on what was shown before. */
  lemma VisibilityIgnoresPrevious(p: Hidden, q: Hidden, s: GameState)
    ensures UpdateVisibility(p, s) == UpdateVisibility(q, s)
  {
  }

  /**
   * Green shows nothing; the exit button shows exactly in orange and result;
   * the result title and reaction label show only in result; the joke label
   * only in orange; the guide label in every state but green.
   */
  lemma VisibilityByState(p: Hidden, s: GameState)
    ensures var v := Visible(UpdateVisibility(p, s));
      && (s == Green <==> v == {})
      && (ExitButton in v <==> s in {Orange, Result})
      && (ResultTitle in v <==> s == Result)
      && (ReactionSpeedLabel in v <==> s == Result)
      && (JokeLabel in v <==> s == Orange)
      && (GuideLabel in v <==> s != Green)
  {
    var h := UpdateVisibility(p, s);
    var v := Visible(h);
    assert forall e :: e in v <==> e in Revealed(s);
    assert v == Revealed(s);
  }
}
