/** The four colour states of a reaction round and the guide text each one shows. */
module GameStateEnum {
  import opened GuideTextEnum

  /**
   * Red: waiting for the stimulus; Orange: the player tapped too early (shown
   * in yellow); Green: the stimulus is on screen; Result: latency shown.
   */
  datatype GameState = Red | Orange | Green | Result

  const AllStates: set<GameState> := {Red, Orange, Green, Result}

  /** `GameState.guideText`. */
  function GuideText(s: GameState): (t: string)
    ensures s == Orange ==> t == RawValue(StartPrompt) + "\n\n" + RawValue(RestartPrompt)
    ensures s == Red ==> t == RawValue(StartPrompt)
    ensures s in {Green, Result} ==> t == RawValue(RestartPrompt)
  {
    match s
    case Red => "초록색 화면이 나타나면 화면을 눌러주세요."
    case Orange => "초록색 화면이 나타나면 화면을 눌러주세요.\n\n화면을 탭하면 재시작할 수 있습니다."
    case Green | Result => "화면을 탭하면 재시작할 수 있습니다."
  }

  /** There are exactly four states, and every one is among them. */
  lemma StatesAreFour(s: GameState)
    ensures s in AllStates
    ensures |AllStates| == 4
  {
  }

  /** The early-tap text is the red text, a blank line, then the green text. */
  lemma OrangeGuideConcatenates()
    ensures GuideText(Orange) == GuideText(Red) + "\n\n" + GuideText(Green)
  {
  }

  /** Green and Result share their guide text; the other pairs do not. */
  lemma GuideTextSharing(a: GameState, b: GameState)
    ensures GuideText(a) == GuideText(b) <==> a == b || (a in {Green, Result} && b in {Green, Result})
  {
    if a != b && !(a in {Green, Result} && b in {Green, Result}) {
      assert GuideText(a) != GuideText(b) by {
        if a == Orange || b == Orange {
          assert |GuideText(Orange)| != |GuideText(Red)|;
          assert |GuideText(Orange)| != |GuideText(Green)|;
        } else {
          assert GuideText(Red)[0] != GuideText(Green)[0];
        }
      }
    }
  }

  /** The hard-coded red and green texts are exactly the two guide prompts. */
  lemma GuideTextMatchesPrompts()
    ensures GuideText(Red) == RawValue(StartPrompt)
    ensures GuideText(Green) == RawValue(RestartPrompt)
    ensures GuideText(Result) == RawValue(RestartPrompt)
  {
  }
}
