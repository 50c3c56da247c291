/** The two guide prompts of a reaction round, a `String`-backed enumeration. */
module GuideTextEnum {
  import opened Wrappers

  datatype GameGuideText = StartPrompt | RestartPrompt

  const StartPromptText: string := "초록색 화면이 나타나면 화면을 눌러주세요."
  const RestartPromptText: string := "화면을 탭하면 재시작할 수 있습니다."

  /** The raw string value of each case. */
  function RawValue(g: GameGuideText): (s: string)
    ensures s == StartPromptText || s == RestartPromptText
    ensures s == StartPromptText <==> g == StartPrompt
  {
    match g
    case StartPrompt => StartPromptText
    case RestartPrompt => RestartPromptText
  }

  /** The failable `init(rawValue:)`: the case whose raw value is `s`, if any. */
  function FromRawValue(s: string): (r: Option<GameGuideText>)
    ensures r.Some? ==> RawValue(r.value) == s
  {
    if s == StartPromptText then Some(StartPrompt)
    else if s == RestartPromptText then Some(RestartPrompt)
    else None
  }

  /** Distinct cases have distinct raw values. */
  lemma RawValueInjective(a: GameGuideText, b: GameGuideText)
    ensures RawValue(a) == RawValue(b) <==> a == b
  {
    if a != b {
      assert RawValue(a)[0] != RawValue(b)[0];
    }
  }

  /** `init(rawValue:)` inverts `rawValue`. */
  lemma FromRawValueRoundTrip(g: GameGuideText)
    ensures FromRawValue(RawValue(g)) == Some(g)
  {
    RawValueInjective(g, StartPrompt);
  }

  /** Any string that is not one of the two raw values yields no case. */
  lemma FromRawValueRejectsOthers(s: string)
    ensures FromRawValue(s) == None <==> (forall g: GameGuideText :: RawValue(g) != s)
  {
  }
}
