/**
 * The sign-up screen's discrete behaviour: the return-key focus chain over the
 * four text fields, and the flag that makes the keyboard dimming happen once
 * per appearance.
 */
module SignUpView {
  import opened Wrappers

  /** The four delegated fields, plus any other field the delegate might see. */
  datatype SignUpField = Nickname | Email | Password | ConfirmPassword | OtherField

  /** The delegated fields in the order `configureTextFieldDelegate` lists them. */
  const TextFields: seq<SignUpField> := [Nickname, Email, Password, ConfirmPassword]

  /**
   * After return is pressed: the field that becomes first responder (`None`
   * when focus is resigned) and the delegate's answer.
   */
  datatype ReturnOutcome = ReturnOutcome(focus: Option<SignUpField>, shouldReturn: bool)

  /** `textFieldShouldReturn`. */
  function TextFieldShouldReturn(f: SignUpField): (r: ReturnOutcome)
    ensures r.shouldReturn
    ensures forall i :: 0 <= i < |TextFields| - 1 && f == TextFields[i] ==> r.focus == Some(TextFields[i + 1])
    ensures f == TextFields[|TextFields| - 1] <==> r.focus == None
    ensures f !in TextFields ==> r.focus == Some(TextFields[0])
  {
    match f
    case Nickname => ReturnOutcome(Some(Email), true)
    case Email => ReturnOutcome(Some(Password), true)
    case Password => ReturnOutcome(Some(ConfirmPassword), true)
    case ConfirmPassword => ReturnOutcome(None, true)
    case OtherField => ReturnOutcome(Some(Nickname), true)
  }

  /** Presses return `k` times starting in field `f`; stops once focus is resigned. */
  function PressReturn(f: SignUpField, k: nat): Option<SignUpField>
    decreases k
  {
    if k == 0 then Some(f)
    else
      match TextFieldShouldReturn(f).focus
      case None => None
      case Some(g) => PressReturn(g, k - 1)
  }

  /**
   * From the nickname field, return walks the fields in their listed order and
   * leaves no field focused after the last.
   */
  lemma ReturnChainWalksFields()
    ensures forall k :: 0 <= k < |TextFields| ==> PressReturn(Nickname, k) == Some(TextFields[k])
    ensures PressReturn(Nickname, |TextFields|) == None
  {
    assert PressReturn(Nickname, 1) == Some(Email);
    assert PressReturn(Nickname, 2) == Some(Password);
    assert PressReturn(Nickname, 3) == Some(ConfirmPassword);
  }

  /** The screen's dimming while the keyboard is up. */
  datatype Look = Normal | Dimmed

  datatype Screen = Screen(keyboardAlreadyShown: bool, look: Look)

  /** A screen after a notification, and the look it started animating to, if any. */
  datatype KeyboardStep = KeyboardStep(screen: Screen, animation: Option<Look>)

  const InitialScreen: Screen := Screen(false, Normal)

  /** `keyboardWillShow`: dims only if the keyboard was not already shown. */
  function KeyboardWillShow(s: Screen): (r: KeyboardStep)
    ensures r.screen.keyboardAlreadyShown
    ensures r.animation.Some? <==> !s.keyboardAlreadyShown
    ensures r.animation.Some? ==> r.animation.value == Dimmed && r.screen.look == Dimmed
    ensures r.animation.None? ==> r.screen == s
  {
    if !s.keyboardAlreadyShown then KeyboardStep(Screen(true, Dimmed), Some(Dimmed))
    else KeyboardStep(s, None)
  }

  /** `keyboardWillHide`: always restores and clears the flag. */
  function KeyboardWillHide(s: Screen): (r: KeyboardStep)
    ensures !r.screen.keyboardAlreadyShown && r.screen.look == Normal
    ensures r.animation == Some(Normal)
  {
    KeyboardStep(Screen(false, Normal), Some(Normal))
  }

  /** A second show notification is a no-op. */
  lemma ShowTwiceIsShowOnce(s: Screen)
    ensures var once := KeyboardWillShow(s).screen;
      KeyboardWillShow(once) == KeyboardStep(once, None)
  {
  }

  /** The screen is dimmed exactly while the flag is set. */
  ghost predicate DimmedWhileShown(s: Screen) {
    s.look == Dimmed <==> s.keyboardAlreadyShown
  }

  lemma KeyboardKeepsDimming(s: Screen)
    requires DimmedWhileShown(s)
    ensures DimmedWhileShown(InitialScreen)
    ensures DimmedWhileShown(KeyboardWillShow(s).screen)
    ensures DimmedWhileShown(KeyboardWillHide(s).screen)
  {
  }
}
