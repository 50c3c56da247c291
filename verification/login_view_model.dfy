/**
 * A three-field form validator whose fields match the sign-up form, and the
 * button colours it derives from validity. No shown screen binds it.
 */
module LoginViewModel {

  /** The latest values of the email, password and nickname relays. */
  datatype Form = Form(email: string, password: string, nickname: string)

  /** All three relays start empty. */
  function InitialForm(): Form {
    Form("", "", "")
  }

  function Fields(f: Form): seq<string> {
    [f.email, f.password, f.nickname]
  }

  /** `isFormValid`: only emptiness is tested, so whitespace counts as content. */
  function IsFormValid(f: Form): (valid: bool)
    ensures valid <==> "" !in Fields(f)
  {
    f.email != "" && f.password != "" && f.nickname != ""
  }

  datatype BaseColor = White | Black

  /** A colour with its alpha component. */
  datatype Color = Color(base: BaseColor, alpha: real)

  /** `buttonBackgroundColor`: opaque white when valid, faint white otherwise. */
  function ButtonBackgroundColor(valid: bool): (c: Color)
    ensures c.base == White
    ensures c.alpha == 1.0 <==> valid
    ensures !valid ==> c.alpha == 0.2
  {
    if valid then Color(White, 1.0) else Color(White, 0.2)
  }

  /** `buttonTintColor`: opaque black when valid, dimmed black otherwise. */
  function ButtonTintColor(valid: bool): (c: Color)
    ensures c.base == Black
    ensures c.alpha == 1.0 <==> valid
    ensures !valid ==> c.alpha == 0.67
  {
    if valid then Color(Black, 1.0) else Color(Black, 0.67)
  }

  /** The pair of button colours the validator derives for a form. */
  function ButtonStyle(f: Form): (Color, Color) {
    var valid := IsFormValid(f);
    (ButtonBackgroundColor(valid), ButtonTintColor(valid))
  }

  /** The untouched form is invalid. */
  lemma InitialFormInvalid()
    ensures !IsFormValid(InitialForm())
    ensures ButtonStyle(InitialForm()) == (Color(White, 0.2), Color(Black, 0.67))
  {
  }

  /** A non-empty run of spaces. */
  predicate OnlySpaces(s: string) {
    |s| > 0 && forall i :: 0 <= i < |s| ==> s[i] == ' '
  }

  /** Every form whose fields hold only spaces is valid. */
  lemma WhitespaceIsContent(f: Form)
    requires forall j :: 0 <= j < |Fields(f)| ==> OnlySpaces(Fields(f)[j])
    ensures IsFormValid(f)
    ensures ButtonStyle(f) == (Color(White, 1.0), Color(Black, 1.0))
  {
  }

  /** Emptying any one field makes the form invalid, whatever the others hold. */
  lemma EmptyFieldInvalidates(f: Form)
    ensures !IsFormValid(f.(email := "")) && !IsFormValid(f.(password := "")) && !IsFormValid(f.(nickname := ""))
  {
  }

  /**
   * The button style is a function of validity alone, and tells valid and
   * invalid forms apart.
   */
  lemma StyleExactlyReflectsValidity(f: Form, g: Form)
    ensures ButtonStyle(f) == ButtonStyle(g) <==> IsFormValid(f) == IsFormValid(g)
  {
  }
}
