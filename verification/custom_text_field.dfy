/**
 * The custom text field: secure entry with an eye button that toggles it,
 * and the re-insertion of the text that keeps it when a secure field regains
 * focus.
 */
module CustomTextField {
  import opened Wrappers

  datatype ContentType = NewPassword

  datatype TextField = TextField(
    placeholder: string,
    isSecureTextEntry: bool,
    textContentType: Option<ContentType>,
    eyeIcon: Option<string>,  // the eye button's symbol, when the field has one as right view
    text: string,
    isFirstResponder: bool)

  const EyeSlash: string := "eye.slash"
  const Eye: string := "eye"

  /** The eye symbol that matches a secure-entry setting. */
  function IconFor(secure: bool): string {
    if secure then EyeSlash else Eye
  }

  /** `init(placeholder:isSecure:)`. */
  function Init(placeholder: string, isSecure: bool): (f: TextField)
    ensures f.isSecureTextEntry == isSecure && f.placeholder == placeholder
    ensures isSecure <==> f.textContentType == Some(NewPassword)
    ensures isSecure <==> f.eyeIcon.Some?
    ensures isSecure ==> f.eyeIcon == Some("eye.slash")
    ensures f.text == "" && !f.isFirstResponder
  {
    TextField(placeholder, isSecure,
      if isSecure then Some(NewPassword) else None,
      if isSecure then Some(EyeSlash) else None,
      "", false)
  }

  /** `insertText` at the caret, which is at the end of the current text. */
  function InsertText(current: string, inserted: string): string {
    current + inserted
  }

  /**
   * `becomeFirstResponder`: `granted` is what UIKit answers. A secure field
   * removes all of its text and inserts the same string into the now empty field.
   */
  function BecomeFirstResponder(f: TextField, granted: bool): (r: TextField)
    ensures r.text == f.text
    ensures r.isFirstResponder == (f.isFirstResponder || granted)
    ensures r.(text := f.text, isFirstResponder := f.isFirstResponder) == f
  {
    var g := f.(isFirstResponder := f.isFirstResponder || granted);
    if g.isSecureTextEntry then g.(text := InsertText("", g.text)) else g
  }

  /** Setting `isSecureTextEntry`; its observer re-focuses a focused field. */
  function SetSecureTextEntry(f: TextField, secure: bool): (r: TextField)
    ensures r.isSecureTextEntry == secure
    ensures r.(isSecureTextEntry := f.isSecureTextEntry) == f
  {
    var g := f.(isSecureTextEntry := secure);
    if g.isFirstResponder then BecomeFirstResponder(g, true) else g
  }

  /** `togglePasswordVisibility`. */
  function TogglePasswordVisibility(f: TextField): (r: TextField)
    ensures r.isSecureTextEntry == !f.isSecureTextEntry
    ensures r.eyeIcon.Some? <==> f.eyeIcon.Some?
    ensures r.eyeIcon.Some? ==> r.eyeIcon.value == IconFor(r.isSecureTextEntry)
    ensures r.text == f.text
  {
    var g := SetSecureTextEntry(f, !f.isSecureTextEntry);
    if g.eyeIcon.Some? then g.(eyeIcon := Some(IconFor(g.isSecureTextEntry))) else g
  }

  /** The eye button, if any, shows the symbol for the current setting. */
  ghost predicate IconMatches(f: TextField) {
    f.eyeIcon.Some? ==> f.eyeIcon.value == IconFor(f.isSecureTextEntry)
  }

  /** A new field's icon matches, and toggling keeps it matching. */
  lemma IconStaysInStep(placeholder: string, isSecure: bool, f: TextField)
    ensures IconMatches(Init(placeholder, isSecure))
    ensures IconMatches(TogglePasswordVisibility(f))
  {
  }

  /** Toggling twice gives back the field as it was. */
  lemma ToggleTwiceRestores(f: TextField)
    requires IconMatches(f)
    ensures TogglePasswordVisibility(TogglePasswordVisibility(f)) == f
  {
  }

  /** The eye icon is "eye.slash" exactly while entry is secure. */
  lemma IconShowsSecurity(f: TextField)
    requires IconMatches(f) && f.eyeIcon.Some?
    ensures f.eyeIcon == Some("eye.slash") <==> f.isSecureTextEntry
  {
  }
}
