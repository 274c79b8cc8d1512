/** The login/signup page's mode switch and the form state it rewrites. */
module AuthPage {
  import opened Common

  /** A form entry's value: text, or the picked image (`null` before a pick). */
  datatype EntryValue<F> = Text(text: string) | Picked(file: F) | NoImage

  /** One input of the form-state hook: its value and whether it is valid. */
  datatype Entry<F> = Entry(value: EntryValue<F>, isValid: bool)

  /** The form's inputs; `name` and `image` are `undefined` outside signup mode. */
  datatype Inputs<F> = Inputs(email: Entry<F>, password: Entry<F>, name: Option<Entry<F>>, image: Option<Entry<F>>)

  datatype AuthState<F> = AuthState(isLoginMode: bool, inputs: Inputs<F>, formIsValid: bool)

  /** The page as first shown: login mode, empty invalid email and password, an
      invalid form. */
  function Initial<F>(): (r: AuthState<F>)
    ensures r.isLoginMode && !r.formIsValid
    ensures r.inputs.email == Entry(Text(""), false) && r.inputs.password == Entry(Text(""), false)
    ensures r.inputs.name.None? && r.inputs.image.None?
  {
    AuthState(true, Inputs(Entry(Text(""), false), Entry(Text(""), false), None, None), false)
  }

  /** `switchModeHandler`: to login mode, `name` and `image` are dropped and the
      form is valid when email and password are; to signup mode, an empty
      invalid name and an empty invalid image are added and the form is
      invalid. The mode flips either way. */
  function SwitchMode<F>(state: AuthState<F>): (r: AuthState<F>)
    ensures r.isLoginMode == !state.isLoginMode
    ensures r.inputs.email == state.inputs.email && r.inputs.password == state.inputs.password
    ensures r.isLoginMode ==>
      && r.inputs.name.None? && r.inputs.image.None?
      && (r.formIsValid <==> state.inputs.email.isValid && state.inputs.password.isValid)
    ensures !r.isLoginMode ==>
      && r.inputs.name == Some(Entry(Text(""), false))
      && r.inputs.image == Some(Entry(NoImage, false))
      && !r.formIsValid
  {
    if !state.isLoginMode then
      AuthState(true, state.inputs.(name := None, image := None),
                state.inputs.email.isValid && state.inputs.password.isValid)
    else
      AuthState(false, state.inputs.(name := Some(Entry(Text(""), false)), image := Some(Entry(NoImage, false))), false)
  }

  /** The signup-only inputs are present exactly in signup mode. */
  ghost predicate ModeConsistent<F>(state: AuthState<F>) {
    state.isLoginMode <==> state.inputs.name.None? && state.inputs.image.None?
  }

  /** The initial page is consistent, and switching keeps it so. */
  lemma SwitchKeepsModeConsistent<F>(state: AuthState<F>)
    ensures ModeConsistent(Initial<F>())
    ensures ModeConsistent(SwitchMode(state))
  {
  }

  /** Switching twice restores the mode, email and password, with the form's
      validity recomputed from them. From login mode the signup entries come
      and go again. */
  lemma SwitchTwice<F>(state: AuthState<F>)
    ensures SwitchMode(SwitchMode(state)).isLoginMode == state.isLoginMode
    ensures SwitchMode(SwitchMode(state)).inputs.email == state.inputs.email
    ensures SwitchMode(SwitchMode(state)).inputs.password == state.inputs.password
    ensures state.isLoginMode && state.inputs.name.None? && state.inputs.image.None? ==>
      SwitchMode(SwitchMode(state)) ==
        state.(formIsValid := state.inputs.email.isValid && state.inputs.password.isValid)
  {
  }
}
