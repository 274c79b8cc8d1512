/** The form input's reducer and its initial state. */
module InputField {
  import opened Common

  datatype InputState = InputState(value: string, isTouched: bool, isValid: bool)

  /** The actions the input dispatches. `V` is the validators' type; `Other`
      stands for any other action type. */
  datatype InputAction<V> = Change(val: string, validators: V) | Touch | Other(kind: string)

  /** `inputReducer`, given the shared `validate(value, validators)`. */
  function Reduce<V>(state: InputState, action: InputAction<V>, validate: (string, V) -> bool): (r: InputState)
    ensures action.Change? ==>
      r.value == action.val && r.isValid == validate(action.val, action.validators) && r.isTouched == state.isTouched
    ensures action.Touch? ==> r.isTouched && r.value == state.value && r.isValid == state.isValid
    ensures action.Other? ==> r == state
  {
    match action
    case Change(val, validators) => state.(value := val, isValid := validate(val, validators))
    case Touch => state.(isTouched := true)
    case Other(_) => state
  }

  /** The reducer's starting state: `initialValue || ''`, untouched,
      `initialValid || false`. */
  function Initial(initialValue: Option<string>, initialValid: Option<bool>): (r: InputState)
    ensures !r.isTouched
    ensures r.value == (if initialValue.Some? then initialValue.value else "")
    ensures r.isValid <==> initialValid == Some(true)
  {
    InputState(initialValue.GetOr(""), false, initialValid.GetOr(false))
  }

  /** The error text (and the invalid style) shows only once the field was
      left and its value is invalid. */
  predicate ShowsError(state: InputState) {
    !state.isValid && state.isTouched
  }

  /** Touching twice is touching once. */
  lemma TouchIdempotent<V>(state: InputState, validate: (string, V) -> bool)
    ensures Reduce(Reduce(state, Touch, validate), Touch, validate) == Reduce(state, Touch, validate)
  {
  }

  /** Typing and leaving the field commute: the order of CHANGE and TOUCH does
      not matter. */
  lemma ChangeTouchCommute<V>(state: InputState, val: string, validators: V, validate: (string, V) -> bool)
    ensures Reduce(Reduce(state, Change(val, validators), validate), Touch, validate)
         == Reduce(Reduce(state, Touch, validate), Change(val, validators), validate)
  {
  }

  /** A fresh input never shows its error: it has not been touched yet. */
  lemma FreshInputHidesError(initialValue: Option<string>, initialValid: Option<bool>)
    ensures !ShowsError(Initial(initialValue, initialValid))
  {
  }

  /** After the field is left, the error shows exactly when the last typed
      value fails validation. */
  lemma ErrorAfterTouch<V>(state: InputState, val: string, validators: V, validate: (string, V) -> bool)
    ensures ShowsError(Reduce(Reduce(state, Change(val, validators), validate), Touch, validate))
        <==> !validate(val, validators)
  {
  }
}
