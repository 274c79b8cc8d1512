/** The image picker's state and the rule that makes a pick valid. */
module ImagePicker {
  import opened Common

  /** The picked file (`undefined` before any valid pick) and its validity. */
  datatype PickerState<F> = PickerState(file: Option<F>, isValid: bool)

  /** What the picker reports to the form: `(id, pickedFile, fileIsValid)`. */
  datatype Report<F> = Report(id: string, file: Option<F>, isValid: bool)

  function Initial<F>(): (r: PickerState<F>)
    ensures r.file.None? && !r.isValid
  {
    PickerState(None, false)
  }

  /** `pickedHandler`: exactly one chosen file is a valid pick and becomes the
      stored file; no list, an empty one or several files are an invalid pick
      that keeps the previous file. */
  function Pick<F>(state: PickerState<F>, id: string, files: Option<seq<F>>): (r: (PickerState<F>, Report<F>))
    ensures files.Some? && |files.value| == 1 ==>
      && r.0 == PickerState(Some(files.value[0]), true)
      && r.1 == Report(id, Some(files.value[0]), true)
    ensures !(files.Some? && |files.value| == 1) ==>
      && r.0 == PickerState(state.file, false)
      && r.1 == Report(id, None, false)
  {
    if files.Some? && |files.value| == 1 then
      (PickerState(Some(files.value[0]), true), Report(id, Some(files.value[0]), true))
    else
      (state.(isValid := false), Report(id, None, false))
  }

  /** The "please provide an image" text shows while the pick is not valid. */
  predicate ShowsError<F>(state: PickerState<F>) {
    !state.isValid
  }

  /** What the picker reports agrees with its own new state: the report is
      valid iff the state is, and a valid report carries the stored file. */
  lemma ReportMatchesState<F>(state: PickerState<F>, id: string, files: Option<seq<F>>)
    ensures
      var (next, report) := Pick(state, id, files);
      && report.isValid == next.isValid
      && (report.isValid ==> report.file == next.file && report.file.Some?)
      && (ShowsError(next) <==> !report.isValid)
  {
  }

  /** A bad pick after a good one keeps the good file but shows the error. */
  lemma InvalidPickKeepsFile<F>(f: F, id: string)
    ensures
      var afterGood := Pick(Initial<F>(), id, Some([f])).0;
      var afterBad := Pick(afterGood, id, Some([])).0;
      afterBad.file == Some(f) && ShowsError(afterBad)
  {
  }
}
