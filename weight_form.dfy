/** src/components/WeightEntry.tsx: the weight form. Its two state fields
    become the fields of `Form`; JavaScript's `parseFloat` is a parameter
    (None standing for NaN), and whether the parent's `onSubmit` promise
    resolves is an input. */
module WeightForm {
  import opened Shapes
  import opened Text

  const InvalidStatus := "Please enter a valid weight."
  const SubmittedStatus := "Weight submitted!"
  const FailedStatus := "Failed to submit weight."

  /** The Submit button's `disabled`: the input trims to nothing, that is,
      it holds only white space. */
  predicate SubmitDisabled(weight: string)
    ensures SubmitDisabled(weight) <==> Blank(weight, JsSpace)
  {
    Trim(weight, JsSpace) == []
  }

  /** The button gate is never stricter than the submit handler's: text
      the handler accepts always leaves the button enabled. */
  lemma AcceptedImpliesEnabled(weight: string, parseFloat: string -> Option<real>)
    requires BlankIsNaN(parseFloat)
    requires parseFloat(weight).Some?
    ensures !SubmitDisabled(weight)
  {
  }

  class Form {
    var weight: string
    var status: string

    constructor ()
      ensures weight == "" && status == ""
    {
      weight := "";
      status := "";
    }

    /** `handleSubmit`: unparsable input is refused without calling
        `onSubmit` and kept; otherwise `onSubmit` is called once with the
        parsed number (`submitted`), and the input is cleared only when it
        resolves. */
    method HandleSubmit(parseFloat: string -> Option<real>, resolves: bool) returns (submitted: Option<real>)
      modifies this
      ensures submitted == parseFloat(old(weight))
      ensures submitted.None? ==> status == InvalidStatus && weight == old(weight)
      ensures submitted.Some? && resolves ==> status == SubmittedStatus && weight == ""
      ensures submitted.Some? && !resolves ==> status == FailedStatus && weight == old(weight)
    {
      var w := parseFloat(weight);
      if w.None? {
        status := InvalidStatus;
        submitted := None;
        return;
      }
      submitted := w;
      if resolves {
        status := SubmittedStatus;
        weight := "";
      } else {
        status := FailedStatus;
      }
    }
  }
}
