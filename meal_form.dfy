/** src/components/MealEntry.tsx: the manual meal form. Its seven state
    fields become the fields of `Form`; JavaScript's `parseFloat` is a
    parameter (None standing for NaN), and whether the parent's `onSubmit`
    promise resolves is an input. */
module MealForm {
  import opened Shapes
  import opened Text

  const InvalidStatus := "Please fill all fields with valid numbers."
  const LoggedStatus := "Meal logged!"
  const FailedStatus := "Failed to log meal."

  /** The six text inputs of the form. */
  datatype Inputs = Inputs(
    name: string,
    protein: string,
    carbs: string,
    fat: string,
    calories: string,
    servings: string)

  const Cleared := Inputs("", "", "", "", "", "")

  /** The five numeric inputs. */
  function Numeric(f: Inputs): (r: seq<string>)
    ensures |r| == 5
  {
    [f.protein, f.carbs, f.fat, f.calories, f.servings]
  }

  /** The gate of `handleSubmit`: a non-empty name and five numbers that
      parse give the meal handed to `onSubmit`, each parsed value in the
      slot of the same name; anything else gives None. */
  function Validate(f: Inputs, parseFloat: string -> Option<real>): (r: Option<MealEntry>)
    ensures r.None? <==> f.name == [] || exists i :: 0 <= i < 5 && parseFloat(Numeric(f)[i]).None?
    ensures r.Some? ==> r.value.name == f.name
    ensures r.Some? ==> Some(r.value.protein) == parseFloat(f.protein) && Some(r.value.carbs) == parseFloat(f.carbs)
                        && Some(r.value.fat) == parseFloat(f.fat) && Some(r.value.calories) == parseFloat(f.calories)
                        && Some(r.value.servings) == parseFloat(f.servings)
  {
    if f.name == [] || parseFloat(f.protein).None? || parseFloat(f.carbs).None? || parseFloat(f.fat).None?
       || parseFloat(f.calories).None? || parseFloat(f.servings).None? then
      assert f.name != [] ==> exists i :: 0 <= i < 5 && parseFloat(Numeric(f)[i]).None? by {
        if parseFloat(f.protein).None? { assert Numeric(f)[0] == f.protein; }
        else if parseFloat(f.carbs).None? { assert Numeric(f)[1] == f.carbs; }
        else if parseFloat(f.fat).None? { assert Numeric(f)[2] == f.fat; }
        else if parseFloat(f.calories).None? { assert Numeric(f)[3] == f.calories; }
        else { assert Numeric(f)[4] == f.servings; }
      }
      None
    else
      Some(MealEntry(f.name, parseFloat(f.protein).value, parseFloat(f.carbs).value, parseFloat(f.fat).value,
                     parseFloat(f.calories).value, parseFloat(f.servings).value))
  }

  /** The Add button's `disabled`: some input trims to nothing, that is,
      holds only white space. */
  predicate AddDisabled(f: Inputs)
    ensures AddDisabled(f) <==>
              Blank(f.name, JsSpace) || Blank(f.protein, JsSpace) || Blank(f.carbs, JsSpace)
              || Blank(f.fat, JsSpace) || Blank(f.calories, JsSpace) || Blank(f.servings, JsSpace)
  {
    Trim(f.name, JsSpace) == [] || Trim(f.protein, JsSpace) == [] || Trim(f.carbs, JsSpace) == []
    || Trim(f.fat, JsSpace) == [] || Trim(f.calories, JsSpace) == [] || Trim(f.servings, JsSpace) == []
  }

  /** The button and the handler gate alike except on the name: a form the
      handler accepts has its button disabled exactly when the name is only
      white space (which `!mealName` lets through). */
  lemma ButtonAgreesWithHandler(f: Inputs, parseFloat: string -> Option<real>)
    requires BlankIsNaN(parseFloat)
    requires Validate(f, parseFloat).Some?
    ensures AddDisabled(f) <==> Blank(f.name, JsSpace)
  {
    assert parseFloat(f.protein).Some? && parseFloat(f.carbs).Some? && parseFloat(f.fat).Some?;
    assert parseFloat(f.calories).Some? && parseFloat(f.servings).Some?;
  }

  /** A blank-but-not-empty name passes the handler's own check. */
  lemma SpacesNamePassesHandler(parseFloat: string -> Option<real>)
    requires BlankIsNaN(parseFloat) && parseFloat("1") == Some(1.0)
    ensures Validate(Inputs(" ", "1", "1", "1", "1", "1"), parseFloat).Some?
    ensures AddDisabled(Inputs(" ", "1", "1", "1", "1", "1"))
  {
    assert Blank(" ", JsSpace);
  }

  class Form {
    var mealName: string
    var protein: string
    var carbs: string
    var fat: string
    var calories: string
    var servings: string
    var status: string

    constructor ()
      ensures Fields() == Cleared && status == ""
    {
      mealName, protein, carbs, fat, calories, servings := "", "", "", "", "", "";
      status := "";
    }

    /** The six inputs as one value. */
    function Fields(): Inputs
      reads this
    {
      Inputs(mealName, protein, carbs, fat, calories, servings)
    }

    /** `handleSubmit`: an invalid form is refused without calling
        `onSubmit` and kept; otherwise `onSubmit` gets the parsed meal
        (`submitted`), and the six inputs are cleared only when it resolves. */
    method HandleSubmit(parseFloat: string -> Option<real>, resolves: bool) returns (submitted: Option<MealEntry>)
      modifies this
      ensures submitted == Validate(old(Fields()), parseFloat)
      ensures submitted.None? ==> status == InvalidStatus && Fields() == old(Fields())
      ensures submitted.Some? && resolves ==> status == LoggedStatus && Fields() == Cleared
      ensures submitted.Some? && !resolves ==> status == FailedStatus && Fields() == old(Fields())
    {
      if mealName == [] || parseFloat(protein).None? || parseFloat(carbs).None? || parseFloat(fat).None?
         || parseFloat(calories).None? || parseFloat(servings).None? {
        status := InvalidStatus;
        submitted := None;
        return;
      }
      submitted := Some(MealEntry(mealName, parseFloat(protein).value, parseFloat(carbs).value,
                                  parseFloat(fat).value, parseFloat(calories).value, parseFloat(servings).value));
      if resolves {
        status := LoggedStatus;
        mealName, protein, carbs, fat, calories, servings := "", "", "", "", "", "";
      } else {
        status := FailedStatus;
      }
    }
  }
}
