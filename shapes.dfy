/** Value shapes shared by the two backends and the mobile client: the
    records of src/types/index.ts and the request/entry structs of
    backend/main.py and backend/main.go. Every number (Python float, Go
    float64, JavaScript number) is an exact `real`. */
module Shapes {

  datatype Option<+T> = None | Some(value: T)

  /** A value or an error; `:-` propagates the error like a raised exception. */
  datatype Result<+T, +E> = Success(value: T) | Failure(error: E) {
    predicate IsFailure() { Failure? }

    function PropagateFailure<U>(): Result<U, E>
      requires Failure?
    {
      Failure(error)
    }

    function Extract(): T
      requires Success?
    {
      value
    }
  }

  /** An HTTP error answer: its status code and its message (`detail` in
      FastAPI's body, `error` in gin's). */
  datatype HttpError = HttpError(status: int, detail: string)

  /** A handler's answer: 200 with a body, or an error status. */
  type Reply<T> = Result<T, HttpError>

  /** One logged meal. On the client its macros are per serving; the
      backends store them already multiplied by `servings`. */
  datatype MealEntry = MealEntry(
    name: string,
    protein: real,
    carbs: real,
    fat: real,
    calories: real,
    servings: real)

  /** The body of POST /meals, and of the label-scan answer. */
  datatype MealRequest = MealRequest(
    name: string,
    proteinPerServing: real,
    carbsPerServing: real,
    fatPerServing: real,
    caloriesPerServing: real,
    servings: real)

  datatype WeightRequest = WeightRequest(weight: real)

  /** The body of GET /weight/today and of the POST /weight answer. */
  datatype WeightEntry = WeightEntry(weight: real, date: string)

  datatype Totals = Totals(protein: real, carbs: real, fat: real, calories: real)

  const NoTotals := Totals(0.0, 0.0, 0.0, 0.0)

  /** The body of GET /meals/today as JSON: any field may be null or
      missing (None). */
  datatype MealsPayload = MealsPayload(
    meals: Option<seq<MealEntry>>,
    totalProtein: Option<real>,
    totalCarbs: Option<real>,
    totalFat: Option<real>,
    totalCalories: Option<real>)

  /** The four summed quantities of a meal. */
  datatype Macro = Protein | Carbs | Fat | Calories

  function Amount(m: MealEntry, k: Macro): real
  {
    match k
    case Protein => m.protein
    case Carbs => m.carbs
    case Fat => m.fat
    case Calories => m.calories
  }

  function PerServing(r: MealRequest, k: Macro): real
  {
    match k
    case Protein => r.proteinPerServing
    case Carbs => r.carbsPerServing
    case Fat => r.fatPerServing
    case Calories => r.caloriesPerServing
  }

  function Total(t: Totals, k: Macro): real
  {
    match k
    case Protein => t.protein
    case Carbs => t.carbs
    case Fat => t.fat
    case Calories => t.calories
  }
}
