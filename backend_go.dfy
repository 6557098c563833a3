/** backend/main.go: the gin service. Its two package-level maps become the
    fields of `Server`; `today()` becomes a `today` parameter and
    `ShouldBindJSON` an optional payload (None when binding fails). */
module GoBackend {
  import opened Shapes
  import opened Diary

  const InvalidPayload := "Invalid payload"
  const NoWeightMessage := "No weight entry for today"

  /** The maps `weightEntries` and `mealEntries`. */
  class Server {
    var weightEntries: Weights
    var mealEntries: Meals

    constructor ()
      ensures weightEntries == map[] && mealEntries == map[]
    {
      weightEntries := map[];
      mealEntries := map[];
    }

    /** POST /weight: an unbindable payload is a 400 that changes nothing;
        otherwise today's entry is overwritten and echoed. */
    method PostWeight(today: string, payload: Option<WeightRequest>) returns (r: Reply<WeightEntry>)
      modifies this
      ensures payload.None? ==> r == Failure(HttpError(400, InvalidPayload)) && weightEntries == old(weightEntries)
      ensures payload.Some? ==> r == Success(WeightEntry(payload.value.weight, today))
      ensures payload.Some? ==> weightEntries == RecordWeight(old(weightEntries), today, payload.value.weight)
      ensures mealEntries == old(mealEntries)
    {
      if payload.None? {
        r := Failure(HttpError(400, InvalidPayload));
        return;
      }
      var req := payload.value;
      weightEntries := weightEntries[today := req.weight];
      r := Success(WeightEntry(req.weight, today));
    }

    /** POST /meals: an unbindable payload is a 400 that appends nothing;
        otherwise the scaled meal goes at the end of today's slice and is
        echoed. */
    method PostMeal(today: string, payload: Option<MealRequest>) returns (r: Reply<MealEntry>)
      modifies this
      ensures payload.None? ==> r == Failure(HttpError(400, InvalidPayload)) && mealEntries == old(mealEntries)
      ensures payload.Some? ==> r == Success(Scale(payload.value))
      ensures payload.Some? ==> mealEntries == AppendMeal(old(mealEntries), today, Scale(payload.value))
      ensures weightEntries == old(weightEntries)
    {
      if payload.None? {
        r := Failure(HttpError(400, InvalidPayload));
        return;
      }
      var req := payload.value;
      var meal := MealEntry(
        req.name,
        req.proteinPerServing * req.servings,
        req.carbsPerServing * req.servings,
        req.fatPerServing * req.servings,
        req.caloriesPerServing * req.servings,
        req.servings);
      assert meal == Scale(req);
      var slice := if today in mealEntries then mealEntries[today] else [];
      mealEntries := mealEntries[today := slice + [meal]];
      r := Success(meal);
    }

    /** GET /meals/today: the four accumulators end as the sums of their
        fields over today's meals; `meals` is the nil slice (JSON null)
        when today has no entry. */
    method MealsToday(today: string) returns (r: MealsPayload)
      ensures r.meals.None? <==> today !in mealEntries
      ensures r.meals.Some? ==> r.meals.value == mealEntries[today]
      ensures r.totalProtein == Some(Sum(MealsOn(mealEntries, today), Protein))
      ensures r.totalCarbs == Some(Sum(MealsOn(mealEntries, today), Carbs))
      ensures r.totalFat == Some(Sum(MealsOn(mealEntries, today), Fat))
      ensures r.totalCalories == Some(Sum(MealsOn(mealEntries, today), Calories))
    {
      var nilSlice := today !in mealEntries;
      var meals := if nilSlice then [] else mealEntries[today];
      var totalProtein, totalCarbs, totalFat, totalCalories := 0.0, 0.0, 0.0, 0.0;
      for i := 0 to |meals|
        invariant totalProtein == Sum(meals[..i], Protein)
        invariant totalCarbs == Sum(meals[..i], Carbs)
        invariant totalFat == Sum(meals[..i], Fat)
        invariant totalCalories == Sum(meals[..i], Calories)
      {
        var m := meals[i];
        assert meals[..i + 1][..i] == meals[..i];
        totalProtein := totalProtein + m.protein;
        totalCarbs := totalCarbs + m.carbs;
        totalFat := totalFat + m.fat;
        totalCalories := totalCalories + m.calories;
      }
      assert meals[..|meals|] == meals;
      r := MealsPayload(
        if nilSlice then None else Some(meals),
        Some(totalProtein), Some(totalCarbs), Some(totalFat), Some(totalCalories));
    }

    /** GET /weight/today: 404 exactly when today's key is absent, else the
        stored weight under today's date. */
    method WeightToday(today: string) returns (r: Reply<WeightEntry>)
      ensures r.Failure? <==> today !in weightEntries
      ensures r.Failure? ==> r.error == HttpError(404, NoWeightMessage)
      ensures r.Success? ==> r.value == WeightEntry(weightEntries[today], today)
    {
      if today !in weightEntries {
        r := Failure(HttpError(404, NoWeightMessage));
        return;
      }
      var weight := weightEntries[today];
      r := Success(WeightEntry(weight, today));
    }
  }
}
