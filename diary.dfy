/** The day-keyed store both backends keep in memory: a table from date
    string to weight, and a table from date string to the list of meals
    logged that day. The two backends (PyBackend, GoBackend) update their
    tables through these functions, so what is proved here holds of both. */
module Diary {
  import opened Shapes

  type Weights = map<string, real>
  type Meals = map<string, seq<MealEntry>>

  /** The meal stored for a request: each per-serving macro multiplied by
      the number of servings, name and servings copied. */
  function Scale(req: MealRequest): (m: MealEntry)
    ensures m.name == req.name && m.servings == req.servings
    ensures forall k :: Amount(m, k) == PerServing(req, k) * req.servings
  {
    MealEntry(
      req.name,
      req.proteinPerServing * req.servings,
      req.carbsPerServing * req.servings,
      req.fatPerServing * req.servings,
      req.caloriesPerServing * req.servings,
      req.servings)
  }

  /** The meals of one day (`entries.get(day, [])`); a day never logged
      has none. */
  function MealsOn(entries: Meals, day: string): (r: seq<MealEntry>)
    ensures day in entries ==> r == entries[day]
    ensures day !in entries ==> r == []
  {
    if day in entries then entries[day] else []
  }

  /** Logging a meal: it goes at the end of that day's list (created empty
      if absent); every other day keeps its list. */
  function AppendMeal(entries: Meals, day: string, meal: MealEntry): (r: Meals)
    ensures r.Keys == entries.Keys + {day}
    ensures MealsOn(r, day) == MealsOn(entries, day) + [meal]
    ensures forall d :: d in entries && d != day ==> r[d] == entries[d]
  {
    entries[day := MealsOn(entries, day) + [meal]]
  }

  /** Logging a weight: the day's entry is set to `w`, replacing any older
      one; every other day keeps its entry. */
  function RecordWeight(weights: Weights, day: string, w: real): (r: Weights)
    ensures r.Keys == weights.Keys + {day} && r[day] == w
    ensures forall d :: d in weights && d != day ==> r[d] == weights[d]
  {
    weights[day := w]
  }

  /** Of two weights logged on one day only the later is kept. */
  lemma LastWeightWins(weights: Weights, day: string, first: real, second: real)
    ensures RecordWeight(RecordWeight(weights, day, first), day, second)
         == RecordWeight(weights, day, second)
  {
  }

  /** Logging the same weight twice is the same as logging it once. */
  lemma RecordWeightIdempotent(weights: Weights, day: string, w: real)
    ensures RecordWeight(RecordWeight(weights, day, w), day, w) == RecordWeight(weights, day, w)
  {
    LastWeightWins(weights, day, w, w);
  }

  /** The sum of one macro over a list of meals, accumulated front to back
      from 0: nothing for no meals, the one meal's amount for one. */
  function Sum(ms: seq<MealEntry>, k: Macro): (r: real)
    ensures ms == [] ==> r == 0.0
    ensures |ms| == 1 ==> r == Amount(ms[0], k)
  {
    if ms == [] then 0.0 else Sum(ms[..|ms| - 1], k) + Amount(ms[|ms| - 1], k)
  }

  /** A sum is never negative when no meal's amount is. */
  lemma {:induction false} SumNonNegative(ms: seq<MealEntry>, k: Macro)
    requires forall i :: 0 <= i < |ms| ==> Amount(ms[i], k) >= 0.0
    ensures Sum(ms, k) >= 0.0
  {
    if ms != [] {
      SumNonNegative(ms[..|ms| - 1], k);
    }
  }

  /** The four totals of a list of meals. */
  function TotalsOf(ms: seq<MealEntry>): (t: Totals)
    ensures forall k :: Total(t, k) == Sum(ms, k)
  {
    Totals(Sum(ms, Protein), Sum(ms, Carbs), Sum(ms, Fat), Sum(ms, Calories))
  }

  /** Sums split over concatenation. */
  lemma {:induction false} SumConcat(a: seq<MealEntry>, b: seq<MealEntry>, k: Macro)
    ensures Sum(a + b, k) == Sum(a, k) + Sum(b, k)
    decreases |b|
  {
    if b != [] {
      var b' := b[..|b| - 1];
      assert (a + b)[..|a + b| - 1] == a + b';
      SumConcat(a, b', k);
    } else {
      assert a + b == a;
    }
  }

  /** Totals add over concatenation, field by field. */
  lemma TotalsConcat(a: seq<MealEntry>, b: seq<MealEntry>)
    ensures forall k :: Total(TotalsOf(a + b), k) == Total(TotalsOf(a), k) + Total(TotalsOf(b), k)
  {
    forall k: Macro
      ensures Total(TotalsOf(a + b), k) == Total(TotalsOf(a), k) + Total(TotalsOf(b), k)
    {
      SumConcat(a, b, k);
    }
  }

  /** After logging a meal for `day`, each of that day's totals has grown
      by exactly the amount the new meal stores, which is the per-serving
      value times the servings; every other day's totals are unchanged. */
  lemma TotalsAfterLogging(entries: Meals, day: string, req: MealRequest, other: string)
    requires other != day
    ensures forall k :: Sum(MealsOn(AppendMeal(entries, day, Scale(req)), day), k)
                     == Sum(MealsOn(entries, day), k) + PerServing(req, k) * req.servings
    ensures TotalsOf(MealsOn(AppendMeal(entries, day, Scale(req)), other))
         == TotalsOf(MealsOn(entries, other))
  {
    var m := Scale(req);
    var before := MealsOn(entries, day);
    assert (before + [m])[..|before + [m]| - 1] == before;
  }

  /** The meals of `reqs`, logged one after the other on `day`. */
  function LogAll(entries: Meals, day: string, reqs: seq<MealRequest>): Meals
  {
    if reqs == [] then entries
    else AppendMeal(LogAll(entries, day, reqs[..|reqs| - 1]), day, Scale(reqs[|reqs| - 1]))
  }

  /** The reference value of a total: per-serving amount times servings,
      added up over the requests. */
  function Intake(reqs: seq<MealRequest>, k: Macro): real
  {
    if reqs == [] then 0.0
    else Intake(reqs[..|reqs| - 1], k) + PerServing(reqs[|reqs| - 1], k) * reqs[|reqs| - 1].servings
  }

  /** Logging a sequence of requests on one day appends their scaled meals
      in order, raises that day's totals by exactly their intake, and leaves
      every other day's list as it was. */
  lemma {:induction false} LoggedDay(entries: Meals, day: string, reqs: seq<MealRequest>, k: Macro, other: string)
    requires other != day
    ensures |MealsOn(LogAll(entries, day, reqs), day)| == |MealsOn(entries, day)| + |reqs|
    ensures Sum(MealsOn(LogAll(entries, day, reqs), day), k) == Sum(MealsOn(entries, day), k) + Intake(reqs, k)
    ensures MealsOn(LogAll(entries, day, reqs), other) == MealsOn(entries, other)
    decreases |reqs|
  {
    if reqs != [] {
      var prefix := reqs[..|reqs| - 1];
      var last := reqs[|reqs| - 1];
      LoggedDay(entries, day, prefix, k, other);
      var before := LogAll(entries, day, prefix);
      TotalsAfterLogging(before, day, last, other);
    }
  }
}
