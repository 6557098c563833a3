/** How the client talks to the backend: the renaming of meal fields
    between the UI's names and the wire's `*_per_serving` names, and the
    outcome of an awaited axios request. */
module Wire {
  import opened Shapes

  /** The body `handleMealSubmit` posts: each macro under its
      `*_per_serving` name, `name` and `servings` as they are. */
  function ToWire(m: MealEntry): (r: MealRequest)
    ensures r.name == m.name && r.servings == m.servings
    ensures forall k :: PerServing(r, k) == Amount(m, k)
  {
    MealRequest(m.name, m.protein, m.carbs, m.fat, m.calories, m.servings)
  }

  /** The meal `uploadImage` builds from a label-scan answer: each
      `*_per_serving` field back under its bare name. */
  function FromWire(r: MealRequest): (m: MealEntry)
    ensures m.name == r.name && m.servings == r.servings
    ensures forall k :: Amount(m, k) == PerServing(r, k)
  {
    MealEntry(r.name, r.proteinPerServing, r.carbsPerServing, r.fatPerServing,
              r.caloriesPerServing, r.servings)
  }

  /** The two renamings are inverse to each other, in both directions. */
  lemma RenameRoundTrip(m: MealEntry, r: MealRequest)
    ensures FromWire(ToWire(m)) == m
    ensures ToWire(FromWire(r)) == r
  {
  }

  /** What an awaited GET yields: a 2xx answer whose JSON body may be
      null, or a rejected promise (network failure or non-2xx status). */
  datatype Fetch<+T> = Received(data: Option<T>) | FetchFailed

  /** axios's default status check: a 200 answer resolves with its body,
      an error status rejects. */
  function Deliver<T>(r: Reply<T>): (f: Fetch<T>)
    ensures f.FetchFailed? <==> r.Failure?
    ensures r.Success? ==> f == Received(Some(r.value))
  {
    match r
    case Success(body) => Received(Some(body))
    case Failure(_) => FetchFailed
  }
}
