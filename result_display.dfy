/** What the recipe extractor, meal planner and scan-and-cook screens show of
    the JSON their endpoints return. The responses are stored as they arrive,
    so every rule here is a defaulting rule over an arbitrary JSON value:
    `x || []` and `x || '—'` replace falsy fields, `x?.map(...)` renders
    nothing for a nullish field. */
module ResultDisplay {
  import opened Js

  /** What the time line shows when the estimate is missing or falsy. */
  const NoTimeEstimate: JsValue := Str("—")

  /** A section guarded by `value && (...)`: drawn only for a truthy value. */
  datatype Shown<+T> = Hidden | Visible(content: T)

  /** One line of the numbered step list: `{index + 1}. {item}`. */
  datatype StepRow = StepRow(number: nat, text: JsValue)

  /** The extract result panel: shopping list, numbered steps, time line. */
  datatype ExtractPanel = ExtractPanel(shoppingList: seq<JsValue>, steps: seq<StepRow>, estimatedTime: JsValue)

  /** One meal line of the plan: `- {m.title} ({m.servings})`. */
  datatype MealRow = MealRow(title: JsValue, servings: JsValue)

  /** One day of the plan: its `day` heading and its meal lines. */
  datatype DayBlock = DayBlock(day: JsValue, meals: seq<MealRow>)

  /** The plan panel: the day blocks (`None` when `days` is nullish and
      nothing is drawn) and the consolidated shopping list. */
  datatype PlanPanel = PlanPanel(days: Option<seq<DayBlock>>, shoppingList: seq<JsValue>)

  /** `field || []`: the value handed to a FlatList's `data`. */
  function ListData(field: JsValue): (r: JsValue)
    ensures !Truthy(field) ==> r == Arr([])
    ensures Truthy(field) ==> r == field
  {
    Or(field, Arr([]))
  }

  /** The rows a FlatList draws for its `data`: one per array element. */
  function FlatListRows(data: JsValue): (r: seq<JsValue>)
    ensures data.Arr? ==> r == data.items
    ensures !data.Arr? ==> r == []
  {
    if data.Arr? then data.items else []
  }

  /** The rows of a list rendered with `renderItem={({ item, index }) => ... index + 1 ...}`:
      the item at position `i` is labelled `i + 1`. */
  function NumberedRows(items: seq<JsValue>): (r: seq<StepRow>)
    ensures |r| == |items|
    ensures forall i :: 0 <= i < |items| ==> r[i].text == items[i] && r[i].number == i + 1
  {
    seq(|items|, i requires 0 <= i < |items| => StepRow(i + 1, items[i]))
  }

  /** `time_estimate || '—'`: the text of the "Estimated time" line. */
  function TimeText(estimate: JsValue): (r: JsValue)
    ensures Truthy(r)
    ensures Truthy(estimate) ==> r == estimate
    ensures !Truthy(estimate) ==> r == NoTimeEstimate
  {
    Or(estimate, NoTimeEstimate)
  }

  /** The recipe extractor's result panel for the stored `result`. */
  function ExtractView(result: JsValue): (r: Shown<ExtractPanel>)
    ensures r.Visible? <==> Truthy(result)
    ensures r.Visible? ==>
      var list := Get(result, "shopping_list");
      (!Truthy(list) ==> r.content.shoppingList == []) &&
      (list.Arr? ==> r.content.shoppingList == list.items)
    ensures r.Visible? ==>
      var steps := Get(result, "steps");
      (!Truthy(steps) ==> r.content.steps == []) &&
      (steps.Arr? ==>
         |r.content.steps| == |steps.items| &&
         forall i :: 0 <= i < |steps.items| ==>
           r.content.steps[i] == StepRow(i + 1, steps.items[i]))
    ensures r.Visible? ==>
      var time := Get(result, "time_estimate");
      (Truthy(time) ==> r.content.estimatedTime == time) &&
      (!Truthy(time) ==> r.content.estimatedTime == NoTimeEstimate)
  {
    if !Truthy(result) then Hidden
    else
      Visible(ExtractPanel(
        FlatListRows(ListData(Get(result, "shopping_list"))),
        NumberedRows(FlatListRows(ListData(Get(result, "steps")))),
        TimeText(Get(result, "time_estimate"))))
  }

  /** `<Text>- {m.title} ({m.servings})</Text>`: reading a property of a
      nullish meal throws. */
  function MealRowOf(m: JsValue): (r: Outcome<MealRow>)
    ensures r.Rendered? <==> !IsNullish(m)
    ensures r.Rendered? ==> r.value == MealRow(Get(m, "title"), Get(m, "servings"))
  {
    if IsNullish(m) then Thrown else Rendered(MealRow(Get(m, "title"), Get(m, "servings")))
  }

  /** A day renders when it is not nullish, its `meals` is an array and no
      meal in it is nullish: `d.meals.map(...)` is not optional-chained. */
  predicate DayRenders(d: JsValue) {
    !IsNullish(d) && Get(d, "meals").Arr? &&
    forall j :: 0 <= j < |Get(d, "meals").items| ==> !IsNullish(Get(d, "meals").items[j])
  }

  /** One day block: its heading `d.day` and `d.meals.map(...)`. */
  function DayBlockOf(d: JsValue): (r: Outcome<DayBlock>)
    ensures r.Rendered? <==> DayRenders(d)
    ensures r.Rendered? ==>
      var meals := Get(d, "meals").items;
      r.value.day == Get(d, "day") && |r.value.meals| == |meals| &&
      forall j :: 0 <= j < |meals| ==>
        r.value.meals[j] == MealRow(Get(meals[j], "title"), Get(meals[j], "servings"))
  {
    if IsNullish(d) then Thrown
    else
      var meals := Get(d, "meals");
      if !meals.Arr? then Thrown
      else
        match MapOrThrow(meals.items, MealRowOf)
        case Thrown => Thrown
        case Rendered(rows) => Rendered(DayBlock(Get(d, "day"), rows))
  }

  /** The meal planner's plan panel for the stored `plan`, or the TypeError
      that rendering it throws. */
  function PlanView(plan: JsValue): (r: Outcome<Shown<PlanPanel>>)
    ensures !Truthy(plan) ==> r == Rendered(Hidden)
    ensures Truthy(plan) ==>
      var days := Get(plan, "days");
      (r.Rendered? <==>
         IsNullish(days) ||
         (days.Arr? && forall i :: 0 <= i < |days.items| ==> DayRenders(days.items[i])))
    ensures Truthy(plan) && r.Rendered? ==>
      var days := Get(plan, "days");
      var list := Get(plan, "shopping_list");
      r.value.Visible? &&
      (IsNullish(days) ==> r.value.content.days == None) &&
      (days.Arr? ==>
         r.value.content.days.Some? &&
         |r.value.content.days.value| == |days.items| &&
         forall i :: 0 <= i < |days.items| ==>
           r.value.content.days.value[i] == DayBlockOf(days.items[i]).value) &&
      (!Truthy(list) ==> r.value.content.shoppingList == []) &&
      (list.Arr? ==> r.value.content.shoppingList == list.items)
  {
    if !Truthy(plan) then Rendered(Hidden)
    else
      match OptionalMap(Get(plan, "days"), DayBlockOf)
      case Thrown => Thrown
      case Rendered(days) =>
        Rendered(Visible(PlanPanel(days, FlatListRows(ListData(Get(plan, "shopping_list"))))))
  }

  /** `<Text>- {r.title}</Text>` for one suggested recipe. */
  function TitleOf(recipe: JsValue): (r: Outcome<JsValue>)
    ensures r.Rendered? <==> !IsNullish(recipe)
    ensures r.Rendered? ==> r.value == Get(recipe, "title")
  {
    if IsNullish(recipe) then Thrown else Rendered(Get(recipe, "title"))
  }

  /** The scan-and-cook suggestion panel for the stored `suggestions`: the
      titles of `recipes`, nothing when `recipes` is nullish. */
  function ScanView(suggestions: JsValue): (r: Outcome<Shown<Option<seq<JsValue>>>>)
    ensures !Truthy(suggestions) ==> r == Rendered(Hidden)
    ensures Truthy(suggestions) ==>
      var recipes := Get(suggestions, "recipes");
      (IsNullish(recipes) ==> r == Rendered(Visible(None))) &&
      (r.Rendered? <==>
         IsNullish(recipes) ||
         (recipes.Arr? && forall i :: 0 <= i < |recipes.items| ==> !IsNullish(recipes.items[i]))) &&
      (recipes.Arr? && r.Rendered? ==>
         r.value.Visible? && r.value.content.Some? &&
         |r.value.content.value| == |recipes.items| &&
         forall i :: 0 <= i < |recipes.items| ==>
           r.value.content.value[i] == Get(recipes.items[i], "title"))
  {
    if !Truthy(suggestions) then Rendered(Hidden)
    else
      match OptionalMap(Get(suggestions, "recipes"), TitleOf)
      case Thrown => Thrown
      case Rendered(titles) => Rendered(Visible(titles))
  }

  /** A result whose fields are all falsy (an estimate of 0, empty steps,
      a null shopping list) shows empty lists and the dash. */
  lemma FalsyExtractFieldsFallBack()
    ensures ExtractView(Obj(map["time_estimate" := Num(0.0), "steps" := Str(""), "shopping_list" := Null]))
      == Visible(ExtractPanel([], [], NoTimeEstimate))
  {
  }

  /** A plan without `days` draws no day blocks; a plan whose `days` is
      `false` throws while rendering, although a `false` shopping list is
      shown as an empty one. */
  lemma PlanDaysNullishVersusFalsy()
    ensures PlanView(Obj(map[])) == Rendered(Visible(PlanPanel(None, [])))
    ensures PlanView(Obj(map["days" := Bool(false)])) == Thrown
    ensures PlanView(Obj(map["days" := Arr([]), "shopping_list" := Bool(false)]))
      == Rendered(Visible(PlanPanel(Some([]), [])))
  {
  }
}
