# AI Cooking Companion: client state and response display

A Dafny model of the deterministic logic in the React Native app
`ai-cooking-companion/App.jsx`. The rest of that file is screens, navigation,
Supabase auth and `fetch` calls to AI endpoints. The model has three parts.

- **Voice-guided cooking** (`VoiceCook`, in `voice_cook.dfy`). A class
  `CookSession` holds the fixed list of `steps` and the `index` of the step on
  display. "Next" moves the index to `min(index + 1, |steps| - 1)`. "Previous"
  moves it to `max(index - 1, 0)`. Lemmas about `Run`, the index after any
  sequence of presses, show that the index always names a step. They also give
  the exact result of `k` presses of either button.
- **Kitchen profile** (`KitchenProfile`, in `kitchen_profile.dfy`). The
  `profile` value holds the appliances and utensils, and the screen also holds
  the text box content `newItem`. "Add" does nothing when the box is empty.
  Otherwise it appends the box's text to the appliances, with no
  de-duplication, and clears the box.
- **Response display** (`Js` in `js.dfy`, `ResultDisplay` in
  `result_display.dfy`). Endpoint responses are stored without validation, so
  they are modelled as arbitrary JSON values (`JsValue`). The model gives JS
  truthiness, `||`, property reads and `?.map` with their JavaScript meaning.
  It derives what the extractor, meal-planner and scan screens draw:
  - a falsy `shopping_list` or `steps` is shown as an empty list;
  - steps are numbered from 1;
  - a falsy `time_estimate` is shown as `—`;
  - a nullish `days` or `recipes` draws nothing;
  - the exact inputs for which rendering throws a TypeError.

`App.jsx` has no response validation or normalisation, no request retries or
timeouts, no request cancellation, no shopping-list consolidation, no meal-plan
scoring and no `jumpTo` on the cook session. The endpoints return their results
and the screens show them as they are. The model therefore has none of these
either. The kitchen profile's appliances are an ordered list that keeps
duplicates, because that is what the code builds.

## Model

| member | source | states |
|---|---|---|
| `Js.Truthy` | ai-cooking-companion/App.jsx:191-199 | JavaScript truthiness: `false`, `0`, `""`, `null` and `undefined` are falsy. A truthy value is never nullish, and every array or object is truthy, even an empty one. |
| `Js.Get` | ai-cooking-companion/App.jsx:194-199 | Reading `v.key` on a value that is not null or undefined gives the object's field when it has that key. An absent key, or any other non-nullish value, reads as `undefined`. A nullish value cannot be read: its callers model that read as a thrown TypeError. |
| `Js.Or` | ai-cooking-companion/App.jsx:194-199 | `a \|\| b` is `a` when `a` is truthy and `b` otherwise. The result is truthy iff either operand is. |
| `Js.MapOrThrow` | ai-cooking-companion/App.jsx:345 | `.map` with a callback that may throw succeeds iff the callback succeeds on every element. It then yields one result per element, in order. |
| `Js.OptionalMap` | ai-cooking-companion/App.jsx:342 | `v?.map(f)` draws nothing for null/undefined and throws for any other non-array. For an array it succeeds iff `f` succeeds on every element, and then yields the mapped elements in order. |
| `Js.NullishIsNarrowerThanFalsy` | ai-cooking-companion/App.jsx:342-350 | The falsy values that are not nullish are exactly `false`, `0` and `""`. For them `\|\|` takes its default, but `?.map` throws. |
| `ResultDisplay.ListData` | ai-cooking-companion/App.jsx:194 | `field \|\| []` is the empty array for an absent or falsy field and the field itself otherwise. |
| `ResultDisplay.FlatListRows` | ai-cooking-companion/App.jsx:194 | A list draws one row per element of an array, in order, and no rows for any other value. |
| `ResultDisplay.NumberedRows` | ai-cooking-companion/App.jsx:197 | There is one step row per item. Row `i` shows item `i` with the label `i + 1`. |
| `ResultDisplay.TimeText` | ai-cooking-companion/App.jsx:199 | The value shown is never falsy. It is the estimate when that is truthy and `—` when it is absent, null, `0` or `""`. |
| `ResultDisplay.ExtractView` | ai-cooking-companion/App.jsx:191-201 | The panel appears iff `result` is truthy. A falsy shopping list or steps field shows as empty, and an array shows its items. Steps are numbered from 1. The time defaults to `—`. |
| `ResultDisplay.MealRowOf` | ai-cooking-companion/App.jsx:345 | A meal line shows `title` and `servings`. It throws iff the meal is null or undefined. |
| `ResultDisplay.DayBlockOf` | ai-cooking-companion/App.jsx:343-346 | A day block renders iff the day is not nullish, its `meals` is an array and no meal is nullish. It then shows `day` and one line per meal, in order. |
| `ResultDisplay.PlanView` | ai-cooking-companion/App.jsx:339-351 | A falsy plan draws nothing. Otherwise rendering succeeds iff `days` is nullish or an array of days that each render. A nullish `days` draws no day blocks. An array of days draws each day's block as `DayBlockOf` gives it: its heading and every meal's title and servings, in order. The shopping list defaults to empty. |
| `ResultDisplay.TitleOf` | ai-cooking-companion/App.jsx:385 | A suggestion line shows the recipe's `title`. It throws iff the recipe is nullish. |
| `ResultDisplay.ScanView` | ai-cooking-companion/App.jsx:382-387 | A falsy `suggestions` draws nothing, and a nullish `recipes` draws no lines. Otherwise rendering succeeds iff `recipes` is an array with no nullish entry, and it then shows their titles in order. |
| `ResultDisplay.FalsyExtractFieldsFallBack` | ai-cooking-companion/App.jsx:194-199 | A result with `time_estimate: 0`, `steps: ""` and `shopping_list: null` shows two empty lists and `—`. |
| `ResultDisplay.PlanDaysNullishVersusFalsy` | ai-cooking-companion/App.jsx:342-350 | A plan without `days` shows no day blocks. `days: false` throws, while `shopping_list: false` shows as an empty list. |
| `VoiceCook.NextIndex` | ai-cooking-companion/App.jsx:397 | "Next" advances by one before the last step and stays on the last step there. |
| `VoiceCook.PrevIndex` | ai-cooking-companion/App.jsx:398 | "Previous" goes back by one after the first step and stays at 0 there. |
| `VoiceCook.Run` | ai-cooking-companion/App.jsx:397-398 | No presses leave the index alone. A single press gives exactly the "Next" or "Previous" handler's index. |
| `VoiceCook.RunStaysInRange` | ai-cooking-companion/App.jsx:394-398 | From a valid index, any sequence of presses ends on a valid index `0 <= index < n`. |
| `VoiceCook.NextPressesClampAtLast` | ai-cooking-companion/App.jsx:397 | `k` presses of "Next" from `i` end at `min(i + k, n - 1)`. |
| `VoiceCook.PreviousPressesClampAtFirst` | ai-cooking-companion/App.jsx:398 | `k` presses of "Previous" from `i` end at `max(i - k, 0)`. |
| `VoiceCook.NextAndPreviousUndoEachOther` | ai-cooking-companion/App.jsx:397-398 | "Previous" undoes "Next" except on the last step. "Next" undoes "Previous" except on the first. |
| `VoiceCook.DefaultStepsScenario` | ai-cooking-companion/App.jsx:394-398 | With the three default steps, "Previous" at 0 stays at 0, and three presses of "Next" end at 2. |
| `VoiceCook.CookSession.constructor` | ai-cooking-companion/App.jsx:394-395 | The screen starts on step 0 of the three default steps. |
| `VoiceCook.CookSession.WithSteps` | ai-cooking-companion/App.jsx:394-397 | A session over any non-empty list starts on step 0 with a valid index. |
| `VoiceCook.CookSession.NextStep` | ai-cooking-companion/App.jsx:397 | The index becomes `min(index + 1, \|steps\| - 1)`, and the steps do not change. |
| `VoiceCook.CookSession.PrevStep` | ai-cooking-companion/App.jsx:398 | The index becomes `max(index - 1, 0)`, and the steps do not change. |
| `VoiceCook.CookSession.Current` | ai-cooking-companion/App.jsx:403 | The line on display is labelled `index + 1`, which lies between 1 and `\|steps\|`, and shows the step at `index`. |
| `KitchenProfile.WithAppliance` | ai-cooking-companion/App.jsx:213 | Adding grows the appliances by exactly one. Earlier entries keep their order, the new item is last, and the utensils do not change. |
| `KitchenProfile.AddingCountsOnceMore` | ai-cooking-companion/App.jsx:213 | There is no de-duplication. The added item's count among the appliances rises by one, and every other count stays the same. |
| `KitchenProfile.AddsAppendInOrder` | ai-cooking-companion/App.jsx:211-215 | Successive adds of `items` give `appliances + items`, and the utensils do not change. |
| `KitchenProfile.KitchenProfileScreen.constructor` | ai-cooking-companion/App.jsx:208-209 | The screen starts with appliances `pan, oven`, utensils `knife, cutting board` and an empty text box. |
| `KitchenProfile.KitchenProfileScreen.EditNewItem` | ai-cooking-companion/App.jsx:226 | Typing replaces the text box content and leaves the profile alone. |
| `KitchenProfile.KitchenProfileScreen.AddItem` | ai-cooking-companion/App.jsx:211-215 | With an empty box, nothing changes. Otherwise the box's text is appended to the appliances, the utensils are kept and the box is cleared. |

## Left out

- The `fetch` calls to `/extract`, `/caption`, `/mealplan` and `/scan` are network I/O. Their parsed bodies are stored without checks, so the display functions take any JSON value as input.
- Supabase client creation and sign-in/sign-up are calls into a foreign library.
- Navigation, JSX layout and styling are UI. So are the `Alert.alert` placeholders for image picking, publishing and scanning, and the input-missing guards that only raise an alert.
- The `loading` flags around the fetches only matter relative to asynchronous I/O.
- React's batching of state updates is not modelled. Two "Add" presses before a re-render read the same `newItem`. Each method here runs to completion on the latest state.
- `FlatList` is library code. The model draws one row per element of an array and no rows for any other value.
- ResultDisplay.FlatListRows: draws no rows for a non-array `data`. FlatList treats any array-like `data` as a list, so a string `shopping_list` such as `"eggs, milk"` is drawn one character per row, while the model draws nothing.
- The outer `value && (...)` guards are modelled as "shown iff truthy". React drawing a bare falsy value that is not nullish (a response of `0`) is not modelled.
- How a row's value turns into text is not modelled. Rows carry the JSON value itself. React draws `true`, `false` and empty arrays as nothing, so a `time_estimate` of `true` leaves the time line empty. An object placed inside `<Text>` makes React throw while rendering.
- ResultDisplay.MealRowOf: "throws iff" covers only the JavaScript evaluation of `m.title` and `m.servings`. A `title` or `servings` that is an object, such as `{}`, also makes React throw.
- ResultDisplay.DayBlockOf: "renders iff" covers only the JavaScript evaluation of `d.day` and `d.meals.map(...)`. A `day` that is an object also makes React throw.
- ResultDisplay.PlanView: "renders iff" covers only the JavaScript evaluation. For `{"days":[{"day":{},"meals":[]}]}` it returns a rendered panel, but React throws on the object heading.
- ResultDisplay.TitleOf: "throws iff" covers only the JavaScript evaluation of `r.title`. A `title` that is an object also makes React throw.
- ResultDisplay.ScanView: "renders iff" covers only the JavaScript evaluation. A recipe whose `title` is an object also makes React throw.
- Property reads see only a parsed object's own keys. No JSON value inherits the keys the screens read.
- An empty step list is excluded by `VoiceCook.CookSession.WithSteps`. With no steps, "Next" would set the index to -1. The screen's list is the three default steps and is never replaced.
- The caption screen's `setCaption(data.caption)` stores a value and derives nothing from it, so it is not modelled.
