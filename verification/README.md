# Expense form and expense list of a budget tracker, in Dafny

This project models the two pieces of logic in the budget tracker's React
components.

- **The expense form** (`src/components/ExpenseForm.tsx`) keeps a draft
  expense, an error message and `previousAmount`, the draft's amount when an
  edit began. Four handlers change that state. The edit-loading effect copies
  the committed expense with the store's `editingId` into the draft. The
  generic change handler writes one named key. The date handler writes the
  date. Submit runs two short-circuiting checks, then emits one
  `add-expense` or `update-expense` intent and resets the draft. The
  component is the class `Form.ExpenseForm`. Its methods are specified by
  pure functions (`WithField`, `SubmitOutcome`, `EmptyDraft`), and the
  lemmas are stated about those functions. The store's `dispatch` call
  becomes the `Option<Intent>` that `Submit` returns.
- **The expense list** (`src/components/ExpenseList.tsx`) is a pure
  projection. A truthy `currentCategory` keeps the store's expenses of that
  category, in order. A falsy one keeps the collection as it is. The list
  then renders either the "no expenses" message or one `ExpenseDetails` row
  per displayed expense, keyed by its id. Module `ExpenseList` states it as
  functions over the store's sequence. Being functions, they cannot modify
  `state.expenses`.
- `Seqs.Filter` is JavaScript's `Array.prototype.filter`. Both components
  use it. The lemmas beside it say what `filter` keeps: exactly the matching
  elements, each as often as in the input, in their original order.

Modelling choices:

- `editingId` and `currentCategory` are `Option<string>`. The source tests
  them for JavaScript truthiness. `Common.Truthy` therefore treats both the
  unset value and `""` as false.
- The draft carries an optional `id`. The edit-loading effect puts the
  committed expense itself into the draft, id included. That id has two
  effects in the source, and both are modelled. First, `Object.values` sees
  it in the completeness test. Second, in `{ id: state.editingId, ...expense }`
  the spread comes last, so the draft's own id wins over `editingId`
  (`Form.UpdatePayload`).
- Amounts are `int`. `Number(value)` is an argument of `HandleChange`
  (`number`), not a parser. The date is the abstract type `Common.Date`.
  `new Date()` is the `today` argument of the constructor and of `Submit`.
- The store's `remainingBudget` and `expenses` are arguments.

Two consequences of the code are worth stating:

- The completeness test compares each value with `""` only
  (ExpenseForm.tsx line 54). A date, even a `null` one, never fails it, and
  neither does the numeric amount (`Form.Incomplete`).
- A loaded draft carries its expense's id. `Object.values` sees that id, so
  an empty id fails the completeness test. The id also overrides
  `editingId` in the update payload.

## Model

| member | source | states |
|---|---|---|
| `Common.Truthy` | src/components/ExpenseForm.tsx:22 | JavaScript truthiness of the store's optional string: unset and `""` are falsy, every non-empty string is truthy |
| `Seqs.Filter` | src/components/ExpenseList.tsx:9-11 | `filter` returns no more elements than its input, and every element it returns is in the input and satisfies the predicate |
| `Seqs.FilterKeepsMatches` | src/components/ExpenseList.tsx:9-11 | every input element that satisfies the predicate is returned by `filter` |
| `Seqs.FilterMembership` | src/components/ExpenseList.tsx:9-11 | a value is in the result of `filter` if and only if it is in the input and satisfies the predicate |
| `Seqs.FilterMultiplicity` | src/components/ExpenseList.tsx:9-11 | a matching value occurs in the result exactly as often as in the input; a non-matching value never occurs |
| `Seqs.FilterIsSubsequence` | src/components/ExpenseList.tsx:9-11 | the result of `filter` is a subsequence of the input, so relative order is preserved |
| `Seqs.FilterAll` | src/components/ExpenseList.tsx:9-11 | when every element matches, `filter` returns its input unchanged |
| `Seqs.FilterHeadIsFirst` | src/components/ExpenseForm.tsx:23-25 | element `[0]` of a filtered list is the first input element that satisfies the predicate |
| `Seqs.FirstSatisfying` | src/components/ExpenseForm.tsx:23-25 | if any element matches, a first match exists, `[0]` of the filtered list is defined, and it is that first match |
| `Form.Values` | src/components/ExpenseForm.tsx:54 | `Object.values` of the draft: four values, or five with a loaded id; it holds the amount, name, category, date and any id; every string value is the name, the category or the id |
| `Form.Incomplete` | src/components/ExpenseForm.tsx:54 | the test "some value of the draft is `\"\"`" fails exactly when the name, the category or a loaded id is empty; the numeric amount and the date never fail it |
| `Form.FromExpense` | src/components/ExpenseForm.tsx:27 | the loaded draft is the committed expense with its id; it passes the completeness test exactly when its id, name and category are non-empty |
| `Form.EmptyDraft` | src/components/ExpenseForm.tsx:82-87 | the reset draft (amount 0, empty name and category, today's date, no id) always fails the completeness test |
| `Form.WithField` | src/components/ExpenseForm.tsx:35-41 | a change replaces only the named key: the amount with the number parsed from the value, the other fields with the text as given; id and date are kept |
| `Form.AmountChangeKeepsCompleteness` | src/components/ExpenseForm.tsx:36-41 | a change to the amount, which is stored as a number, never changes whether the completeness test fails |
| `Form.TextChangeCompleteness` | src/components/ExpenseForm.tsx:38-41 | after a name or category change, the completeness test fails exactly when the new text is empty or another string key is empty |
| `Form.UpdatePayload` | src/components/ExpenseForm.tsx:75 | the update payload is the draft with an id attached; for a fresh draft, or one loaded for the editing id, that id is `editingId`; a draft that already carries an id keeps its own, because the spread comes last |
| `Form.SubmitOutcome` | src/components/ExpenseForm.tsx:51-79 | submit rejects exactly when the draft is incomplete or `amount - previousAmount > remainingBudget`; an incomplete draft always gets the required-fields message, whatever its amount; a complete draft over budget gets the budget message; otherwise it dispatches `AddExpense` of the draft as is (the form assigns no id) when `editingId` is falsy, and `UpdateExpense` of the update payload when it is truthy |
| `Form.DispatchedIsComplete` | src/components/ExpenseForm.tsx:54-69 | a draft that gets dispatched has a non-empty name, category and id, and its amount exceeds `previousAmount` by at most the remaining budget |
| `Form.UpdateKeepsLoadedId` | src/components/ExpenseForm.tsx:72-76 | an update dispatched for a draft loaded from an expense carries that expense's id |
| `Form.UnchangedEditRoundTrip` | src/components/ExpenseForm.tsx:21-76 | loading a complete expense for editing and submitting it unchanged, with a non-negative remaining budget, dispatches an update carrying exactly that expense |
| `Form.ResubmitAfterResetRejected` | src/components/ExpenseForm.tsx:54-87 | a submit straight after a successful one is rejected with the required-fields message, whatever the editing id and budget |
| `Form.ExpenseForm.constructor` | src/components/ExpenseForm.tsx:11-18 | the form starts with the empty draft dated today, no error and a previous amount of 0 |
| `Form.ExpenseForm.LoadForEdit` | src/components/ExpenseForm.tsx:21-30 | with a truthy `editingId`, the draft becomes the first committed expense with that id and `previousAmount` becomes its amount; with a falsy one nothing changes; the error is never touched |
| `Form.ExpenseForm.HandleChange` | src/components/ExpenseForm.tsx:32-42 | the draft becomes `WithField` of the old draft; the error and `previousAmount` are unchanged |
| `Form.ExpenseForm.HandleChangeDate` | src/components/ExpenseForm.tsx:44-49 | only the draft's date is replaced; everything else is unchanged |
| `Form.ExpenseForm.Submit` | src/components/ExpenseForm.tsx:51-90 | on rejection nothing is dispatched, the error becomes the rejection message, and the draft and `previousAmount` are unchanged; on success exactly the intent of `SubmitOutcome` is returned, the draft becomes the empty draft, `previousAmount` becomes 0 and the error is untouched |
| `ExpenseList.Shown` | src/components/ExpenseList.tsx:8-10 | with an unset or `""` category every expense passes; with a non-empty category an expense passes exactly when its category equals it |
| `ExpenseList.FilteredExpenses` | src/components/ExpenseList.tsx:8-12 | every displayed expense is a stored one that passes the filter (its category equals a truthy `currentCategory`); with a falsy category the displayed sequence is the stored one |
| `ExpenseList.DisplayedExactly` | src/components/ExpenseList.tsx:8-12 | an expense is displayed if and only if it is stored and passes the category filter |
| `ExpenseList.DisplayedMultiplicity` | src/components/ExpenseList.tsx:9-11 | each expense that passes the filter is displayed as many times as it is stored |
| `ExpenseList.DisplayedInOrder` | src/components/ExpenseList.tsx:8-12 | the displayed sequence is a subsequence of the stored one |
| `ExpenseList.AllOfCategoryShowsAll` | src/components/ExpenseList.tsx:8-12 | when every stored expense passes the filter, the whole collection is displayed unchanged |
| `ExpenseList.IsEmpty` | src/components/ExpenseList.tsx:14-15 | `isEmpty` holds exactly when no expense is displayed |
| `ExpenseList.EmptyIffNothingShown` | src/components/ExpenseList.tsx:14-15 | `isEmpty` holds exactly when no stored expense passes the filter |
| `ExpenseList.DetailRows` | src/components/ExpenseList.tsx:31-33 | one row per displayed expense, in displayed order, each keyed by the expense's id |
| `ExpenseList.Render` | src/components/ExpenseList.tsx:19-37 | the "no expenses" message is rendered exactly when no stored expense passes the filter; otherwise the rows match the displayed expenses one to one, in order, keyed by id, and there is at least one |
| `ExpenseList.FilterKeepsDistinctIds` | src/components/ExpenseList.tsx:9-11 | filtering a collection with distinct ids yields a collection with distinct ids |
| `ExpenseList.RowKeysDistinct` | src/components/ExpenseList.tsx:31-33 | when stored ids are distinct, no two rendered rows share a React key |

## Left out

- The JSX markup, styling classes, labels, titles, button texts, the category options and the `categories` data are rendering only.
- The `react-date-picker` widget and its `Value` type are a foreign library. The date is an abstract value; a `null` or range value from the widget is just another date here.
- The `useBudget` hook, the store's reducer, its assignment of ids and its computation of `remainingBudget` are not part of this model. Their values are arguments.
- The `ErrorMessage` and `ExpenseDetails` components are not part of this model.
- The five-second `setTimeout` that clears the error is timer behaviour. The model records that the error is set, not that it is later cleared.
- `Form.ExpenseForm.HandleChange`: `Number(value)` parsing is an integer argument. JavaScript floating point, `NaN` and non-integer amounts are not modelled.
- `Form.ExpenseForm.HandleChange`: the handler writes whatever key the input's `name` gives. Only the three inputs `expenseName`, `amount` and `category` are bound to it, so the model's `Field` has those three.
- `Form.ExpenseForm.LoadForEdit` requires an expense with the editing id to exist. Without one, the source reads `.amount` of `undefined` and throws.
- React hook scheduling is not modelled. React runs the effect once on mount and again whenever `editingId` changes; here the host calls `Form.ExpenseForm.LoadForEdit` once after the constructor and again on each change. `isEmpty` is computed from the current projection. In the source its `useMemo` depends only on `state.expenses` (ExpenseList.tsx line 16), so it can be stale after a category change.
- The browser's handling of the placeholder `<option>` without a `value` attribute is not modelled. The model sees only the string the handler receives.
