/** The expense form (src/components/ExpenseForm.tsx): a draft expense, an
    error message and the amount the draft had when an edit began, changed by
    the edit-loading effect, the two change handlers and submit. The store's
    `dispatch` becomes the intent that `Submit` returns. */
module Form {
  import opened Common
  import opened Seqs

  const RequiredFieldsMessage := "Todos los campos son obligatorios"
  const OverBudgetMessage := "No puedes exceder tu presupuesto"

  /** The intents the form hands to the store. */
  datatype Intent = AddExpense(draft: Draft) | UpdateExpense(expense: Expense)

  /** What one submit decides: an error message, or one intent to dispatch. */
  datatype Outcome = Rejected(message: string) | Dispatched(intent: Intent)

  /** The inputs bound to the generic change handler, by their `name` attribute. */
  datatype Field = ExpenseName | Amount | Category

  /** A JavaScript value as `Object.values` sees it. */
  datatype JsValue = Str(s: string) | Num(n: int) | DateValue(d: Date)

  /** `Object.values(expense)`; the `id` key exists only on a loaded draft.
      Key order is immaterial: the values are only searched. */
  function Values(d: Draft): (vs: seq<JsValue>)
    ensures |vs| == if d.id.Some? then 5 else 4
    ensures Num(d.amount) in vs && Str(d.expenseName) in vs && Str(d.category) in vs && DateValue(d.date) in vs
    ensures d.id.Some? ==> Str(d.id.value) in vs
    ensures forall v :: v in vs && v.Str? ==> v.s == d.expenseName || v.s == d.category || d.id == Some(v.s)
  {
    (if d.id.Some? then [Str(d.id.value)] else [])
    + [Num(d.amount), Str(d.expenseName), Str(d.category), DateValue(d.date)]
  }

  /** The completeness test: some value of the draft is strictly `""`. */
  predicate Incomplete(d: Draft): (b: bool)
    ensures b <==> d.expenseName == "" || d.category == "" || d.id == Some("")
  {
    Str("") in Values(d)
  }

  /** The draft that loading an expense for editing produces: the committed
      record itself, id included. It passes the completeness test exactly
      when its id, name and category are all non-empty. */
  function FromExpense(e: Expense): (d: Draft)
    ensures d.id == Some(e.id)
    ensures !Incomplete(d) <==> e.id != "" && e.expenseName != "" && e.category != ""
  {
    Draft(Some(e.id), e.amount, e.expenseName, e.category, e.date)
  }

  /** The initial and the reset draft; `today` is the clock's `new Date()`. */
  function EmptyDraft(today: Date): (d: Draft)
    ensures Incomplete(d)
  {
    Draft(None, 0, "", "", today)
  }

  /** The record `{ ...expense, [name]: isAmountField ? Number(value) : value }`;
      `number` stands for `Number(value)`. Only the named key changes. */
  function WithField(d: Draft, name: Field, value: string, number: int): (r: Draft)
    ensures r.id == d.id && r.date == d.date
    ensures r.amount == (if name == Amount then number else d.amount)
    ensures r.expenseName == (if name == ExpenseName then value else d.expenseName)
    ensures r.category == (if name == Category then value else d.category)
  {
    match name
    case Amount => d.(amount := number)
    case ExpenseName => d.(expenseName := value)
    case Category => d.(category := value)
  }

  /** Changing the amount never changes the outcome of the completeness
      test, even when the input is cleared. */
  lemma AmountChangeKeepsCompleteness(d: Draft, value: string, number: int)
    ensures Incomplete(WithField(d, Amount, value, number)) <==> Incomplete(d)
  {
  }

  /** After a change to the name or category, the completeness test fails
      exactly when the new text is empty or another key is empty. */
  lemma TextChangeCompleteness(d: Draft, name: Field, value: string, number: int)
    requires name != Amount
    ensures Incomplete(WithField(d, name, value, number)) <==>
      value == "" || d.id == Some("") ||
      (if name == ExpenseName then d.category == "" else d.expenseName == "")
  {
  }

  /** `{ id: state.editingId, ...expense }`: the draft with an id attached.
      The spread comes last, so a draft that already carries an id keeps its
      own; a fresh draft, or one loaded for the editing id, gets `editingId`. */
  function UpdatePayload(editingId: string, d: Draft): (e: Expense)
    ensures FromExpense(e) == d.(id := Some(e.id))
    ensures d.id.None? || d.id == Some(editingId) ==> e.id == editingId
    ensures d.id.Some? ==> e.id == d.id.value
  {
    Expense(if d.id.Some? then d.id.value else editingId, d.amount, d.expenseName, d.category, d.date)
  }

  /** What `handleSubmit` decides for a draft, the amount recorded when the
      edit began, the store's editing id and its remaining budget: the
      completeness test first, then the budget test, then add or update. */
  function SubmitOutcome(d: Draft, previousAmount: int, editingId: Option<string>, remainingBudget: int): (r: Outcome)
    ensures r.Rejected? <==> Incomplete(d) || d.amount - previousAmount > remainingBudget
    ensures Incomplete(d) ==> r == Rejected(RequiredFieldsMessage)
    ensures !Incomplete(d) && d.amount - previousAmount > remainingBudget ==> r == Rejected(OverBudgetMessage)
    ensures r.Dispatched? && !Truthy(editingId) ==> r.intent == AddExpense(d)
    ensures r.Dispatched? && Truthy(editingId) ==>
      r.intent.UpdateExpense? && r.intent.expense == UpdatePayload(editingId.value, d)
  {
    if Incomplete(d) then Rejected(RequiredFieldsMessage)
    else if d.amount - previousAmount > remainingBudget then Rejected(OverBudgetMessage)
    else if Truthy(editingId) then Dispatched(UpdateExpense(UpdatePayload(editingId.value, d)))
    else Dispatched(AddExpense(d))
  }

  /** Whatever is dispatched has a non-empty name and category, and keeps
      the spending change within the remaining budget. */
  lemma DispatchedIsComplete(d: Draft, previousAmount: int, editingId: Option<string>, remainingBudget: int)
    requires SubmitOutcome(d, previousAmount, editingId, remainingBudget).Dispatched?
    ensures d.expenseName != "" && d.category != "" && d.id != Some("")
    ensures d.amount - previousAmount <= remainingBudget
  {
  }

  /** An update dispatched for a draft loaded from the expense with the
      editing id carries that id: the form never re-keys an expense. */
  lemma UpdateKeepsLoadedId(e: Expense, d: Draft, previousAmount: int, editingId: Option<string>, remainingBudget: int)
    requires d.id == Some(e.id)
    requires Truthy(editingId)
    requires SubmitOutcome(d, previousAmount, editingId, remainingBudget).Dispatched?
    ensures SubmitOutcome(d, previousAmount, editingId, remainingBudget).intent.expense.id == e.id
  {
  }

  /** Submitting a freshly loaded expense unchanged, with a non-negative
      remaining budget, dispatches an update carrying exactly that expense. */
  lemma UnchangedEditRoundTrip(e: Expense, editingId: Option<string>, remainingBudget: int)
    requires editingId == Some(e.id) && e.id != ""
    requires e.expenseName != "" && e.category != ""
    requires remainingBudget >= 0
    ensures SubmitOutcome(FromExpense(e), e.amount, editingId, remainingBudget) == Dispatched(UpdateExpense(e))
  {
  }

  /** A second submit right after a successful one always fails the
      completeness test: the reset draft has an empty name. */
  lemma ResubmitAfterResetRejected(today: Date, editingId: Option<string>, remainingBudget: int)
    ensures SubmitOutcome(EmptyDraft(today), 0, editingId, remainingBudget) == Rejected(RequiredFieldsMessage)
  {
  }

  /** The first index of `expenses` whose id is `id`. */
  predicate IsFirstWithId(expenses: seq<Expense>, k: int, id: string)
  {
    0 <= k < |expenses| && expenses[k].id == id && forall j :: 0 <= j < k ==> expenses[j].id != id
  }

  /** The `ExpenseForm` component's local state and its handlers. */
  class ExpenseForm {
    var draft: Draft
    var error: string
    var previousAmount: int

    /** Mounting: an empty draft dated today, no error, no previous amount. */
    constructor (today: Date)
      ensures draft == EmptyDraft(today) && error == "" && previousAmount == 0
    {
      draft := EmptyDraft(today);
      error := "";
      previousAmount := 0;
    }

    /** The effect run when the store's editing id changes: with a truthy id
        the draft becomes the first committed expense with that id and the
        previous amount becomes its amount. The source indexes `[0]` of the
        filtered list without a check, so such an expense must exist. */
    method LoadForEdit(editingId: Option<string>, expenses: seq<Expense>)
      requires Truthy(editingId) ==> exists i :: 0 <= i < |expenses| && expenses[i].id == editingId.value
      modifies this
      ensures error == old(error)
      ensures !Truthy(editingId) ==> draft == old(draft) && previousAmount == old(previousAmount)
      ensures Truthy(editingId) ==>
        (exists k :: IsFirstWithId(expenses, k, editingId.value) &&
           draft == FromExpense(expenses[k]) && previousAmount == expenses[k].amount)
    {
      if Truthy(editingId) {
        var id := editingId.value;
        var matches := Filter((e: Expense) => e.id == id, expenses);
        ghost var i :| 0 <= i < |expenses| && expenses[i].id == id;
        ghost var k := FirstSatisfying((e: Expense) => e.id == id, expenses, i);
        var editingExpense := matches[0];
        draft := FromExpense(editingExpense);
        previousAmount := editingExpense.amount;
        assert IsFirstWithId(expenses, k, id);
      }
    }

    /** `handleChange`: replaces the named key of the draft. */
    method HandleChange(name: Field, value: string, number: int)
      modifies this
      ensures draft == WithField(old(draft), name, value, number)
      ensures error == old(error) && previousAmount == old(previousAmount)
    {
      draft := WithField(draft, name, value, number);
    }

    /** `handleChangeDate`: replaces the date and nothing else. */
    method HandleChangeDate(value: Date)
      modifies this
      ensures draft == old(draft).(date := value)
      ensures error == old(error) && previousAmount == old(previousAmount)
    {
      draft := draft.(date := value);
    }

    /** `handleSubmit`: on a failed check sets the error and changes nothing
        else; on success returns the one intent to dispatch, resets the draft
        (dated `today`) and the previous amount, and leaves the error as is. */
    method Submit(editingId: Option<string>, remainingBudget: int, today: Date) returns (dispatched: Option<Intent>)
      modifies this
      ensures match SubmitOutcome(old(draft), old(previousAmount), editingId, remainingBudget)
        case Rejected(message) =>
          dispatched == None && error == message &&
          draft == old(draft) && previousAmount == old(previousAmount)
        case Dispatched(intent) =>
          dispatched == Some(intent) && error == old(error) &&
          draft == EmptyDraft(today) && previousAmount == 0
    {
      if Incomplete(draft) {
        error := RequiredFieldsMessage;
        return None;
      }

      if draft.amount - previousAmount > remainingBudget {
        error := OverBudgetMessage;
        return None;
      }

      if Truthy(editingId) {
        dispatched := Some(UpdateExpense(UpdatePayload(editingId.value, draft)));
      } else {
        dispatched := Some(AddExpense(draft));
      }

      draft := EmptyDraft(today);
      previousAmount := 0;
    }
  }
}
