/** Values shared by the expense form and the expense list: the committed
    expense, the form's draft, and JavaScript truthiness of optional strings. */
module Common {

  datatype Option<+T> = None | Some(value: T)

  /** The date-picker's value. Its representation belongs to the widget
      library and never matters to the logic, so it is left abstract. */
  type Date(==)

  /** JavaScript truthiness of an optional string: unset and "" are falsy. */
  predicate Truthy(s: Option<string>): (b: bool)
    ensures s.None? ==> !b
    ensures s == Some("") ==> !b
    ensures forall v :: s == Some(v) && |v| > 0 ==> b
  {
    s.Some? && s.value != ""
  }

  /** A committed expense, as held in the store's `expenses` collection. */
  datatype Expense = Expense(id: string, amount: int, expenseName: string, category: string, date: Date)

  /** The form's local record. A fresh draft has no `id` key; a draft loaded
      for editing is the committed expense itself and so carries its id. */
  datatype Draft = Draft(id: Option<string>, amount: int, expenseName: string, category: string, date: Date)
}
