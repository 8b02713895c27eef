/** The data model shared by the backend and the dashboard. */
module Transactions {
  import opened Wrappers

  /** The store-assigned identifier `_id`: opaque, only ever compared for equality. */
  type Id = string

  /** One stored record. `kind` is the record's `type` field, a free-form
      string that is meant to be "income" or "expense"; `amount` is an integer
      number of minor currency units; `date` is a timestamp. */
  datatype Transaction = Transaction(
    id: Id,
    kind: string,
    amount: int,
    category: string,
    description: Option<string>,
    date: int)

  const IncomeKind: string := "income"
  const ExpenseKind: string := "expense"

  /** The state of the add/edit form. `amount` is `None` while the amount
      input is empty; `id` is `None` (null) unless a record is being edited. */
  datatype Form = Form(
    kind: string,
    amount: Option<int>,
    category: string,
    description: string,
    id: Option<Id>)

  /** A form's fields without its `id`: the body of an update request. */
  datatype Body = Body(kind: string, amount: Option<int>, category: string, description: string)

  /** The mutating HTTP requests the client thunks issue: `Create` posts the
      form with a date stamp; `Replace` puts a body at an id; `Remove` deletes
      an id. */
  datatype Request =
    | Create(draft: Form, date: int)
    | Replace(target: Id, body: Body)
    | Remove(target: Id)

  /** Splits the `id` off a form: `const { id, ...data } = form`. */
  function BodyOf(f: Form): Body {
    Body(f.kind, f.amount, f.category, f.description)
  }

  /** Puts an `id` back onto a body. */
  function WithId(b: Body, id: Option<Id>): Form {
    Form(b.kind, b.amount, b.category, b.description, id)
  }
}
