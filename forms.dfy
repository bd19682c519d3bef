/**
 * The form state a `react-hook-form` instance keeps for an edit dialog, and
 * the validation issues a zod schema reports.
 */
module Forms {
  /** One failed schema check: the field's key and its message. */
  datatype Issue = Issue(field: string, message: string)

  /** The values of one form; `reset` and `setValue` replace them. */
  class FormState<V> {
    var values: V

    constructor(initial: V)
      ensures values == initial
    {
      values := initial;
    }

    method Reset(v: V)
      modifies this
      ensures values == v
    {
      values := v;
    }
  }
}
