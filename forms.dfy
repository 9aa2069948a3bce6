/**
 * What a "Save" button of an entity form does: nothing when a required
 * field is empty, otherwise hand a new draft to the add callback or the
 * edited entity, under its original id, to the update callback.
 */
module Forms {

  datatype SaveOutcome<D, E> =
    | Rejected      // a required field was empty: no callback, the form stays open
    | Create(draft: D)
    | Replace(entity: E)

  /** JavaScript truthiness of a form field: any non-empty string. */
  predicate Filled(s: string) {
    s != ""
  }
}
