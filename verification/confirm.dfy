/**
 * The delete-confirmation modal that most screens carry: whether it is open and which
 * record waits for the user's confirmation.
 */
module Confirm {
  import opened Wrappers

  datatype Modal<K> = Modal(open: bool, pending: Option<K>)

  /** The modal as `closeConfirm` leaves it: hidden, nothing pending. */
  function Closed<K>(): Modal<K> {
    Modal(false, None)
  }

  /** `confirmarEliminar(id)`: show the modal with `id` pending. */
  function Ask<K>(id: K): Modal<K> {
    Modal(true, Some(id))
  }

  /** `doEliminarConfirmado`: the modal always ends closed, and the delete request goes out
      for exactly the record that was pending, if there was one. */
  function Confirmed<K>(m: Modal<K>): (r: (Option<K>, Modal<K>))
    ensures r.1 == Closed() && !r.1.open && r.1.pending.None?
    ensures r.0.Some? <==> m.pending.Some?
    ensures r.0.Some? ==> r.0.value == m.pending.value
  {
    (m.pending, Closed())
  }

  /** Asking and then confirming deletes the record that was asked about, and leaves the
      modal closed. */
  lemma AskThenConfirm<K>(id: K)
    ensures Confirmed(Ask(id)) == (Some(id), Closed())
  {
  }
}
