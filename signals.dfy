/** The e-mail decision of the order signals (backend/services/signals.py): before
    an order is saved the stored state and final price are remembered, and after
    the save at most one customer e-mail is chosen from the old and new values. */
module Signals {
  import opened Wrappers

  /** Which customer e-mail a save sends. */
  datatype EmailKind = NoEmail | FinalPriceEmail | CompletionEmail

  /** The columns of the stored order row that the pre-save handler reads. */
  datatype StoredOrder = StoredOrder(state: string, finalPrice: Option<real>)

  /** The remembered values `_old_state` and `_old_final_price`. */
  datatype Remembered = Remembered(oldState: Option<string>, oldFinalPrice: Option<real>)

  /** `track_order_changes`: an instance with a primary key remembers its stored row;
      a new instance, or one whose row is no longer stored, remembers nothing. */
  function TrackOrderChanges(hasPk: bool, stored: Option<StoredOrder>): (m: Remembered)
    ensures m.oldState.Some? <==> hasPk && stored.Some?
    ensures hasPk && stored.Some? ==>
      m.oldState == Some(stored.value.state) && m.oldFinalPrice == stored.value.finalPrice
    ensures !(hasPk && stored.Some?) ==> m.oldFinalPrice == None
  {
    if hasPk then
      match stored
      case Some(row) => Remembered(Some(row.state), row.finalPrice)
      case None => Remembered(None, None)
    else Remembered(None, None)
  }

  /** `handle_order_update`: nothing for a created order; otherwise the final-price
      e-mail when a final price appears, else the completion e-mail when the order
      enters 'completed'. */
  function HandleOrderUpdate(created: bool, seen: Remembered, state: string, finalPrice: Option<real>): EmailKind {
    if created then NoEmail
    else if Truthy(finalPrice) && !Truthy(seen.oldFinalPrice) then FinalPriceEmail
    else if state == "completed" && seen.oldState != Some("completed") then CompletionEmail
    else NoEmail
  }

  /** A created order never triggers an e-mail. */
  lemma CreatedOrderSendsNothing(seen: Remembered, state: string, finalPrice: Option<real>)
    ensures HandleOrderUpdate(true, seen, state, finalPrice) == NoEmail
  {
  }

  /** The final-price e-mail goes out exactly when an update sets a non-zero final
      price on an order whose old final price was unset or zero. */
  lemma FinalPriceEmailIff(created: bool, seen: Remembered, state: string, finalPrice: Option<real>)
    ensures HandleOrderUpdate(created, seen, state, finalPrice) == FinalPriceEmail
        <==> !created && Truthy(finalPrice) && !Truthy(seen.oldFinalPrice)
  {
  }

  /** The completion e-mail goes out exactly when an update moves the order into
      'completed' from another (or unknown) state and no final-price e-mail is due. */
  lemma CompletionEmailIff(created: bool, seen: Remembered, state: string, finalPrice: Option<real>)
    ensures HandleOrderUpdate(created, seen, state, finalPrice) == CompletionEmail
        <==> !created && !(Truthy(finalPrice) && !Truthy(seen.oldFinalPrice))
             && state == "completed" && seen.oldState != Some("completed")
  {
  }

  /** Any new state other than 'completed' sends nothing unless a final price appears. */
  lemma OtherStatesSendNothing(created: bool, seen: Remembered, state: string, finalPrice: Option<real>)
    requires state != "completed"
    requires !Truthy(finalPrice) || Truthy(seen.oldFinalPrice)
    ensures HandleOrderUpdate(created, seen, state, finalPrice) == NoEmail
  {
  }

  /** Saving a stored order again without changing it sends nothing: neither e-mail
      repeats. */
  lemma UnchangedSaveSendsNothing(hasPk: bool, row: StoredOrder)
    requires hasPk
    ensures HandleOrderUpdate(false, TrackOrderChanges(hasPk, Some(row)), row.state, row.finalPrice) == NoEmail
  {
  }

  /** A stored final price of 0 counts as no final price: setting a real price later
      still sends the final-price e-mail. */
  lemma ZeroFinalPriceCountsAsUnset(state: string, p: real, newState: string)
    requires p != 0.0
    ensures HandleOrderUpdate(false, TrackOrderChanges(true, Some(StoredOrder(state, Some(0.0)))), newState, Some(p))
         == FinalPriceEmail
  {
  }
}
