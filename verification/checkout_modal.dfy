/** The checkout modal's step machine: details, then processing while a
    simulated payment runs, then success; closing the modal schedules a
    return to details. Each timer firing is an explicit step. */
module CheckoutModal {

  datatype Step = Details | Processing | Success

  /** The header title. */
  function Title(step: Step): (t: string)
    ensures t == "Order Confirmed" <==> step == Success
  {
    if step == Success then "Order Confirmed" else "Secure Checkout"
  }

  class CheckoutModal {
    var isOpen: bool
    var step: Step
    var loading: bool
    /** Payment timers started and not yet fired. */
    var pendingPayments: nat
    /** Reset-to-details timers started and not yet fired. */
    var pendingResets: nat

    /** Loading only while a payment is outstanding, and the processing
        step always shows the spinner. */
    predicate Valid()
      reads this
    {
      (loading ==> pendingPayments > 0) && (step == Processing ==> loading)
    }

    /** The reset effect also runs on mount, so a modal created closed
        schedules one reset. */
    constructor (open: bool)
      ensures isOpen == open && step == Details && !loading && pendingPayments == 0
      ensures pendingResets == (if open then 0 else 1)
      ensures Valid()
    {
      isOpen := open;
      step := Details;
      loading := false;
      pendingPayments := 0;
      pendingResets := if open then 0 else 1;
    }

    /** The form is rendered only while open and on the details step. */
    method Submit()
      requires isOpen && step == Details
      modifies this
      ensures step == Processing && loading
      ensures pendingPayments == old(pendingPayments) + 1
      ensures isOpen == old(isOpen) && pendingResets == old(pendingResets)
      ensures Valid()
    {
      step := Processing;
      loading := true;
      pendingPayments := pendingPayments + 1;
    }

    /** The payment timer fires. */
    method PaymentCompletes()
      requires pendingPayments > 0
      modifies this
      ensures step == Success && !loading
      ensures pendingPayments == old(pendingPayments) - 1
      ensures isOpen == old(isOpen) && pendingResets == old(pendingResets)
      ensures Valid()
    {
      loading := false;
      step := Success;
      pendingPayments := pendingPayments - 1;
    }

    /** The `isOpen` prop changes; a change to closed schedules a reset. */
    method SetOpen(open: bool)
      modifies this
      ensures isOpen == open
      ensures pendingResets == old(pendingResets) + (if open != old(isOpen) && !open then 1 else 0)
      ensures step == old(step) && loading == old(loading) && pendingPayments == old(pendingPayments)
      ensures old(Valid()) ==> Valid()
    {
      if open != isOpen && !open {
        pendingResets := pendingResets + 1;
      }
      isOpen := open;
    }

    /** The reset timer fires: back to the details step. */
    method ResetFires()
      requires pendingResets > 0
      modifies this
      ensures step == Details
      ensures pendingResets == old(pendingResets) - 1
      ensures isOpen == old(isOpen) && loading == old(loading) && pendingPayments == old(pendingPayments)
      ensures old(Valid()) ==> Valid()
    {
      step := Details;
      pendingResets := pendingResets - 1;
    }
  }
}
