/** The invoice record and its status enumeration (package io.pleo.antaeus.models). */
module Models {

  /** The four invoice statuses. `ErrorCnf` is "customer not found" and
      `ErrorCmis` is "currency mismatch". The enum carries no payload, so two
      statuses are equal exactly when they are the same constructor. */
  datatype InvoiceStatus = Pending | Paid | ErrorCnf | ErrorCmis

  /** The statuses in declaration order, as `InvoiceStatus.values()` lists them. */
  const STATUSES: seq<InvoiceStatus> := [Pending, Paid, ErrorCnf, ErrorCmis]

  /** The enum's ordinal: its position in the declaration. */
  function Ordinal(s: InvoiceStatus): (n: nat)
    ensures n < |STATUSES| && STATUSES[n] == s
  {
    match s
    case Pending => 0
    case Paid => 1
    case ErrorCnf => 2
    case ErrorCmis => 3
  }

  /** There are exactly four statuses, each listed once. */
  lemma ExactlyFourStatuses()
    ensures |STATUSES| == 4
    ensures forall s: InvoiceStatus :: s in STATUSES
    ensures forall i, j :: 0 <= i < j < |STATUSES| ==> STATUSES[i] != STATUSES[j]
  {
    forall s: InvoiceStatus ensures s in STATUSES {
      assert STATUSES[Ordinal(s)] == s;
    }
  }

  /** Ordinals follow declaration order and tell the statuses apart. */
  lemma OrdinalOrder(s: InvoiceStatus, t: InvoiceStatus)
    ensures Ordinal(s) == Ordinal(t) <==> s == t
    ensures Ordinal(Pending) < Ordinal(Paid) < Ordinal(ErrorCnf) < Ordinal(ErrorCmis)
  {
  }

  /** A monetary amount; only carried through, never computed with. */
  datatype Money = Money(value: real, currency: string)

  /** An invoice: id, owning customer, amount and status. */
  datatype Invoice = Invoice(id: int, customerId: int, amount: Money, status: InvoiceStatus)
}
