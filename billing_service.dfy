/** BillingService.payInvoice: one charge attempt through the payment
    provider, with the provider's exceptions turned into values. */
module Billing {
  import opened Models

  /** What one `PaymentProvider.charge` call does: return a Boolean, or throw
      one of the three documented exceptions, or throw anything else. */
  datatype ChargeResult =
    | Charged(ok: bool)
    | CustomerNotFound(customerId: int)
    | CurrencyMismatch(invoiceId: int, customerId: int)
    | Network
    | Other

  /** The gateway is an arbitrary function from the invoice to its answer. */
  type Gateway = Invoice -> ChargeResult

  /** How `payInvoice` ends: it returns a Boolean, or an uncaught exception
      propagates to its caller. */
  datatype PayOutcome = Returns(value: bool) | Propagates

  /** The outcome together with the invoices handed to the gateway, in call
      order (so `|charged|` is the number of gateway calls). */
  datatype Payment = Payment(outcome: PayOutcome, charged: seq<Invoice>)

  /** True of the exceptions that one of the three catch clauses handles. */
  predicate Caught(res: ChargeResult) {
    res.CustomerNotFound? || res.CurrencyMismatch? || res.Network?
  }

  /** The try/catch around the charge call: a returned Boolean is returned,
      the three known exceptions fall out of their (logging-only) catch
      clauses to the final `return true`, anything else escapes. */
  function Settle(res: ChargeResult): (o: PayOutcome)
    ensures o == Propagates <==> res.Other?
    ensures res.Charged? ==> o == Returns(res.ok)
    ensures Caught(res) ==> o == Returns(true)
  {
    match res
    case Charged(ok) => Returns(ok)
    case CustomerNotFound(_) => Returns(true)
    case CurrencyMismatch(_, _) => Returns(true)
    case Network => Returns(true)
    case Other => Propagates
  }

  /** payInvoice: an already PAID invoice is refused without calling the
      gateway; any other status is charged exactly once, with no retry. */
  function PayInvoice(invoice: Invoice, gateway: Gateway): (p: Payment)
    // the gateway is called at most once, only on this very invoice
    ensures invoice.status == Paid ==> p.charged == []
    ensures invoice.status != Paid ==> p.charged == [invoice]
    // a PAID invoice gives false
    ensures invoice.status == Paid ==> p.outcome == Returns(false)
    // the result is false exactly when the invoice was PAID or the charge was declined
    ensures p.outcome == Returns(false) <==> invoice.status == Paid || gateway(invoice) == Charged(false)
    // true for a successful charge and for every caught exception alike
    ensures p.outcome == Returns(true) <==>
              invoice.status != Paid && (gateway(invoice) == Charged(true) || Caught(gateway(invoice)))
    // only an unrecognised exception escapes
    ensures p.outcome == Propagates <==> invoice.status != Paid && gateway(invoice).Other?
  {
    if invoice.status == Paid then
      Payment(Returns(false), [])
    else
      Payment(Settle(gateway(invoice)), [invoice])
  }

  /** Every non-PAID status (PENDING, ERRORCNF, ERRORCMIS) is charged: the
      guard looks only for PAID. */
  lemma EveryNonPaidStatusIsCharged(invoice: Invoice, gateway: Gateway)
    requires invoice.status in {Pending, ErrorCnf, ErrorCmis}
    ensures |PayInvoice(invoice, gateway).charged| == 1
  {
  }

  /** The result depends on the invoice only through its status and the
      gateway's answer, and the invoice handed to the gateway is the caller's
      own, unchanged: payInvoice writes no status and touches no store. */
  lemma PaymentDependsOnStatusAndAnswer(a: Invoice, b: Invoice, ga: Gateway, gb: Gateway)
    requires a.status == b.status && ga(a) == gb(b)
    ensures PayInvoice(a, ga).outcome == PayInvoice(b, gb).outcome
    ensures forall i :: i in PayInvoice(a, ga).charged ==> i == a
  {
  }

  /** The six invoices and mocked provider of BillingServiceTest. */
  function FixtureInvoice(id: int, customerId: int, value: real, status: InvoiceStatus): Invoice {
    Invoice(id, customerId, Money(value, "USD"), status)
  }

  function FixtureGateway(): Gateway {
    (i: Invoice) =>
      if i.id == 1 || i.id == 2 then Charged(true)
      else if i.id == 3 then Charged(false)
      else if i.id == 4 then CustomerNotFound(4)
      else if i.id == 5 then CurrencyMismatch(5, 4)
      else Other
  }

  /** What payInvoice does on the test fixture: the PAID invoice 2 is never
      charged, invoice 3 is declined, the customer-not-found and
      currency-mismatch failures return true like a success, and the generic
      exception of invoice 6 escapes. */
  lemma FixtureOutcomes()
    ensures PayInvoice(FixtureInvoice(1, 8, 66.99, Pending), FixtureGateway()).outcome == Returns(true)
    ensures PayInvoice(FixtureInvoice(2, 7, 66.10, Paid), FixtureGateway()) == Payment(Returns(false), [])
    ensures PayInvoice(FixtureInvoice(3, 6, 66.11, Pending), FixtureGateway()).outcome == Returns(false)
    ensures PayInvoice(FixtureInvoice(4, 5, 66.22, Pending), FixtureGateway()).outcome == Returns(true)
    ensures PayInvoice(FixtureInvoice(5, 4, 66.44, Pending), FixtureGateway()).outcome == Returns(true)
    ensures PayInvoice(FixtureInvoice(6, 3, 66.33, Pending), FixtureGateway()).outcome == Propagates
  {
  }
}
