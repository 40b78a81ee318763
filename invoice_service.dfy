/** InvoiceService over the data-access layer (AntaeusDal), which is kept
    abstract: a map from invoice id to invoice, plus a range query whose
    selection rule is a parameter of the store. */
module Invoices {
  import opened Wrappers
  import opened Models

  /** The error `fetch` throws for an absent id. */
  datatype InvoiceNotFound = InvoiceNotFound(id: int)

  /** The store. `rangeQuery` stands for `fetchInvoices(start, finish)`, whose
      range rule and filtering are not part of this model. */
  class Dal {
    var invoices: map<int, Invoice>
    const rangeQuery: (map<int, Invoice>, int, int) -> seq<Invoice>

    constructor (invoices: map<int, Invoice>, rangeQuery: (map<int, Invoice>, int, int) -> seq<Invoice>)
      ensures this.invoices == invoices && this.rangeQuery == rangeQuery
    {
      this.invoices := invoices;
      this.rangeQuery := rangeQuery;
    }

    /** `fetchInvoice(id)`: the stored invoice, or null. */
    function FetchInvoice(id: int): (r: Option<Invoice>)
      reads this
      ensures r.Some? <==> id in invoices
      ensures r.Some? ==> r.value == invoices[id]
    {
      if id in invoices then Some(invoices[id]) else None
    }

    /** `fetchInvoices(start, finish)`. */
    function FetchInvoices(start: int, finish: int): seq<Invoice>
      reads this
    {
      rangeQuery(invoices, start, finish)
    }

    /** `updateInvoice(id, status)`: sets the status of invoice `id` when there
        is one, and changes nothing else. */
    method UpdateInvoice(id: int, status: InvoiceStatus)
      modifies this
      ensures invoices.Keys == old(invoices).Keys
      ensures id in invoices ==> invoices[id] == old(invoices)[id].(status := status)
      ensures forall k :: k in invoices && k != id ==> invoices[k] == old(invoices)[k]
    {
      if id in invoices {
        invoices := invoices[id := invoices[id].(status := status)];
      }
    }
  }

  /** InvoiceService: the two pointers delimiting the slice of the store this
      worker handles (-1 when unset) and delegation to the store. */
  class InvoiceService {
    const dal: Dal
    var databasePointerStart: int
    var databasePointerFinish: int

    /** A fresh service has both pointers at -1. */
    constructor (dal: Dal)
      ensures this.dal == dal
      ensures databasePointerStart == -1 && databasePointerFinish == -1
    {
      this.dal := dal;
      databasePointerStart := -1;
      databasePointerFinish := -1;
    }

    /** `fetchAll`: asks the store for the current pointers' range, passing
        both pointers as they are. */
    method FetchAll() returns (r: seq<Invoice>)
      ensures r == dal.rangeQuery(dal.invoices, databasePointerStart, databasePointerFinish)
    {
      r := dal.FetchInvoices(databasePointerStart, databasePointerFinish);
    }

    /** `fetch(id)`: the stored invoice, or InvoiceNotFound carrying `id`. */
    method Fetch(id: int) returns (r: Result<Invoice, InvoiceNotFound>)
      ensures r.Ok? <==> id in dal.invoices
      ensures r.Ok? ==> r.value == dal.invoices[id]
      ensures r.Err? ==> r.error == InvoiceNotFound(id)
    {
      var found := dal.FetchInvoice(id);
      if found.None? {
        return Err(InvoiceNotFound(id));
      }
      r := Ok(found.value);
    }

    /** `updateInvoice(id, status)`: forwards both arguments to the store; the
        pointers are left alone. */
    method UpdateInvoice(id: int, status: InvoiceStatus)
      modifies dal
      ensures databasePointerStart == old(databasePointerStart)
      ensures databasePointerFinish == old(databasePointerFinish)
      ensures dal.invoices.Keys == old(dal.invoices).Keys
      ensures id in dal.invoices ==> dal.invoices[id] == old(dal.invoices)[id].(status := status)
      ensures forall k :: k in dal.invoices && k != id ==> dal.invoices[k] == old(dal.invoices)[k]
    {
      dal.UpdateInvoice(id, status);
    }
  }
}
