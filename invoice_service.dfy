/**
 * InvoiceService: the two invoice fetches and the invoice mappers. The id and the amount are
 * read strictly; the number, the status and the customer's display name leniently; the customer
 * id comes either from the lookup column (unfiltered fetch) or from the caller (by-customer fetch).
 */
module InvoiceService {
  import opened Wrappers
  import opened Exceptions
  import opened Json
  import opened Guids
  import opened Runtime
  import opened JsonAccess
  import opened Models
  import opened DataverseConstants
  import opened DataverseUrlBuilder
  import opened ServiceBase

  const InvoicesEntityName: string := "invoices"

  /** `element.GetProperty(TotalAmount).GetDecimal()`. */
  function PropertyDecimal(element: Json, name: string): (r: Result<Decimal, Exception>)
    ensures r.Success? <==> element.JObj? && name in element.members && element.members[name].JNum?
                            && element.members[name].n.decimal.Some?
    ensures r.Success? ==> r.value == element.members[name].n.decimal.value
  {
    match GetProperty(element, name)
    case Failure(e) => Failure(e)
    case Success(v) => GetDecimal(v)
  }

  /** The parts of an invoice element that are read strictly: a GUID id and a decimal amount. */
  predicate HasStrictInvoiceFields(p: Platform, element: Json) {
    PropertyGuid(p, element, InvoiceIdField).Success? && PropertyDecimal(element, InvoiceTotalAmountField).Success?
  }

  /** The lenient fields all read: none of them is a number outside Int32. */
  predicate HasLenientInvoiceFields(p: Platform, element: Json) {
    GetStringValue(p, element, InvoiceNumberField).Success?
    && GetStringValue(p, element, InvoiceStatusField).Success?
    && GetStringValue(p, element, InvoiceCustomerNameField).Success?
  }

  /**
   * MapInvoiceWithCustomerId: the record's fields in constructor order, the first failing one
   * ending the mapping; the customer id is the one passed in, whatever the element holds.
   */
  function MapInvoiceWithCustomerId(p: Platform, element: Json, customerId: Guid): (r: Result<Invoice, Exception>)
    ensures r.Success? <==> HasStrictInvoiceFields(p, element) && HasLenientInvoiceFields(p, element)
    ensures r.Success? ==>
              r.value.id == PropertyGuid(p, element, InvoiceIdField).value
              && r.value.invoiceNumber == GetStringValue(p, element, InvoiceNumberField).value
              && r.value.totalAmount == element.members[InvoiceTotalAmountField].n.decimal.value
              && r.value.status == GetStringValue(p, element, InvoiceStatusField).value
              && r.value.customerId == customerId
              && r.value.customerName == GetStringValue(p, element, InvoiceCustomerNameField).value
    ensures !element.JObj? ==> r == Failure(InvalidOperationException)
    ensures element.JObj? && InvoiceIdField !in element.members ==> r == Failure(KeyNotFoundException(InvoiceIdField))
  {
    match PropertyGuid(p, element, InvoiceIdField)
    case Failure(e) => Failure(e)
    case Success(id) =>
      match GetStringValue(p, element, InvoiceNumberField)
      case Failure(e) => Failure(e)
      case Success(number) =>
        match PropertyDecimal(element, InvoiceTotalAmountField)
        case Failure(e) => Failure(e)
        case Success(amount) =>
          match GetStringValue(p, element, InvoiceStatusField)
          case Failure(e) => Failure(e)
          case Success(status) =>
            match GetStringValue(p, element, InvoiceCustomerNameField)
            case Failure(e) => Failure(e)
            case Success(name) => Success(Invoice(id, number, amount, status, customerId, name))
  }

  /**
   * MapInvoice: the customer id read leniently from the lookup column, then the same record as
   * MapInvoiceWithCustomerId. Whether it succeeds does not depend on the lookup column.
   */
  function MapInvoice(p: Platform, element: Json): (r: Result<Invoice, Exception>)
    ensures r.Success? <==> MapInvoiceWithCustomerId(p, element, Empty).Success?
    ensures r.Success? ==>
              r.value == MapInvoiceWithCustomerId(p, element, Empty).value
                           .(customerId := GetGuidValue(p, element, InvoiceCustomerIdField).value)
    ensures r.Success? && !(InvoiceCustomerIdField in element.members
                            && element.members[InvoiceCustomerIdField].JStr?
                            && p.parseGuid(element.members[InvoiceCustomerIdField].s).Some?) ==>
              r.value.customerId == Empty
  {
    match GetGuidValue(p, element, InvoiceCustomerIdField)
    case Failure(e) => Failure(e)
    case Success(customerId) => MapInvoiceWithCustomerId(p, element, customerId)
  }

  function InvoiceMapper(p: Platform): Json -> Result<Invoice, Exception> {
    element => MapInvoice(p, element)
  }

  function ByCustomerMapper(p: Platform, customerId: Guid): Json -> Result<Invoice, Exception> {
    element => MapInvoiceWithCustomerId(p, element, customerId)
  }

  /** In the by-customer fetch every invoice carries the customer id asked for, whatever the payload says. */
  lemma ByCustomerKeepsCustomerId(p: Platform, json: string, customerId: Guid)
    ensures var r := ParseResponse(p, json, ByCustomerMapper(p, customerId), InvoicesEntityName);
            r.Success? ==> forall i :: 0 <= i < |r.value| ==> r.value[i].customerId == customerId
  {
    var r := ParseResponse(p, json, ByCustomerMapper(p, customerId), InvoicesEntityName);
    if r.Success? {
      var items := ValueItems(p.parseJson(json).value).value;
      forall i | 0 <= i < |r.value| ensures r.value[i].customerId == customerId {
        assert r.value[i] == MapInvoiceWithCustomerId(p, items[i], customerId).value;
      }
    }
  }

  /**
   * A record with a numeric invoice number, a fractional amount and no lookup column: the number
   * comes back as its decimal text, the amount exactly, the display name as "".
   */
  lemma NumericInvoiceNumberExample(p: Platform, g: Guid, customerId: Guid)
    requires AcceptsCanonicalGuids(p)
    ensures MapInvoiceWithCustomerId(p, JObj(map[
                InvoiceIdField := JStr(GuidText(g)),
                InvoiceNumberField := JNum(Number(Some(1001), Some(Decimal(1001, 0)))),
                InvoiceTotalAmountField := JNum(Number(None, Some(Decimal(25050, 2)))),
                InvoiceStatusField := JStr("0")]), customerId)
            == Success(Invoice(g, "1001", Decimal(25050, 2), "0", customerId, ""))
  {
    assert p.parseGuid(GuidText(g)) == Some(g);
    assert Text.NatText(1001) == "1001" by {
      assert Text.NatText(10) == "10";
      assert Text.NatText(100) == "100";
    }
  }

  /**
   * A record without an id is rejected, not defaulted: the mapper throws KeyNotFound and the
   * whole response fails, even where all the lenient fields are present.
   */
  lemma MissingIdRejects(p: Platform, json: string)
    requires p.parseJson(json) == Some(JObj(map["value" := JArr([JObj(map[
               InvoiceNumberField := JNum(Number(Some(1001), Some(Decimal(1001, 0)))),
               InvoiceStatusField := JStr("0")])])]))
    ensures ParseResponse(p, json, InvoiceMapper(p), InvoicesEntityName)
            == Failure(DataverseApiException(ProcessFailureMessage(InvoicesEntityName),
                                             Some(KeyNotFoundException(InvoiceIdField))))
  {
    var element := JObj(map[
      InvoiceNumberField := JNum(Number(Some(1001), Some(Decimal(1001, 0)))),
      InvoiceStatusField := JStr("0")]);
    assert InvoiceIdField !in element.members;
    assert MapInvoice(p, element) == Failure(KeyNotFoundException(InvoiceIdField));
  }

  class InvoiceService {
    const service: DataverseServiceBase

    constructor (service: DataverseServiceBase)
      ensures this.service == service
    {
      this.service := service;
    }

    /** GetInvoicesAsync: all active invoices, each with the customer id from its lookup column. */
    method GetInvoices() returns (r: Result<seq<Invoice>, Exception>)
      modifies service.authService, service.httpFactory, service.httpFactory.network
      ensures service.authService.calls == old(service.authService.calls) + 1
      ensures match service.authService.answer(old(service.authService.calls))
        case Failure(e) =>
          r == Failure(e) && service.httpFactory.created == old(service.httpFactory.created)
          && service.httpFactory.network.sent == old(service.httpFactory.network.sent)
        case Success(token) =>
          var request := DataverseRequest(BuildInvoicesUrl(service.options.dataverseUrl), token);
          service.httpFactory.created == old(service.httpFactory.created) + 1
          && service.httpFactory.network.sent == old(service.httpFactory.network.sent) + [request]
          && r == ParseFetched(service.platform,
                               Classify(service.platform,
                                        service.httpFactory.network.server(|old(service.httpFactory.network.sent)|, request)),
                               InvoiceMapper(service.platform), InvoicesEntityName)
    {
      var url := BuildInvoicesUrl(service.options.dataverseUrl);
      var fetched := service.ExecuteRequest(url);
      r := ParseFetched(service.platform, fetched, InvoiceMapper(service.platform), InvoicesEntityName);
    }

    /** GetInvoicesByCustomerIdAsync: the customer's active invoices, each carrying that customer's id. */
    method GetInvoicesByCustomerId(customerId: Guid) returns (r: Result<seq<Invoice>, Exception>)
      modifies service.authService, service.httpFactory, service.httpFactory.network
      ensures service.authService.calls == old(service.authService.calls) + 1
      ensures match service.authService.answer(old(service.authService.calls))
        case Failure(e) =>
          r == Failure(e) && service.httpFactory.created == old(service.httpFactory.created)
          && service.httpFactory.network.sent == old(service.httpFactory.network.sent)
        case Success(token) =>
          var request := DataverseRequest(BuildInvoicesByCustomerUrl(service.options.dataverseUrl, customerId), token);
          service.httpFactory.created == old(service.httpFactory.created) + 1
          && service.httpFactory.network.sent == old(service.httpFactory.network.sent) + [request]
          && r == ParseFetched(service.platform,
                               Classify(service.platform,
                                        service.httpFactory.network.server(|old(service.httpFactory.network.sent)|, request)),
                               ByCustomerMapper(service.platform, customerId), InvoicesEntityName)
      ensures r.Success? ==> forall i :: 0 <= i < |r.value| ==> r.value[i].customerId == customerId
    {
      var url := BuildInvoicesByCustomerUrl(service.options.dataverseUrl, customerId);
      var fetched := service.ExecuteRequest(url);
      r := ParseFetched(service.platform, fetched, ByCustomerMapper(service.platform, customerId), InvoicesEntityName);
      if fetched.Success? {
        ByCustomerKeepsCustomerId(service.platform, fetched.value, customerId);
      }
    }
  }
}
