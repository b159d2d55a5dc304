/**
 * CustomerService: the customer fetch and the customer mapper. Every field is read strictly:
 * a missing property or one of the wrong kind rejects the element, and with it the response.
 */
module CustomerService {
  import opened Wrappers
  import opened Exceptions
  import opened Json
  import opened Guids
  import opened Runtime
  import opened JsonAccess
  import opened Models
  import opened DataverseConstants
  import opened DataverseUrlBuilder
  import opened ServiceBase

  const CustomersEntityName: string := "customers"

  /** A text field the customer mapper accepts: present, and a string or a JSON null. */
  predicate IsTextOrNull(element: Json, name: string) {
    element.JObj? && name in element.members && (element.members[name].JStr? || element.members[name].JNull?)
  }

  /** What a text field the mapper accepted becomes: its content, or None for null. */
  function TextOrNull(element: Json, name: string): Option<string>
    requires IsTextOrNull(element, name)
  {
    if element.members[name].JStr? then Some(element.members[name].s) else None
  }

  /** MapCustomer: id, name, address and email, in that order; the first failure ends the mapping. */
  function MapCustomer(p: Platform, element: Json): (r: Result<Customer, Exception>)
    ensures r.Success? <==>
              PropertyGuid(p, element, CustomerIdField).Success?
              && IsTextOrNull(element, CustomerNameField)
              && IsTextOrNull(element, CustomerAddressField)
              && IsTextOrNull(element, CustomerEmailField)
    ensures r.Success? ==>
              r.value == Customer(PropertyGuid(p, element, CustomerIdField).value,
                                  TextOrNull(element, CustomerNameField),
                                  TextOrNull(element, CustomerAddressField),
                                  TextOrNull(element, CustomerEmailField))
    ensures !element.JObj? ==> r == Failure(InvalidOperationException)
    ensures element.JObj? && CustomerIdField !in element.members ==> r == Failure(KeyNotFoundException(CustomerIdField))
  {
    match PropertyGuid(p, element, CustomerIdField)
    case Failure(e) => Failure(e)
    case Success(id) =>
      match PropertyString(element, CustomerNameField)
      case Failure(e) => Failure(e)
      case Success(name) =>
        match PropertyString(element, CustomerAddressField)
        case Failure(e) => Failure(e)
        case Success(address) =>
          match PropertyString(element, CustomerEmailField)
          case Failure(e) => Failure(e)
          case Success(email) => Success(Customer(id, name, address, email))
  }

  function CustomerMapper(p: Platform): Json -> Result<Customer, Exception> {
    element => MapCustomer(p, element)
  }

  /**
   * Unlike the invoice number, a customer text field holding an Int32 number is not read as its
   * text: the lenient accessor would accept it, the customer mapper rejects the whole element.
   */
  lemma CustomerFieldsAreStrict(p: Platform, element: Json, name: string, n: Number)
    requires name in {CustomerNameField, CustomerAddressField, CustomerEmailField}
    requires element.JObj? && name in element.members && element.members[name] == JNum(n) && n.int32.Some?
    ensures GetStringValue(p, element, name).Success?
    ensures MapCustomer(p, element).Failure?
  {
    assert !IsTextOrNull(element, name);
  }

  /** One element that maps and one that does not: the response fails as a whole. */
  lemma CustomersAllOrNothing(p: Platform, json: string, good: Json, bad: Json)
    requires MapCustomer(p, good).Success? && MapCustomer(p, bad).Failure?
    requires p.parseJson(json) == Some(JObj(map["value" := JArr([good, bad])]))
    ensures ParseResponse(p, json, CustomerMapper(p), CustomersEntityName)
            == Failure(DataverseApiException(ProcessFailureMessage(CustomersEntityName), Some(MapCustomer(p, bad).error)))
  {
    var items := [good, bad];
    assert ValueItems(JObj(map["value" := JArr(items)])) == Success(items);
    assert MapEach(items[1..], CustomerMapper(p)) == Failure(MapCustomer(p, bad).error) by {
      assert items[1..] == [bad];
    }
  }

  class CustomerService {
    const service: DataverseServiceBase

    constructor (service: DataverseServiceBase)
      ensures this.service == service
    {
      this.service := service;
    }

    /** GetCustomersAsync: all active customers. */
    method GetCustomers() returns (r: Result<seq<Customer>, Exception>)
      modifies service.authService, service.httpFactory, service.httpFactory.network
      ensures service.authService.calls == old(service.authService.calls) + 1
      ensures match service.authService.answer(old(service.authService.calls))
        case Failure(e) =>
          r == Failure(e) && service.httpFactory.created == old(service.httpFactory.created)
          && service.httpFactory.network.sent == old(service.httpFactory.network.sent)
        case Success(token) =>
          var request := DataverseRequest(BuildCustomersUrl(service.options.dataverseUrl), token);
          service.httpFactory.created == old(service.httpFactory.created) + 1
          && service.httpFactory.network.sent == old(service.httpFactory.network.sent) + [request]
          && r == ParseFetched(service.platform,
                               Classify(service.platform,
                                        service.httpFactory.network.server(|old(service.httpFactory.network.sent)|, request)),
                               CustomerMapper(service.platform), CustomersEntityName)
    {
      var url := BuildCustomersUrl(service.options.dataverseUrl);
      var fetched := service.ExecuteRequest(url);
      r := ParseFetched(service.platform, fetched, CustomerMapper(service.platform), CustomersEntityName);
    }
  }
}
