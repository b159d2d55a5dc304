/**
 * The OData query URLs for the three fetch shapes: the `$select` and `$filter`
 * system query options (sections 5.1.3 and 5.1.1 of OData 4.0 Part 2, URL Conventions),
 * the filter built from the `eq` and `and` operators of section 5.1.1.1.
 */
module DataverseUrlBuilder {
  import opened DataverseConstants
  import opened Guids
  import opened Text

  /** The summed length of the parts. */
  function TotalLength(parts: seq<string>): nat
  {
    if |parts| == 0 then 0 else TotalLength(parts[..|parts| - 1]) + |parts[|parts| - 1]|
  }

  /** string.Join: the parts with `sep` between neighbours. */
  function Join(sep: string, parts: seq<string>): (joined: string)
    ensures |parts| == 0 ==> joined == ""
    ensures |parts| > 0 ==> |joined| == TotalLength(parts) + (|parts| - 1) * |sep|
    ensures |parts| > 0 ==> StartsWith(joined, parts[0])
  {
    if |parts| == 0 then ""
    else if |parts| == 1 then parts[0]
    else Join(sep, parts[..|parts| - 1]) + sep + parts[|parts| - 1]
  }

  const CustomerSelect: seq<string> :=
    [CustomerIdField, CustomerNameField, CustomerAddressField, CustomerEmailField]

  const InvoiceSelect: seq<string> :=
    [InvoiceIdField, InvoiceNumberField, InvoiceTotalAmountField, InvoiceStatusField, InvoiceCustomerIdField]

  /** What a builder appends to the base URL: entity path, `$select` list, `$filter` expression. */
  function Query(entity: string, fields: seq<string>, filter: string): (q: string)
    ensures StartsWith(q, "/api/data/v9.2/")
    ensures |q| >= |filter| && q[|q| - |filter|..] == filter
  {
    "/api/data/" + ApiVersion + "/" + entity + "?$select=" + Join(",", fields) + "&$filter=" + filter
  }

  function BuildCustomersUrl(baseUrl: string): (url: string)
    ensures |url| > |baseUrl| && url[..|baseUrl|] == baseUrl
  {
    baseUrl + Query(CustomersEntity, CustomerSelect, ActiveRecordsFilter)
  }

  function BuildInvoicesUrl(baseUrl: string): (url: string)
    ensures |url| > |baseUrl| && url[..|baseUrl|] == baseUrl
  {
    baseUrl + Query(InvoicesEntity, InvoiceSelect, ActiveRecordsFilter)
  }

  function BuildInvoicesByCustomerUrl(baseUrl: string, customerId: Guid): (url: string)
    ensures |url| > |baseUrl| && url[..|baseUrl|] == baseUrl
  {
    baseUrl + Query(InvoicesEntity, InvoiceSelect,
                    ActiveRecordsFilter + " and " + InvoiceCustomerIdField + " eq " + GuidText(customerId))
  }

  /** The `$select` list of the customers query, written out. */
  const CustomerSelectText: string := "cr720_customerid,cr720_customername,cr720_address,cr720_email"

  /** The `$select` list of the invoices query, written out. */
  const InvoiceSelectText: string :=
    "cr720_invoiceid,cr720_invoicenumber,cr720_totalamount,cr720_status,_cr720_customer_value"

  /** The customer condition the filtered builder appends to the invoices query. */
  const CustomerCondition: string := " and _cr720_customer_value eq "

  lemma CustomerSelectPrefixJoined()
    ensures Join(",", CustomerSelect[..3]) == "cr720_customerid,cr720_customername,cr720_address"
  {
    assert CustomerSelect[..3][..2][..1] == [CustomerIdField];
    assert Join(",", CustomerSelect[..3][..2]) == "cr720_customerid,cr720_customername";
  }

  lemma CustomerSelectJoined()
    ensures Join(",", CustomerSelect) == CustomerSelectText
  {
    CustomerSelectPrefixJoined();
    assert CustomerSelect[..3] == CustomerSelect[..|CustomerSelect| - 1];
  }

  lemma InvoiceSelectPrefixJoined()
    ensures Join(",", InvoiceSelect[..3]) == "cr720_invoiceid,cr720_invoicenumber,cr720_totalamount"
  {
    assert InvoiceSelect[..3][..2][..1] == [InvoiceIdField];
    assert Join(",", InvoiceSelect[..3][..2]) == "cr720_invoiceid,cr720_invoicenumber";
  }

  lemma InvoiceSelectJoined()
    ensures Join(",", InvoiceSelect) == InvoiceSelectText
  {
    InvoiceSelectPrefixJoined();
    assert InvoiceSelect[..4][..3] == InvoiceSelect[..3];
    assert InvoiceSelect[..4] == InvoiceSelect[..|InvoiceSelect| - 1];
    assert Join(",", InvoiceSelect[..4]) == "cr720_invoiceid,cr720_invoicenumber,cr720_totalamount,cr720_status";
  }

  /** The customers URL, spelled out: entity path, `$select` list in column order, active filter. */
  lemma CustomersUrlExact(baseUrl: string)
    ensures BuildCustomersUrl(baseUrl)
         == baseUrl + ("/api/data/v9.2/cr720_customers"
                       + "?$select=" + "cr720_customerid,cr720_customername,cr720_address,cr720_email"
                       + "&$filter=" + "statecode eq 0")
  {
    CustomerSelectJoined();
    assert "/api/data/" + ApiVersion + "/" + CustomersEntity == "/api/data/v9.2/cr720_customers";
  }

  /** The invoices URL, spelled out: the five columns in the order Id, InvoiceNumber, TotalAmount, Status, CustomerId. */
  lemma InvoicesUrlExact(baseUrl: string)
    ensures BuildInvoicesUrl(baseUrl)
         == baseUrl + ("/api/data/v9.2/cr720_invoices"
                       + "?$select=" + "cr720_invoiceid,cr720_invoicenumber,cr720_totalamount,cr720_status,_cr720_customer_value"
                       + "&$filter=" + "statecode eq 0")
  {
    InvoiceSelectJoined();
    assert "/api/data/" + ApiVersion + "/" + InvoicesEntity == "/api/data/v9.2/cr720_invoices";
  }

  /** The customer-filtered URL is the unfiltered one with the customer condition appended. */
  lemma ByCustomerExtendsInvoices(baseUrl: string, customerId: Guid)
    ensures BuildInvoicesByCustomerUrl(baseUrl, customerId)
            == BuildInvoicesUrl(baseUrl) + CustomerCondition + GuidText(customerId)
    ensures |BuildInvoicesUrl(baseUrl)| < |BuildInvoicesByCustomerUrl(baseUrl, customerId)|
  {
    var head := "/api/data/" + ApiVersion + "/" + InvoicesEntity + "?$select=" + Join(",", InvoiceSelect) + "&$filter=";
    var g := GuidText(customerId);
    assert ActiveRecordsFilter + " and " + InvoiceCustomerIdField + " eq " + g == ActiveRecordsFilter + CustomerCondition + g;
    assert head + (ActiveRecordsFilter + CustomerCondition + g) == head + ActiveRecordsFilter + CustomerCondition + g;
    assert baseUrl + (head + ActiveRecordsFilter + CustomerCondition + g)
        == baseUrl + (head + ActiveRecordsFilter) + CustomerCondition + g;
  }

  /** Distinct customers give distinct URLs, and the URL contains the customer's GUID text. */
  lemma ByCustomerDistinguishesCustomers(baseUrl: string, c1: Guid, c2: Guid)
    ensures BuildInvoicesByCustomerUrl(baseUrl, c1) == BuildInvoicesByCustomerUrl(baseUrl, c2) <==> c1 == c2
    ensures Contains(BuildInvoicesByCustomerUrl(baseUrl, c1), GuidText(c1))
  {
    ByCustomerExtendsInvoices(baseUrl, c1);
    ByCustomerExtendsInvoices(baseUrl, c2);
    var p := BuildInvoicesUrl(baseUrl) + CustomerCondition;
    var u1, u2 := BuildInvoicesByCustomerUrl(baseUrl, c1), BuildInvoicesByCustomerUrl(baseUrl, c2);
    if u1 == u2 {
      assert u1[|p|..] == GuidText(c1);
      assert u2[|p|..] == GuidText(c2);
      GuidTextInjective(c1, c2);
    }
    InfixContained(p, GuidText(c1), "");
    assert p + GuidText(c1) + "" == u1;
  }

  /** Every builder inserts the base URL verbatim, then the Web API path of version 9.2. */
  lemma BuildersStartWithBase(baseUrl: string, customerId: Guid)
    ensures StartsWith(BuildCustomersUrl(baseUrl), baseUrl + "/api/data/v9.2/")
    ensures StartsWith(BuildInvoicesUrl(baseUrl), baseUrl + "/api/data/v9.2/")
    ensures StartsWith(BuildInvoicesByCustomerUrl(baseUrl, customerId), baseUrl + "/api/data/v9.2/")
  {
    QueryStartsWithPath(CustomersEntity, CustomerSelect, ActiveRecordsFilter);
    QueryStartsWithPath(InvoicesEntity, InvoiceSelect, ActiveRecordsFilter);
    QueryStartsWithPath(InvoicesEntity, InvoiceSelect,
                        ActiveRecordsFilter + " and " + InvoiceCustomerIdField + " eq " + GuidText(customerId));
  }

  lemma QueryStartsWithPath(entity: string, fields: seq<string>, filter: string)
    ensures forall b: string :: StartsWith(b + Query(entity, fields, filter), b + "/api/data/v9.2/")
  {
    var q := Query(entity, fields, filter);
    assert q[..15] == "/api/data/v9.2/";
    forall b: string ensures StartsWith(b + q, b + "/api/data/v9.2/") {
      assert (b + q)[..|b| + 15] == b + q[..15];
    }
  }

  lemma QueryContainsFilter(entity: string, fields: seq<string>, filter: string)
    ensures Contains(Query(entity, fields, filter), "$filter=" + filter)
  {
    var head := "/api/data/" + ApiVersion + "/" + entity + "?$select=" + Join(",", fields);
    assert Query(entity, fields, filter) == head + "&" + ("$filter=" + filter) + "";
    InfixContained(head + "&", "$filter=" + filter, "");
  }

  /** Every builder's filter keeps only active records; the filtered one adds the customer equality with `and`. */
  lemma BuildersFilterActiveRecords(baseUrl: string, customerId: Guid)
    ensures Contains(BuildCustomersUrl(baseUrl), "$filter=" + "statecode eq 0")
    ensures Contains(BuildInvoicesUrl(baseUrl), "$filter=" + "statecode eq 0")
    ensures Contains(BuildInvoicesByCustomerUrl(baseUrl, customerId),
                     "$filter=" + ("statecode eq 0" + " and " + "_cr720_customer_value" + " eq " + GuidText(customerId)))
  {
    var g := GuidText(customerId);
    var byCustomer := ActiveRecordsFilter + " and " + InvoiceCustomerIdField + " eq " + g;
    QueryContainsFilter(CustomersEntity, CustomerSelect, ActiveRecordsFilter);
    QueryContainsFilter(InvoicesEntity, InvoiceSelect, ActiveRecordsFilter);
    QueryContainsFilter(InvoicesEntity, InvoiceSelect, byCustomer);
    ContainsAfterPrefix(baseUrl, Query(CustomersEntity, CustomerSelect, ActiveRecordsFilter), "$filter=" + ActiveRecordsFilter);
    ContainsAfterPrefix(baseUrl, Query(InvoicesEntity, InvoiceSelect, ActiveRecordsFilter), "$filter=" + ActiveRecordsFilter);
    ContainsAfterPrefix(baseUrl, Query(InvoicesEntity, InvoiceSelect, byCustomer), "$filter=" + byCustomer);
  }

  lemma {:induction false} JoinAvoids(sep: string, parts: seq<string>, c: char)
    requires c !in sep
    requires forall i :: 0 <= i < |parts| ==> c !in parts[i]
    ensures c !in Join(sep, parts)
    decreases |parts|
  {
    if |parts| > 1 {
      JoinAvoids(sep, parts[..|parts| - 1], c);
    }
  }

  lemma QueryAvoids(entity: string, fields: seq<string>, filter: string, c: char)
    requires c !in "/api/data/v9.2/?$select=&$filter=," && c !in entity && c !in filter
    requires forall i :: 0 <= i < |fields| ==> c !in fields[i]
    ensures c !in Query(entity, fields, filter)
  {
    JoinAvoids(",", fields, c);
    assert c !in "/api/data/" && c !in ApiVersion && c !in "/" && c !in "?$select=" && c !in "&$filter=";
  }

  /** The text a builder appends to the base URL. */
  function AddedText(url: string, baseUrl: string): string
    requires StartsWith(url, baseUrl)
  {
    url[|baseUrl|..]
  }

  /** A query text without 'x' and '@' can hold neither `$expand` nor the annotation. */
  lemma AddsNeither(baseUrl: string, q: string)
    requires 'x' !in q && '@' !in q
    ensures StartsWith(baseUrl + q, baseUrl) && AddedText(baseUrl + q, baseUrl) == q
    ensures !Contains(q, "$expand") && !Contains(q, "@" + FormattedValueAnnotation)
  {
    assert (baseUrl + q)[..|baseUrl|] == baseUrl;
    assert "$expand"[2] == 'x';
    assert ("@" + FormattedValueAnnotation)[0] == '@';
    MissingCharExcludes(q, "$expand", 'x');
    MissingCharExcludes(q, "@" + FormattedValueAnnotation, '@');
  }

  lemma FieldsAvoid(c: char)
    requires c == 'x' || c == '@'
    ensures forall i :: 0 <= i < |CustomerSelect| ==> c !in CustomerSelect[i]
    ensures forall i :: 0 <= i < |InvoiceSelect| ==> c !in InvoiceSelect[i]
    ensures c !in "/api/data/v9.2/?$select=&$filter=," && c !in CustomersEntity && c !in InvoicesEntity
  {
  }

  lemma FilterAvoids(customerId: Guid, c: char)
    requires c == 'x' || c == '@'
    ensures c !in ActiveRecordsFilter
    ensures c !in ActiveRecordsFilter + " and " + InvoiceCustomerIdField + " eq " + GuidText(customerId)
  {
    var g := GuidText(customerId);
    assert forall i :: 0 <= i < |g| ==> g[i] != c;
  }

  lemma QueriesAvoid(customerId: Guid, c: char)
    requires c == 'x' || c == '@'
    ensures c !in Query(CustomersEntity, CustomerSelect, ActiveRecordsFilter)
    ensures c !in Query(InvoicesEntity, InvoiceSelect, ActiveRecordsFilter)
    ensures c !in Query(InvoicesEntity, InvoiceSelect,
                        ActiveRecordsFilter + " and " + InvoiceCustomerIdField + " eq " + GuidText(customerId))
  {
    FieldsAvoid(c);
    FilterAvoids(customerId, c);
    QueryAvoids(CustomersEntity, CustomerSelect, ActiveRecordsFilter, c);
    QueryAvoids(InvoicesEntity, InvoiceSelect, ActiveRecordsFilter, c);
    QueryAvoids(InvoicesEntity, InvoiceSelect,
                ActiveRecordsFilter + " and " + InvoiceCustomerIdField + " eq " + GuidText(customerId), c);
  }

  /**
   * No builder adds an `$expand` option or the formatted-value annotation to the query:
   * the display name of the customer arrives through the Prefer header instead.
   */
  lemma BuildersAddNoExpandNorAnnotation(baseUrl: string, customerId: Guid)
    ensures StartsWith(BuildCustomersUrl(baseUrl), baseUrl)
         && !Contains(AddedText(BuildCustomersUrl(baseUrl), baseUrl), "$expand")
         && !Contains(AddedText(BuildCustomersUrl(baseUrl), baseUrl), "@" + FormattedValueAnnotation)
    ensures StartsWith(BuildInvoicesUrl(baseUrl), baseUrl)
         && !Contains(AddedText(BuildInvoicesUrl(baseUrl), baseUrl), "$expand")
         && !Contains(AddedText(BuildInvoicesUrl(baseUrl), baseUrl), "@" + FormattedValueAnnotation)
    ensures StartsWith(BuildInvoicesByCustomerUrl(baseUrl, customerId), baseUrl)
         && !Contains(AddedText(BuildInvoicesByCustomerUrl(baseUrl, customerId), baseUrl), "$expand")
         && !Contains(AddedText(BuildInvoicesByCustomerUrl(baseUrl, customerId), baseUrl), "@" + FormattedValueAnnotation)
  {
    QueriesAvoid(customerId, 'x');
    QueriesAvoid(customerId, '@');
    AddsNeither(baseUrl, Query(CustomersEntity, CustomerSelect, ActiveRecordsFilter));
    AddsNeither(baseUrl, Query(InvoicesEntity, InvoiceSelect, ActiveRecordsFilter));
    AddsNeither(baseUrl, Query(InvoicesEntity, InvoiceSelect,
                               ActiveRecordsFilter + " and " + InvoiceCustomerIdField + " eq " + GuidText(customerId)));
  }
}
