/** The fixed names of the Dataverse tables, columns and query pieces the access layer uses. */
module DataverseConstants {
  const ApiVersion: string := "v9.2"
  const CustomersEntity: string := "cr720_customers"
  const InvoicesEntity: string := "cr720_invoices"

  const CustomerIdField: string := "cr720_customerid"
  const CustomerNameField: string := "cr720_customername"
  const CustomerAddressField: string := "cr720_address"
  const CustomerEmailField: string := "cr720_email"

  const InvoiceIdField: string := "cr720_invoiceid"
  const InvoiceNumberField: string := "cr720_invoicenumber"
  const InvoiceTotalAmountField: string := "cr720_totalamount"
  const InvoiceStatusField: string := "cr720_status"
  /** The lookup column holding the invoice's customer. */
  const InvoiceCustomerIdField: string := "_cr720_customer_value"
  /** The annotation Dataverse adds beside a lookup column with its display text. */
  const FormattedValueAnnotation: string := "OData.Community.Display.V1.FormattedValue"
  /** The customer's display name: the lookup column's formatted-value annotation. */
  const InvoiceCustomerNameField: string := InvoiceCustomerIdField + "@" + FormattedValueAnnotation

  /** Only active (statecode 0) rows are fetched. */
  const ActiveRecordsFilter: string := "statecode eq 0"
}
