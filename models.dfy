/** The records the access layer returns. */
module Models {
  import opened Wrappers
  import opened Json
  import opened Guids

  /**
   * A customer. The three text fields are declared non-null, but the mapper does not check:
   * a JSON null comes through as null, written None here.
   */
  datatype Customer = Customer(id: Guid, name: Option<string>, address: Option<string>, email: Option<string>)

  /** An invoice; the amount is the exact decimal the payload carried. */
  datatype Invoice = Invoice(
    id: Guid,
    invoiceNumber: string,
    totalAmount: Decimal,
    status: string,
    customerId: Guid,
    customerName: string)
}
