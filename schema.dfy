/**
 * The rows of the tables the controllers read and write, with the enum domains of the
 * ledger columns. Money and stock quantities are integers (for instance cents).
 */
module Schema {
  import opened Wrappers

  datatype TxType = Entrada | Saida
  datatype PayMethod = Dinheiro | CartaoCredito | CartaoDebito | Pix | Transferencia
  datatype TxStatus = Pendente | Confirmado | Cancelado

  /** The stored spelling of a transaction type, as compared by the `type` query filter. */
  function TxTypeName(t: TxType): string {
    match t
    case Entrada => "entrada"
    case Saida => "saida"
  }

  /** A company with its three running revenue aggregates. */
  datatype Company = Company(
    name: string,
    employees: string,
    location: Option<string>,
    email: Option<string>,
    phone: Option<string>,
    address: Option<string>,
    userId: int,
    dayValue: int,
    monthValue: int,
    anualValue: int)

  /** A product; `kind` is the `type` column. */
  datatype Product = Product(
    name: string,
    kind: Option<string>,
    amount: int,
    minAmount: int,
    stockEnabled: bool,
    valueCoast: int,
    supplier: string,
    internalCod: string,
    barcode: string,
    observation: string,
    companyId: int)

  /** A row of the cash-flow ledger (`transitions_buy_sells`). */
  datatype Entry = Entry(
    productId: int,
    companyId: int,
    txType: TxType,
    amount: int,
    quantity: int,
    description: Option<string>,
    paymentMethod: PayMethod,
    status: TxStatus,
    customerName: Option<string>,
    customerDocument: Option<string>,
    createdAt: int)

  datatype Customer = Customer(
    name: string,
    email: Option<string>,
    phone: Option<string>,
    address: Option<string>,
    companyId: int)

  datatype Employee = Employee(
    name: string,
    email: string,
    phone: Option<string>,
    position: string,
    companyId: int,
    salary: int,
    hireDate: Option<string>,
    status: string,
    createdAt: int)

  /** A product or service type (`types_prod_services`). */
  datatype ProductType = ProductType(name: string, companyId: int)

  /** An appointment; `scheduledDate` is a calendar day number, `scheduledTime` the `HH:MM` text. */
  datatype Schedule = Schedule(
    companyId: int,
    customerName: string,
    customerPhone: string,
    customerEmail: Option<string>,
    serviceType: string,
    serviceDescription: string,
    scheduledDate: int,
    scheduledTime: string,
    duration: int,
    status: string,
    notes: Option<string>)
}
