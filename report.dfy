/**
 * The canonical credit report (Backend/src/models/report.model.js): identity
 * strings, seven summary counters, the tradeline accounts in document order
 * and the bureau score. Numbers are exact reals: JavaScript rounds to
 * doubles, which this model leaves out.
 */
module ReportModel {

  datatype Address = Address(
    line1: string,
    line2: string,
    city: string,
    state: string,
    postalCode: string,
    country: string)

  datatype Account = Account(
    bank: string,
    accountNumber: string,
    portfolioType: string,
    accountType: string,
    currentBalance: real,
    amountPastDue: real,
    openDate: string,
    dateReported: string,
    holderName: string,
    holderAddress: Address)

  datatype Basic = Basic(firstName: string, lastName: string, mobile: string, pan: string)

  datatype Summary = Summary(
    totalAccounts: real,
    activeAccounts: real,
    closedAccounts: real,
    outstandingAll: real,
    outstandingSecured: real,
    outstandingUnsecured: real,
    last7daysEnquiries: real)

  datatype Report = Report(basic: Basic, summary: Summary, accounts: seq<Account>, score: real)

  const EmptyAddress := Address("", "", "", "", "", "")
}
