/**
 * The report detail page's logic over a stored report: the split of the
 * accounts into credit cards and loans, the account status and the holder
 * address as one line of text.
 */
module ReportDetail {
  import opened Strings
  import opened Seqs
  import opened ReportModel
  import opened Wrappers
  import ParsedTree
  import Mapper

  /** The account-type codes of credit cards. */
  const CardTypes: seq<string> := ["10", "11", "12", "13"]

  /** Revolving portfolio ("R", any case, surrounding whitespace ignored) or a card account type. */
  predicate IsCreditCard(a: Account) {
    Upper(Trim(a.portfolioType)) == "R" || Trim(a.accountType) in CardTypes
  }

  /** The loan filter as written: a portfolio other than "R" and an account type outside the card codes. */
  predicate IsLoan(a: Account) {
    Upper(Trim(a.portfolioType)) != "R" && !(Trim(a.accountType) in CardTypes)
  }

  function CreditCardAccounts(accounts: seq<Account>): (r: seq<Account>)
    ensures forall i :: 0 <= i < |r| ==> r[i] in accounts && IsCreditCard(r[i])
    ensures forall i :: 0 <= i < |accounts| && IsCreditCard(accounts[i]) ==> accounts[i] in r
  {
    Filter(accounts, IsCreditCard)
  }

  function LoanAccounts(accounts: seq<Account>): (r: seq<Account>)
    ensures forall i :: 0 <= i < |r| ==> r[i] in accounts && IsLoan(r[i])
    ensures forall i :: 0 <= i < |accounts| && IsLoan(accounts[i]) ==> accounts[i] in r
  {
    Filter(accounts, IsLoan)
  }

  /** The two filters are written separately, yet a loan is exactly an account that is not a credit card. */
  lemma LoanIsNotCreditCard(a: Account)
    ensures IsLoan(a) <==> !IsCreditCard(a)
  {
  }

  /**
   * Every account lands in exactly one of the two tables: together they hold
   * each account as often as the report does, and no account is in both.
   */
  lemma CardsAndLoansPartition(accounts: seq<Account>)
    ensures multiset(CreditCardAccounts(accounts)) + multiset(LoanAccounts(accounts)) == multiset(accounts)
    ensures |CreditCardAccounts(accounts)| + |LoanAccounts(accounts)| == |accounts|
    ensures forall a :: a in CreditCardAccounts(accounts) ==> a !in LoanAccounts(accounts)
  {
    FilterPartition(accounts, IsCreditCard, IsLoan);
  }

  /** Both tables list their accounts in the report's order. */
  lemma TablesKeepOrder(accounts: seq<Account>)
    ensures IsSubsequence(CreditCardAccounts(accounts), accounts)
    ensures IsSubsequence(LoanAccounts(accounts), accounts)
  {
    FilterIsSubsequence(accounts, IsCreditCard);
    FilterIsSubsequence(accounts, IsLoan);
  }

  /** The portfolio test, stated without upper-casing: the trimmed portfolio is "r" or "R". */
  lemma CreditCardCases(a: Account)
    ensures IsCreditCard(a) <==>
      Trim(a.portfolioType) == "r" || Trim(a.portfolioType) == "R" ||
      Trim(a.accountType) == "10" || Trim(a.accountType) == "11" ||
      Trim(a.accountType) == "12" || Trim(a.accountType) == "13"
  {
    UpperIsR(Trim(a.portfolioType));
    CardTypeCodes(Trim(a.accountType));
  }

  lemma CardTypeCodes(t: string)
    ensures t in CardTypes <==> t == "10" || t == "11" || t == "12" || t == "13"
  {
  }

  /** A lower-case portfolio code padded with spaces still marks a credit card. */
  lemma PaddedLowerCasePortfolioIsCard(a: Account)
    requires a.portfolioType == " r "
    ensures IsCreditCard(a) && !IsLoan(a)
  {
    assert " r " == " " + "r" + " ";
    TrimOfPadded(" ", "r", " ");
    UpperIsR("r");
  }

  /** With no portfolio code the account type alone decides: "11" is a card. */
  lemma CardByAccountTypeAlone(a: Account)
    requires a.portfolioType == "" && a.accountType == "11"
    ensures IsCreditCard(a) && !IsLoan(a)
  {
    assert Trim("11") == "11";
  }

  /** `getStatus`: an account is active exactly when its current balance is positive. */
  function Status(a: Account): (r: string)
    ensures r == "Active" || r == "Closed"
    ensures r == "Active" <==> a.currentBalance > 0.0
  {
    if a.currentBalance > 0.0 then "Active" else "Closed"
  }

  /** An account whose element has no usable current balance shows as closed. */
  lemma UnreadableBalanceIsClosed(element: ParsedTree.Node, num: string -> Option<real>)
    requires Mapper.MapAccount(element, num).Some?
    requires Mapper.ToNumber(ParsedTree.Get(Some(element), "Current_Balance"), num).None?
    ensures Status(Mapper.MapAccount(element, num).value) == "Closed"
  {
    Mapper.MapAccountFields(element, num);
    Mapper.SafeNumCoercion(ParsedTree.Get(Some(element), "Current_Balance"), num);
  }

  /** What `formatAddress` may receive: nothing, a plain string, or an address record. */
  datatype AddressValue = Missing | Plain(text: string) | Structured(address: Address)

  /** The address fields in display order, with the empty ones dropped. */
  function AddressParts(addr: Address): (r: seq<string>)
    ensures forall i :: 0 <= i < |r| ==> r[i] != ""
  {
    Filter(Fields(addr), NonEmpty)
  }

  /** The six fields in display order. */
  function Fields(addr: Address): seq<string> {
    [addr.line1, addr.line2, addr.city, addr.state, addr.postalCode, addr.country]
  }

  /** `Boolean` on a string. */
  predicate NonEmpty(s: string) {
    s != ""
  }

  /** `formatAddress`: "-" for a falsy value, a string as it is, a record as its non-empty fields joined by ", ". */
  function FormatAddress(v: AddressValue): (r: string)
    ensures v.Missing? || v == Plain("") ==> r == "-"
    ensures v.Plain? && v.text != "" ==> r == v.text
    ensures v.Structured? ==> r == Join(AddressParts(v.address), ", ")
  {
    match v
    case Missing => "-"
    case Plain(s) => if s == "" then "-" else s
    case Structured(addr) => Join(AddressParts(addr), ", ")
  }

  /** A record renders as "" (never "-") exactly when all six fields are empty. */
  lemma FormatAddressEmpty(addr: Address)
    ensures FormatAddress(Structured(addr)) == "" <==> addr == EmptyAddress
  {
    var all := Fields(addr);
    JoinEmpty(AddressParts(addr), ", ");
    FilterEmpty(all, NonEmpty);
    if AddressParts(addr) == [] {
      assert !NonEmpty(all[0]) && !NonEmpty(all[1]) && !NonEmpty(all[2]);
      assert !NonEmpty(all[3]) && !NonEmpty(all[4]) && !NonEmpty(all[5]);
    }
  }

  /** Each non-empty field of the record appears in the rendered line. */
  lemma FormatAddressShowsFields(addr: Address, field: string)
    requires field in Fields(addr)
    requires field != ""
    ensures Contains(FormatAddress(Structured(addr)), field)
  {
    var all := Fields(addr);
    var parts := AddressParts(addr);
    var i :| 0 <= i < |all| && all[i] == field;
    assert field in parts;
    var k :| 0 <= k < |parts| && parts[k] == field;
    JoinContainsPart(parts, ", ", k);
  }

  /** With a single non-empty field the line is that field, without separators. */
  lemma FormatAddressCityOnly(addr: Address)
    requires addr == EmptyAddress.(city := addr.city) && addr.city != ""
    ensures FormatAddress(Structured(addr)) == addr.city
  {
    var city := addr.city;
    assert Fields(addr) == ["", ""] + [city] + ["", "", ""];
    FilterConcat(["", ""] + [city], ["", "", ""], NonEmpty);
    FilterConcat(["", ""], [city], NonEmpty);
    FilterEmpty(["", ""], NonEmpty);
    FilterEmpty(["", "", ""], NonEmpty);
    assert Filter([city], NonEmpty) == [city];
  }

  /** An account element without holder address details renders its address as "", not "-". */
  lemma MissingHolderAddressRendersEmpty(element: ParsedTree.Node, num: string -> Option<real>)
    requires Mapper.MapAccount(element, num).Some?
    requires !ParsedTree.Truthy(ParsedTree.Get(Some(element), "CAIS_Holder_Address_Details"))
    ensures FormatAddress(Structured(Mapper.MapAccount(element, num).value.holderAddress)) == ""
  {
    Mapper.MapAccountFields(element, num);
    Mapper.MissingAddressIsEmpty(element);
    FormatAddressEmpty(EmptyAddress);
  }
}
