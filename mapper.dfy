/**
 * `mapXmlToReport` (Backend/src/utils/mapper.js): normalizes a parsed bureau
 * document into a Report. `Normalize` states the result declaratively;
 * `MapXmlToReport` is the mapper's own single pass over the accounts, with
 * the shared PAN accumulator, and is proved to compute `Normalize`.
 *
 * JavaScript `Number` on strings is the parameter `num` (None for NaN and
 * ±Infinity); its string syntax is not modelled.
 */
module Mapper {
  import opened Wrappers
  import opened Strings
  import opened ParsedTree
  import opened ReportModel
  import opened Seqs

  /** Why a document yields no report. */
  datatype MapError =
    | BankNotText   // `(a.Subscriber_Name || "").trim()` on an object or array throws a TypeError in the mapper
    | FieldNotText  // another string field holds an object or array, which the report's String cast refuses

  const EnvelopeKey := "INProfileResponse"
  const ApplicantPath := ["Current_Application", "Current_Application_Details", "Current_Applicant_Details"]
  const SummaryPath := ["CAIS_Account", "CAIS_Summary"]
  const DetailsPath := ["CAIS_Account", "CAIS_Account_DETAILS"]
  const EnquiriesPath := ["TotalCAPS_Summary", "TotalCAPSLast7Days"]
  const ScorePath := ["SCORE", "BureauScore"]

  // ---------------------------------------------------------------- numbers

  /** `Number(v)`: undefined and plain objects are NaN, text and arrays go through their string form. */
  function ToNumber(v: Option<Node>, num: string -> Option<real>): Option<real>
  {
    match v
    case None => None
    case Some(Obj(_)) => None
    case Some(n) => num(JsString(n))
  }

  /** `safeNum`: the number when it is finite, otherwise exactly 0. */
  function SafeNum(v: Option<Node>, num: string -> Option<real>): real
  {
    match ToNumber(v, num)
    case Some(x) => x
    case None => 0.0
  }

  /** A finite parse passes through unchanged, negative or not; anything else, absence included, gives 0. */
  lemma SafeNumCoercion(v: Option<Node>, num: string -> Option<real>)
    ensures v.None? ==> SafeNum(v, num) == 0.0
    ensures v.Some? && v.value.Obj? ==> SafeNum(v, num) == 0.0
    ensures v.Some? && v.value.Text? && num(v.value.text).Some? ==> SafeNum(v, num) == num(v.value.text).value
    ensures v.Some? && v.value.Text? && num(v.value.text).None? ==> SafeNum(v, num) == 0.0
  {
  }

  // ---------------------------------------------------------------- envelope and list coercion

  /** `root.INProfileResponse || root`. */
  function Profile(root: Node): Node
  {
    Or(Get(Some(root), EnvelopeKey), root)
  }

  /** The profile is the envelope's content when the envelope is there, the root itself otherwise. */
  lemma EnvelopeFallback(root: Node)
    ensures Truthy(Get(Some(root), EnvelopeKey)) ==> Profile(root) == root.fields[EnvelopeKey]
    ensures !Truthy(Get(Some(root), EnvelopeKey)) ==> Profile(root) == root
  {
  }

  /** `Array.isArray(d) ? d : d ? [d] : []`. */
  function AccountList(details: Option<Node>): seq<Node>
  {
    if details.Some? && details.value.Arr? then details.value.items
    else if Truthy(details) then [details.value]
    else []
  }

  /** An array passes as it is, a single element becomes a one-element list, an absent or empty element none. */
  lemma AccountListCoercion(details: Option<Node>)
    ensures details.Some? && details.value.Arr? ==> AccountList(details) == details.value.items
    ensures details.Some? && details.value.Obj? ==> AccountList(details) == [details.value]
    ensures !Truthy(details) ==> AccountList(details) == []
    ensures !(details.Some? && details.value.Arr?) ==> |AccountList(details)| <= 1
  {
  }

  /** Coercing an already coerced list changes nothing. */
  lemma AccountListIdempotent(details: Option<Node>)
    ensures AccountList(Some(Arr(AccountList(details)))) == AccountList(details)
  {
  }

  // ---------------------------------------------------------------- PAN backfill

  /** `idDetails.Income_TAX_PAN || holder.Income_TAX_PAN || ""`. */
  function PanCandidate(a: Node): Node
  {
    Or(Get(Get(Some(a), "CAIS_Holder_ID_Details"), "Income_TAX_PAN"),
       Or(Get(Get(Some(a), "CAIS_Holder_Details"), "Income_TAX_PAN"), Text("")))
  }

  /** The identifier-details PAN wins over the holder-details PAN; with neither the candidate is "". */
  lemma PanCandidatePriority(a: Node)
    ensures var id := Get(Get(Some(a), "CAIS_Holder_ID_Details"), "Income_TAX_PAN");
            var holder := Get(Get(Some(a), "CAIS_Holder_Details"), "Income_TAX_PAN");
            PanCandidate(a) == if Truthy(id) then id.value else if Truthy(holder) then holder.value else Text("")
  {
  }

  /**
   * The report's PAN, as the mapper's accumulator leaves it: starting from "", each
   * account in document order sets it to its candidate when the candidate is truthy
   * and the PAN is still unset.
   */
  function FirstPan(accts: seq<Node>): Node
  {
    if accts == [] then Text("")
    else
      Backfill(FirstPan(accts[..|accts| - 1]), accts[|accts| - 1])
  }

  /** The PAN after account a: its candidate when that is truthy and the PAN is still unset. */
  function Backfill(pan: Node, a: Node): Node {
    var candidate := PanCandidate(a);
    if Truthy(Some(candidate)) && !Truthy(Some(pan)) then candidate else pan
  }

  /** One more account: the update `if (panCandidate && !basic.pan) basic.pan = panCandidate`. */
  lemma FirstPanStep(xs: seq<Node>, a: Node)
    ensures FirstPan(xs + [a]) == Backfill(FirstPan(xs), a)
  {
    assert (xs + [a])[..|xs|] == xs;
  }

  /** The loop's step: the PAN after the first i + 1 accounts. */
  lemma FirstPanPrefix(accts: seq<Node>, i: nat)
    requires i < |accts|
    ensures FirstPan(accts[..i + 1]) == Backfill(FirstPan(accts[..i]), accts[i])
  {
    assert accts[..i + 1][..i] == accts[..i];
  }

  /** The PAN is "" or the candidate of one of the document's own accounts. */
  lemma {:induction false} FirstPanIsCandidate(accts: seq<Node>)
    ensures FirstPan(accts) == Text("") || exists k :: 0 <= k < |accts| && FirstPan(accts) == PanCandidate(accts[k])
  {
    if accts != [] {
      var init := accts[..|accts| - 1];
      FirstPanIsCandidate(init);
      assert forall k :: 0 <= k < |init| ==> init[k] == accts[k];
    }
  }

  /** The PAN is "" exactly when no account carries a candidate. */
  lemma {:induction false} FirstPanEmpty(accts: seq<Node>)
    ensures FirstPan(accts) == Text("") <==> forall j :: 0 <= j < |accts| ==> !Truthy(Some(PanCandidate(accts[j])))
  {
    if accts != [] {
      var init := accts[..|accts| - 1];
      FirstPanEmpty(init);
      assert forall j :: 0 <= j < |init| ==> init[j] == accts[j];
    }
  }

  /** The PAN is the candidate of the first account that has one, in document order. */
  lemma {:induction false} FirstPanIsEarliest(accts: seq<Node>, k: nat)
    requires k < |accts| && Truthy(Some(PanCandidate(accts[k])))
    requires forall j :: 0 <= j < k ==> !Truthy(Some(PanCandidate(accts[j])))
    ensures FirstPan(accts) == PanCandidate(accts[k])
  {
    var init := accts[..|accts| - 1];
    assert forall j :: 0 <= j < |init| ==> init[j] == accts[j];
    if k == |accts| - 1 {
      FirstPanEmpty(init);
    } else {
      FirstPanIsEarliest(init, k);
    }
  }

  /** Once set, later accounts never overwrite the PAN. */
  lemma {:induction false} FirstPanKept(xs: seq<Node>, ys: seq<Node>)
    requires Truthy(Some(FirstPan(xs)))
    ensures FirstPan(xs + ys) == FirstPan(xs)
  {
    if ys == [] {
      assert xs + ys == xs;
    } else {
      var init := ys[..|ys| - 1];
      FirstPanKept(xs, init);
      assert xs + ys == (xs + init) + [ys[|ys| - 1]];
      FirstPanStep(xs + init, ys[|ys| - 1]);
    }
  }

  // ---------------------------------------------------------------- one account

  /** A name component kept by `.filter(Boolean)`, in its string form. */
  function NamePart(v: Option<Node>): seq<string>
  {
    if Truthy(v) then [JsString(v.value)] else []
  }

  /** `[first, surname].filter(Boolean).join(" ").trim()`. */
  function HolderName(a: Node): string
  {
    var holder := Get(Some(a), "CAIS_Holder_Details");
    Trim(Join(NamePart(Get(holder, "First_Name_Non_Normalized")) + NamePart(Get(holder, "Surname_Non_Normalized")), " "))
  }

  /** The present name components, space-joined and trimmed; "" when both are missing. */
  lemma HolderNameCases(a: Node)
    ensures var holder := Get(Some(a), "CAIS_Holder_Details");
            var f := Get(holder, "First_Name_Non_Normalized");
            var s := Get(holder, "Surname_Non_Normalized");
            HolderName(a) ==
              if Truthy(f) && Truthy(s) then Trim(JsString(f.value) + " " + JsString(s.value))
              else if Truthy(f) then Trim(JsString(f.value))
              else if Truthy(s) then Trim(JsString(s.value))
              else ""
  {
    var holder := Get(Some(a), "CAIS_Holder_Details");
    var f := Get(holder, "First_Name_Non_Normalized");
    var s := Get(holder, "Surname_Non_Normalized");
    if Truthy(f) && Truthy(s) {
      var parts := NamePart(f) + NamePart(s);
      assert parts == [JsString(f.value), JsString(s.value)];
      assert parts[1..] == [JsString(s.value)];
      assert Join(parts, " ") == JsString(f.value) + " " + JsString(s.value);
    }
  }

  /** Two names without surrounding whitespace are joined by exactly one space. */
  lemma HolderNameOfPlainNames(a: Node, first: string, surname: string)
    requires var holder := Get(Some(a), "CAIS_Holder_Details");
             Get(holder, "First_Name_Non_Normalized") == Some(Text(first)) &&
             Get(holder, "Surname_Non_Normalized") == Some(Text(surname))
    requires first != "" && !IsSpace(first[0])
    requires surname != "" && !IsSpace(surname[|surname| - 1])
    ensures HolderName(a) == first + " " + surname
  {
    var holder := Get(Some(a), "CAIS_Holder_Details");
    var parts := NamePart(Get(holder, "First_Name_Non_Normalized")) + NamePart(Get(holder, "Surname_Non_Normalized"));
    var joined := first + " " + surname;
    assert parts == [first, surname];
    assert Join(parts, " ") == joined by {
      assert parts[1..] == [surname];
    }
    assert joined[0] == first[0] && joined[|joined| - 1] == surname[|surname| - 1];
  }

  /** A leaf the String cast accepts: absent, or text. */
  predicate TextOrAbsent(v: Option<Node>) {
    v.None? || v.value.Text?
  }

  /** The six address leaves of an account element are absent or text. */
  predicate AddressLeavesText(a: Node) {
    var addr := Get(Some(a), "CAIS_Holder_Address_Details");
    TextOrAbsent(Get(addr, "First_Line_Of_Address_non_normalized")) &&
    TextOrAbsent(Get(addr, "Second_Line_Of_Address_non_normalized")) &&
    TextOrAbsent(Get(addr, "City_non_normalized")) &&
    TextOrAbsent(Get(addr, "State_non_normalized")) &&
    TextOrAbsent(Get(addr, "ZIP_Postal_Code_non_normalized")) &&
    TextOrAbsent(Get(addr, "CountryCode_non_normalized"))
  }

  /** The account element's string leaves other than the bank name are absent or text. */
  predicate AccountLeavesText(a: Node) {
    TextOrAbsent(Get(Some(a), "Account_Number")) &&
    TextOrAbsent(Get(Some(a), "Portfolio_Type")) &&
    TextOrAbsent(Get(Some(a), "Account_Type")) &&
    TextOrAbsent(Get(Some(a), "Open_Date")) &&
    TextOrAbsent(Get(Some(a), "Date_Reported"))
  }

  /** The six address fields, each `|| ""`; None when one of them is not text. */
  function HolderAddress(a: Node): (r: Option<Address>)
    ensures r.Some? <==> AddressLeavesText(a)
    ensures var addr := Get(Some(a), "CAIS_Holder_Address_Details");
            r.Some? ==>
              TextField(Get(addr, "First_Line_Of_Address_non_normalized")) == Some(r.value.line1) &&
              TextField(Get(addr, "Second_Line_Of_Address_non_normalized")) == Some(r.value.line2) &&
              TextField(Get(addr, "City_non_normalized")) == Some(r.value.city) &&
              TextField(Get(addr, "State_non_normalized")) == Some(r.value.state) &&
              TextField(Get(addr, "ZIP_Postal_Code_non_normalized")) == Some(r.value.postalCode) &&
              TextField(Get(addr, "CountryCode_non_normalized")) == Some(r.value.country)
  {
    var addr := Get(Some(a), "CAIS_Holder_Address_Details");
    var line1 := TextField(Get(addr, "First_Line_Of_Address_non_normalized"));
    var line2 := TextField(Get(addr, "Second_Line_Of_Address_non_normalized"));
    var city := TextField(Get(addr, "City_non_normalized"));
    var state := TextField(Get(addr, "State_non_normalized"));
    var postal := TextField(Get(addr, "ZIP_Postal_Code_non_normalized"));
    var country := TextField(Get(addr, "CountryCode_non_normalized"));
    if line1.Some? && line2.Some? && city.Some? && state.Some? && postal.Some? && country.Some? then
      Some(Address(line1.value, line2.value, city.value, state.value, postal.value, country.value))
    else None
  }

  /** An account without an address element has the all-empty address. */
  lemma MissingAddressIsEmpty(a: Node)
    requires !Truthy(Get(Some(a), "CAIS_Holder_Address_Details"))
    ensures HolderAddress(a) == Some(EmptyAddress)
  {
  }

  /** `.trim()` throws: the subscriber name is an object or an array. */
  predicate BankThrows(a: Node) {
    var name := Get(Some(a), "Subscriber_Name");
    Truthy(name) && !name.value.Text?
  }

  /** The account record the mapper builds from one element; None when a string field would hold a non-text node. */
  function MapAccount(a: Node, num: string -> Option<real>): (r: Option<Account>)
    ensures BankThrows(a) ==> r.None?
  {
    var bank := TextField(Get(Some(a), "Subscriber_Name"));
    var number := TextField(Get(Some(a), "Account_Number"));
    var portfolio := TextField(Get(Some(a), "Portfolio_Type"));
    var kind := TextField(Get(Some(a), "Account_Type"));
    var openDate := TextField(Get(Some(a), "Open_Date"));
    var reported := TextField(Get(Some(a), "Date_Reported"));
    var address := HolderAddress(a);
    if bank.Some? && number.Some? && portfolio.Some? && kind.Some? && openDate.Some? && reported.Some? && address.Some? then
      Some(Account(
        Trim(bank.value), number.value, portfolio.value, kind.value,
        SafeNum(Get(Some(a), "Current_Balance"), num), SafeNum(Get(Some(a), "Amount_Past_Due"), num),
        openDate.value, reported.value, HolderName(a), address.value))
    else None
  }

  /** The bank name of an account element does not throw and its eleven other string leaves are text or absent. */
  predicate ElementLeavesText(a: Node) {
    !BankThrows(a) && AccountLeavesText(a) && AddressLeavesText(a)
  }

  /** An element maps exactly when its bank name does not throw and its eleven other string leaves are text or absent. */
  lemma MapAccountSucceeds(a: Node, num: string -> Option<real>)
    ensures MapAccount(a, num).Some? <==> ElementLeavesText(a)
  {
    MapAccountCast(a, num);
    AccountCastLeaves(a);
  }

  /** An element maps exactly when its six string fields and its address pass the String cast. */
  lemma MapAccountCast(a: Node, num: string -> Option<real>)
    ensures MapAccount(a, num).Some? <==> AccountCast(a) && HolderAddress(a).Some?
  {
  }

  /** The six string fields of an account element pass the String cast. */
  predicate AccountCast(a: Node) {
    TextField(Get(Some(a), "Subscriber_Name")).Some? && TextField(Get(Some(a), "Account_Number")).Some? &&
    TextField(Get(Some(a), "Portfolio_Type")).Some? && TextField(Get(Some(a), "Account_Type")).Some? &&
    TextField(Get(Some(a), "Open_Date")).Some? && TextField(Get(Some(a), "Date_Reported")).Some?
  }

  /** The cast passes exactly when the bank name does not throw and the other leaves are text or absent. */
  lemma AccountCastLeaves(a: Node)
    ensures AccountCast(a) <==> !BankThrows(a) && AccountLeavesText(a)
  {
  }

  /**
   * Each string field is its source leaf as text, "" when the leaf is absent or empty
   * (the bank trimmed), and the two amounts are coerced by `safeNum`.
   */
  lemma MapAccountFields(a: Node, num: string -> Option<real>)
    requires MapAccount(a, num).Some?
    ensures var acc := MapAccount(a, num).value;
            var bank := TextField(Get(Some(a), "Subscriber_Name"));
            bank.Some? && acc.bank == Trim(bank.value) &&
            TextField(Get(Some(a), "Account_Number")) == Some(acc.accountNumber) &&
            TextField(Get(Some(a), "Portfolio_Type")) == Some(acc.portfolioType) &&
            TextField(Get(Some(a), "Account_Type")) == Some(acc.accountType) &&
            TextField(Get(Some(a), "Open_Date")) == Some(acc.openDate) &&
            TextField(Get(Some(a), "Date_Reported")) == Some(acc.dateReported) &&
            acc.currentBalance == SafeNum(Get(Some(a), "Current_Balance"), num) &&
            acc.amountPastDue == SafeNum(Get(Some(a), "Amount_Past_Due"), num) &&
            acc.holderName == HolderName(a) &&
            Some(acc.holderAddress) == HolderAddress(a)
  {
  }

  /** The per-account callback of `accountsArr.map`. */
  function AccountMapper(num: string -> Option<real>): Node -> Option<Account>
  {
    a => MapAccount(a, num)
  }

  /** `accountsArr.map(...)`: None when one element fails. */
  function MapAccounts(accts: seq<Node>, num: string -> Option<real>): Option<seq<Account>>
  {
    MapAll(accts, AccountMapper(num))
  }

  /** Element i of the account list is the mapping of source element i: same length, same order. */
  lemma MapAccountsInOrder(accts: seq<Node>, num: string -> Option<real>)
    ensures MapAccounts(accts, num).Some? <==> forall i :: 0 <= i < |accts| ==> MapAccount(accts[i], num).Some?
    ensures MapAccounts(accts, num).Some? ==> |MapAccounts(accts, num).value| == |accts|
    ensures MapAccounts(accts, num).Some? ==>
      forall i :: 0 <= i < |accts| ==> MapAccounts(accts, num).value[i] == MapAccount(accts[i], num).value
  {
    MapAllInOrder(accts, AccountMapper(num));
  }

  // ---------------------------------------------------------------- the report

  /** The seven counters, each through `safeNum`. */
  function SummaryOf(profile: Option<Node>, num: string -> Option<real>): Summary
  {
    var cais := Path(profile, SummaryPath);
    var credit := Get(cais, "Credit_Account");
    var balances := Get(cais, "Total_Outstanding_Balance");
    Summary(
      SafeNum(Get(credit, "CreditAccountTotal"), num),
      SafeNum(Get(credit, "CreditAccountActive"), num),
      SafeNum(Get(credit, "CreditAccountClosed"), num),
      SafeNum(Get(balances, "Outstanding_Balance_All"), num),
      SafeNum(Get(balances, "Outstanding_Balance_Secured"), num),
      SafeNum(Get(balances, "Outstanding_Balance_UnSecured"), num),
      SafeNum(Path(profile, EnquiriesPath), num))
  }

  /** The account elements of a document, coerced to a list. */
  function DocumentAccounts(root: Node): seq<Node>
  {
    AccountList(Path(Some(Profile(root)), DetailsPath))
  }

  /** Some account's `.trim()` throws. */
  predicate AnyBankThrows(accts: seq<Node>) {
    exists i :: 0 <= i < |accts| && BankThrows(accts[i])
  }

  /** The report of a document, or why it has none: the mapper throws exactly when some account's bank name throws. */
  function Normalize(root: Node, num: string -> Option<real>): (r: Result<Report, MapError>)
    ensures r == Failure(BankNotText) <==> AnyBankThrows(DocumentAccounts(root))
    ensures r.Success? ==> |r.value.accounts| == |DocumentAccounts(root)|
  {
    var accts := DocumentAccounts(root);
    if AnyBankThrows(accts) then Failure(BankNotText) else Assemble(Some(Profile(root)), accts, num)
  }

  /** The report from the profile and its accounts when no `.trim()` throws; the String cast refuses non-text fields. */
  function Assemble(profile: Option<Node>, accts: seq<Node>, num: string -> Option<real>): (r: Result<Report, MapError>)
    ensures r != Failure(BankNotText)
    ensures r.Success? ==> |r.value.accounts| == |accts|
  {
    var applicant := Path(profile, ApplicantPath);
    var first := TextField(Get(applicant, "First_Name"));
    var last := TextField(Get(applicant, "Last_Name"));
    var mobile := TextField(Get(applicant, "MobilePhoneNumber"));
    var pan := AsString(FirstPan(accts));
    var accounts := MapAccounts(accts, num);
    if first.Some? && last.Some? && mobile.Some? && pan.Some? && accounts.Some? then
      Success(Report(
        Basic(first.value, last.value, mobile.value, pan.value),
        SummaryOf(profile, num),
        accounts.value,
        SafeNum(Path(profile, ScorePath), num)))
    else Failure(FieldNotText)
  }

  /** The three applicant leaves are absent or text. */
  predicate ApplicantLeavesText(profile: Option<Node>) {
    var applicant := Path(profile, ApplicantPath);
    TextOrAbsent(Get(applicant, "First_Name")) &&
    TextOrAbsent(Get(applicant, "Last_Name")) &&
    TextOrAbsent(Get(applicant, "MobilePhoneNumber"))
  }

  /** Without a throwing bank name, the String cast accepts the report exactly when every string leaf is text or absent. */
  lemma AssembleSucceeds(profile: Option<Node>, accts: seq<Node>, num: string -> Option<real>)
    ensures Assemble(profile, accts, num).Success? <==>
      ApplicantLeavesText(profile) && FirstPan(accts).Text? &&
      forall i :: 0 <= i < |accts| ==> ElementLeavesText(accts[i])
  {
    AssembleCast(profile, accts, num);
    MapAccountsInOrder(accts, num);
    forall i | 0 <= i < |accts| ensures MapAccount(accts[i], num).Some? <==> ElementLeavesText(accts[i]) {
      MapAccountSucceeds(accts[i], num);
    }
  }

  /** The cast's three conditions: the applicant leaves, the PAN and the account list. */
  lemma AssembleCast(profile: Option<Node>, accts: seq<Node>, num: string -> Option<real>)
    ensures Assemble(profile, accts, num).Success? <==>
      ApplicantLeavesText(profile) && FirstPan(accts).Text? && MapAccounts(accts, num).Some?
  {
  }


  /**
   * The `accountsArr.map` callback run over the accounts in order: it backfills the
   * shared PAN and maps each account, and stops at the first `.trim()` that throws.
   */
  method MapAccountsWithPan(accts: seq<Node>, mapAccount: Node -> Option<Account>)
    returns (throws: bool, pan: Node, accounts: Option<seq<Account>>)
    ensures throws <==> AnyBankThrows(accts)
    ensures !throws ==> pan == FirstPan(accts) && accounts == MapAll(accts, mapAccount)
  {
    pan := Text("");
    var mapped: seq<Account> := [];
    var allText := true;
    var i := 0;
    while i < |accts|
      invariant 0 <= i <= |accts|
      invariant pan == FirstPan(accts[..i])
      invariant forall j :: 0 <= j < i ==> !BankThrows(accts[j])
      invariant allText <==> MapAll(accts[..i], mapAccount).Some?
      invariant allText ==> mapped == MapAll(accts[..i], mapAccount).value
    {
      FirstPanPrefix(accts, i);
      MapAllPrefix(accts, i, mapAccount);
      var thrown, account;
      thrown, pan, account := AccountCallback(accts[i], pan, mapAccount);
      if thrown {
        return true, pan, None;
      }
      if allText && account.Some? {
        mapped := mapped + [account.value];
      } else {
        allText := false;
      }
      i := i + 1;
    }
    assert accts[..i] == accts;
    throws := false;
    accounts := if allText then Some(mapped) else None;
  }

  /** One run of the callback: backfill the PAN, then throw at the bank name or map the account. */
  method AccountCallback(a: Node, pan: Node, mapAccount: Node -> Option<Account>)
    returns (throws: bool, newPan: Node, account: Option<Account>)
    ensures newPan == Backfill(pan, a)
    ensures throws == BankThrows(a)
    ensures !throws ==> account == mapAccount(a)
  {
    newPan := pan;
    var candidate := PanCandidate(a);
    if Truthy(Some(candidate)) && !Truthy(Some(pan)) {
      newPan := candidate;
    }
    if BankThrows(a) {
      return true, newPan, None;
    }
    throws := false;
    account := mapAccount(a);
  }

  /** The mapper: the basic details and summary, one pass over the accounts, the score. */
  method MapXmlToReport(root: Node, num: string -> Option<real>) returns (r: Result<Report, MapError>)
    ensures r == Normalize(root, num)
  {
    var profile := Some(Profile(root));
    var applicant := Path(profile, ApplicantPath);
    var first := TextField(Get(applicant, "First_Name"));
    var last := TextField(Get(applicant, "Last_Name"));
    var mobile := TextField(Get(applicant, "MobilePhoneNumber"));
    var summary := SummaryOf(profile, num);
    var accts := DocumentAccounts(root);
    var throws, pan, accounts := MapAccountsWithPan(accts, AccountMapper(num));
    if throws {
      return Failure(BankNotText);
    }
    var score := SafeNum(Path(profile, ScorePath), num);
    var panText := AsString(pan);
    if first.Some? && last.Some? && mobile.Some? && panText.Some? && accounts.Some? {
      r := Success(Report(Basic(first.value, last.value, mobile.value, panText.value), summary, accounts.value, score));
    } else {
      r := Failure(FieldNotText);
    }
  }
}
