/**
 * What `mapXmlToReport` promises about whole documents: defaults for missing
 * sections, the account list in document order, the PAN of the first account
 * that carries one, the optional envelope, and the upload example.
 */
module MapperProperties {
  import opened Wrappers
  import opened Strings
  import opened ParsedTree
  import opened ReportModel
  import opened Seqs
  import opened Mapper

  const ZeroSummary := Summary(0.0, 0.0, 0.0, 0.0, 0.0, 0.0, 0.0)

  /** A document with none of the expected sections still yields a report: empty strings, zero counters, no accounts, score 0. */
  lemma EmptyDocumentDefaults(num: string -> Option<real>)
    ensures Normalize(Obj(map[]), num) == Success(Report(Basic("", "", "", ""), ZeroSummary, [], 0.0))
  {
    var profile := Some(Profile(Obj(map[])));
    assert Path(profile, DetailsPath) == None;
    assert Path(profile, ApplicantPath) == None;
    assert Path(profile, SummaryPath) == None;
    assert Path(profile, EnquiriesPath) == None;
    assert Path(profile, ScorePath) == None;
    assert MapAccounts([], num) == Some([]);
  }

  /** Without an account element the report has no accounts and an empty PAN, and the mapper cannot throw. */
  lemma NoAccountElement(root: Node, num: string -> Option<real>)
    requires !Truthy(Path(Some(Profile(root)), DetailsPath))
    ensures Normalize(root, num).Failure? ==> Normalize(root, num).error == FieldNotText
    ensures Normalize(root, num).Success? ==>
      Normalize(root, num).value.accounts == [] && Normalize(root, num).value.basic.pan == ""
  {
    assert DocumentAccounts(root) == [];
    assert MapAccounts([], num) == Some([]);
  }

  /** Missing applicant details give empty names and mobile, whatever else the document holds. */
  lemma MissingApplicantDefaults(root: Node, num: string -> Option<real>)
    requires Path(Some(Profile(root)), ApplicantPath).None?
    requires Normalize(root, num).Success?
    ensures Normalize(root, num).value.basic.firstName == ""
    ensures Normalize(root, num).value.basic.lastName == ""
    ensures Normalize(root, num).value.basic.mobile == ""
  {
  }

  /** Missing summary and enquiry sections give zero counters. */
  lemma MissingSummaryDefaults(profile: Option<Node>, num: string -> Option<real>)
    requires Path(profile, SummaryPath).None? && Path(profile, EnquiriesPath).None?
    ensures SummaryOf(profile, num) == ZeroSummary
  {
  }

  /** What `safeNum` makes of a leaf, by its shape: 0 when absent or an object; for text, its finite parse, negative included, else 0. */
  predicate NumberFromLeaf(x: real, v: Option<Node>, num: string -> Option<real>) {
    (v.None? ==> x == 0.0) &&
    (v.Some? && v.value.Obj? ==> x == 0.0) &&
    (v.Some? && v.value.Text? && num(v.value.text).Some? ==> x == num(v.value.text).value) &&
    (v.Some? && v.value.Text? && num(v.value.text).None? ==> x == 0.0)
  }

  /** What `|| ""` and the String cast make of a leaf, by its shape: "" when falsy, the text itself otherwise. */
  predicate TextFromLeaf(x: string, v: Option<Node>) {
    (!Truthy(v) ==> x == "") && (v.Some? && v.value.Text? ==> x == v.value.text)
  }

  /** Each of the seven counters and the score of a report comes from its own leaf through `safeNum`. */
  lemma ReportNumbersByLeaf(root: Node, num: string -> Option<real>)
    requires Normalize(root, num).Success?
    ensures var profile := Some(Profile(root));
            var rep := Normalize(root, num).value;
            var cais := Path(profile, SummaryPath);
            var credit := Get(cais, "Credit_Account");
            var balances := Get(cais, "Total_Outstanding_Balance");
            NumberFromLeaf(rep.summary.totalAccounts, Get(credit, "CreditAccountTotal"), num) &&
            NumberFromLeaf(rep.summary.activeAccounts, Get(credit, "CreditAccountActive"), num) &&
            NumberFromLeaf(rep.summary.closedAccounts, Get(credit, "CreditAccountClosed"), num) &&
            NumberFromLeaf(rep.summary.outstandingAll, Get(balances, "Outstanding_Balance_All"), num) &&
            NumberFromLeaf(rep.summary.outstandingSecured, Get(balances, "Outstanding_Balance_Secured"), num) &&
            NumberFromLeaf(rep.summary.outstandingUnsecured, Get(balances, "Outstanding_Balance_UnSecured"), num) &&
            NumberFromLeaf(rep.summary.last7daysEnquiries, Path(profile, EnquiriesPath), num) &&
            NumberFromLeaf(rep.score, Path(profile, ScorePath), num)
  {
    var profile := Some(Profile(root));
    var cais := Path(profile, SummaryPath);
    var credit := Get(cais, "Credit_Account");
    var balances := Get(cais, "Total_Outstanding_Balance");
    assert Normalize(root, num) == Assemble(profile, DocumentAccounts(root), num);
    SafeNumCoercion(Get(credit, "CreditAccountTotal"), num);
    SafeNumCoercion(Get(credit, "CreditAccountActive"), num);
    SafeNumCoercion(Get(credit, "CreditAccountClosed"), num);
    SafeNumCoercion(Get(balances, "Outstanding_Balance_All"), num);
    SafeNumCoercion(Get(balances, "Outstanding_Balance_Secured"), num);
    SafeNumCoercion(Get(balances, "Outstanding_Balance_UnSecured"), num);
    SafeNumCoercion(Path(profile, EnquiriesPath), num);
    SafeNumCoercion(Path(profile, ScorePath), num);
  }

  /** The first name, last name and mobile of a report: "" for a missing or empty leaf, the leaf's text otherwise. */
  lemma ReportApplicantByLeaf(root: Node, num: string -> Option<real>)
    requires Normalize(root, num).Success?
    ensures var applicant := Path(Some(Profile(root)), ApplicantPath);
            var basic := Normalize(root, num).value.basic;
            TextFromLeaf(basic.firstName, Get(applicant, "First_Name")) &&
            TextFromLeaf(basic.lastName, Get(applicant, "Last_Name")) &&
            TextFromLeaf(basic.mobile, Get(applicant, "MobilePhoneNumber"))
  {
    assert Normalize(root, num) == Assemble(Some(Profile(root)), DocumentAccounts(root), num);
  }

  /** Each address field of a mapped account: "" for a missing or empty leaf, the leaf's text otherwise, whether or not the other leaves are there. */
  lemma AccountAddressByLeaf(a: Node, num: string -> Option<real>)
    requires MapAccount(a, num).Some?
    ensures var addr := Get(Some(a), "CAIS_Holder_Address_Details");
            var h := MapAccount(a, num).value.holderAddress;
            TextFromLeaf(h.line1, Get(addr, "First_Line_Of_Address_non_normalized")) &&
            TextFromLeaf(h.line2, Get(addr, "Second_Line_Of_Address_non_normalized")) &&
            TextFromLeaf(h.city, Get(addr, "City_non_normalized")) &&
            TextFromLeaf(h.state, Get(addr, "State_non_normalized")) &&
            TextFromLeaf(h.postalCode, Get(addr, "ZIP_Postal_Code_non_normalized")) &&
            TextFromLeaf(h.country, Get(addr, "CountryCode_non_normalized"))
  {
    MapAccountFields(a, num);
  }

  /**
   * A document gives a report exactly when every string leaf the report takes is text or
   * absent: the applicant's three, the accumulated PAN, and each account's bank name and
   * eleven other string leaves.
   */
  lemma ReportExists(root: Node, num: string -> Option<real>)
    ensures var accts := DocumentAccounts(root);
            Normalize(root, num).Success? <==>
              ApplicantLeavesText(Some(Profile(root))) && FirstPan(accts).Text? &&
              forall i :: 0 <= i < |accts| ==> ElementLeavesText(accts[i])
  {
    var accts := DocumentAccounts(root);
    var profile := Some(Profile(root));
    if AnyBankThrows(accts) {
      var i :| 0 <= i < |accts| && BankThrows(accts[i]);
      assert !ElementLeavesText(accts[i]);
    } else {
      assert Normalize(root, num) == Assemble(profile, accts, num);
      AssembleSucceeds(profile, accts, num);
    }
  }


  /**
   * A successful report lists one account per source element, element i mapped to
   * account i, and its PAN is the candidate of the earliest account that has one.
   */
  lemma SuccessfulReport(root: Node, num: string -> Option<real>)
    requires Normalize(root, num).Success?
    ensures var accts := DocumentAccounts(root);
            var rep := Normalize(root, num).value;
            |rep.accounts| == |accts| &&
            (forall i :: 0 <= i < |accts| ==> MapAccount(accts[i], num) == Some(rep.accounts[i])) &&
            Some(rep.basic.pan) == AsString(FirstPan(accts))
  {
    var accts := DocumentAccounts(root);
    MapAccountsInOrder(accts, num);
  }

  /** The PAN of a report is empty exactly when no account element carries a candidate. */
  lemma ReportPanEmpty(root: Node, num: string -> Option<real>)
    requires Normalize(root, num).Success?
    ensures var accts := DocumentAccounts(root);
            Normalize(root, num).value.basic.pan == "" <==>
              forall j :: 0 <= j < |accts| ==> !Truthy(Some(PanCandidate(accts[j])))
  {
    var accts := DocumentAccounts(root);
    var pan := Normalize(root, num).value.basic.pan;
    SuccessfulReport(root, num);
    assert FirstPan(accts) == Text(pan);
    FirstPanEmpty(accts);
  }

  /** The envelope is optional: a document wrapped in it maps like the bare profile. */
  lemma EnvelopeOptional(inner: Node, num: string -> Option<real>)
    requires inner.Obj? && !Truthy(Get(Some(inner), EnvelopeKey))
    ensures Normalize(Obj(map[EnvelopeKey := inner]), num) == Normalize(inner, num)
  {
    EnvelopeFallback(inner);
    EnvelopeFallback(Obj(map[EnvelopeKey := inner]));
  }

  /** A single account element, not wrapped in an array, is one account. */
  lemma SingleAccountElement(root: Node, num: string -> Option<real>)
    requires Path(Some(Profile(root)), DetailsPath).Some? && Path(Some(Profile(root)), DetailsPath).value.Obj?
    requires Normalize(root, num).Success?
    ensures |Normalize(root, num).value.accounts| == 1
  {
    AccountListCoercion(Path(Some(Profile(root)), DetailsPath));
    SuccessfulReport(root, num);
  }

  // ---------------------------------------------------------------- the upload example

  /** The account element of the upload example: a bank name, a number and the two amounts, nothing else. */
  predicate UploadShaped(a: Node, bank: string) {
    var e := Some(a);
    Get(e, "Subscriber_Name") == Some(Text(bank)) &&
    Get(e, "Account_Number") == Some(Text("XXXX1234")) &&
    Get(e, "Portfolio_Type") == None && Get(e, "Account_Type") == None &&
    Get(e, "Open_Date") == None && Get(e, "Date_Reported") == None &&
    Get(e, "Current_Balance") == Some(Text("50000")) && Get(e, "Amount_Past_Due") == Some(Text("0")) &&
    Get(e, "CAIS_Holder_Details") == None && Get(e, "CAIS_Holder_Address_Details") == None
  }

  /**
   * Such an element maps to the trimmed bank name, the two amounts parsed, the
   * other strings "", no holder name and the all-empty address.
   */
  lemma UploadExampleAccount(a: Node, bank: string, num: string -> Option<real>)
    requires UploadShaped(a, bank)
    requires num("50000") == Some(50000.0) && num("0") == Some(0.0)
    ensures MapAccount(a, num) == Some(Account(Trim(bank), "XXXX1234", "", "", 50000.0, 0.0, "", "", "", EmptyAddress))
  {
    UploadAccountParts(a, bank, num);
    MapAccountOfParts(a, bank, num);
  }

  /** The leaves of such an element, each as the mapper reads it. */
  lemma UploadAccountParts(a: Node, bank: string, num: string -> Option<real>)
    requires UploadShaped(a, bank)
    requires num("50000") == Some(50000.0) && num("0") == Some(0.0)
    ensures AccountParts(a, bank, num)
  {
    UploadLeaves(a, bank, num);
    UploadNoHolder(a, bank);
    MissingAddressIsEmpty(a);
  }

  lemma UploadLeaves(a: Node, bank: string, num: string -> Option<real>)
    requires UploadShaped(a, bank)
    requires num("50000") == Some(50000.0) && num("0") == Some(0.0)
    ensures var e := Some(a);
      TextField(Get(e, "Subscriber_Name")) == Some(bank) &&
      TextField(Get(e, "Account_Number")) == Some("XXXX1234") &&
      TextField(Get(e, "Portfolio_Type")) == Some("") && TextField(Get(e, "Account_Type")) == Some("") &&
      TextField(Get(e, "Open_Date")) == Some("") && TextField(Get(e, "Date_Reported")) == Some("") &&
      SafeNum(Get(e, "Current_Balance"), num) == 50000.0 && SafeNum(Get(e, "Amount_Past_Due"), num) == 0.0
  {
    SafeNumCoercion(Get(Some(a), "Current_Balance"), num);
    SafeNumCoercion(Get(Some(a), "Amount_Past_Due"), num);
  }

  lemma UploadNoHolder(a: Node, bank: string)
    requires UploadShaped(a, bank)
    ensures HolderName(a) == ""
  {
  }

  /** The element's leaves give the upload test's account, with the bank name `bank`. */
  predicate AccountParts(a: Node, bank: string, num: string -> Option<real>) {
    var e := Some(a);
    TextField(Get(e, "Subscriber_Name")) == Some(bank) &&
    TextField(Get(e, "Account_Number")) == Some("XXXX1234") &&
    TextField(Get(e, "Portfolio_Type")) == Some("") && TextField(Get(e, "Account_Type")) == Some("") &&
    TextField(Get(e, "Open_Date")) == Some("") && TextField(Get(e, "Date_Reported")) == Some("") &&
    SafeNum(Get(e, "Current_Balance"), num) == 50000.0 && SafeNum(Get(e, "Amount_Past_Due"), num) == 0.0 &&
    HolderName(a) == "" && HolderAddress(a) == Some(EmptyAddress)
  }

  lemma MapAccountOfParts(a: Node, bank: string, num: string -> Option<real>)
    requires AccountParts(a, bank, num)
    ensures MapAccount(a, num) == Some(Account(Trim(bank), "XXXX1234", "", "", 50000.0, 0.0, "", "", "", EmptyAddress))
  {
  }

  /** The upload test's bank name has no surrounding whitespace, so `.trim()` keeps it. */
  lemma UploadBankTrimmed()
    ensures Trim("HDFC Bank") == "HDFC Bank"
  {
    var bank := "HDFC Bank";
    assert bank[0] == 'H' && bank[|bank| - 1] == 'k';
    assert "" + bank + "" == bank;
    TrimOfPadded("", bank, "");
  }

  // The upload test's document (Backend/tests/reportRoutes.test.js), as the XML parser
  // builds it: every element that occurs once becomes an object or its text.

  const UploadAccount := Obj(map[
    "Subscriber_Name" := Text("HDFC Bank"), "Account_Number" := Text("XXXX1234"),
    "Current_Balance" := Text("50000"), "Amount_Past_Due" := Text("0")])

  const UploadApplicant := Obj(map[
    "First_Name" := Text("Sagar"), "Last_Name" := Text("Ugle"), "MobilePhoneNumber" := Text("9999999999")])

  const UploadApplication := Obj(map["Current_Application_Details" := Obj(map["Current_Applicant_Details" := UploadApplicant])])

  const UploadProfile := Obj(map[
    "Current_Application" := UploadApplication,
    "SCORE" := Obj(map["BureauScore" := Text("745")]),
    "CAIS_Account" := Obj(map["CAIS_Account_DETAILS" := UploadAccount])])

  const UploadDocument := Obj(map[EnvelopeKey := UploadProfile])

  /** The account the test expects to be stored. */
  const UploadStoredAccount := Account("HDFC Bank", "XXXX1234", "", "", 50000.0, 0.0, "", "", "", EmptyAddress)

  /** The number parses the test's document needs. */
  predicate UploadNumbers(num: string -> Option<real>) {
    num("50000") == Some(50000.0) && num("0") == Some(0.0) && num("745") == Some(745.0)
  }

  lemma UploadProfileFound()
    ensures Profile(UploadDocument) == UploadProfile
  {
    assert Get(Some(UploadDocument), EnvelopeKey) == Some(UploadProfile);
  }

  lemma UploadAccountsFound()
    ensures DocumentAccounts(UploadDocument) == [UploadAccount]
  {
    UploadProfileFound();
    var cais := Obj(map["CAIS_Account_DETAILS" := UploadAccount]);
    assert Get(Some(UploadProfile), "CAIS_Account") == Some(cais);
    assert Get(Some(cais), "CAIS_Account_DETAILS") == Some(UploadAccount);
    assert Path(Some(UploadProfile), DetailsPath) == Path(Some(cais), ["CAIS_Account_DETAILS"]);
    assert Path(Some(cais), ["CAIS_Account_DETAILS"]) == Path(Some(UploadAccount), []);
  }

  lemma UploadAccountShaped()
    ensures UploadShaped(UploadAccount, "HDFC Bank")
  {
    var f := UploadAccount.fields;
    assert "Portfolio_Type" !in f && "Account_Type" !in f;
    assert "Open_Date" !in f && "Date_Reported" !in f;
    assert "CAIS_Holder_Details" !in f && "CAIS_Holder_Address_Details" !in f;
  }

  lemma UploadAccountsMapped(num: string -> Option<real>)
    requires UploadNumbers(num)
    ensures MapAccounts([UploadAccount], num) == Some([UploadStoredAccount])
  {
    UploadAccountShaped();
    UploadExampleAccount(UploadAccount, "HDFC Bank", num);
    UploadBankTrimmed();
    MapAllSingle(UploadAccount, UploadStoredAccount, AccountMapper(num));
  }

  lemma UploadPanEmpty()
    ensures FirstPan([UploadAccount]) == Text("")
  {
    var f := UploadAccount.fields;
    assert "CAIS_Holder_ID_Details" !in f && "CAIS_Holder_Details" !in f;
    assert PanCandidate(UploadAccount) == Text("");
    FirstPanEmpty([UploadAccount]);
  }

  lemma UploadSummaryZero(num: string -> Option<real>)
    ensures SummaryOf(Some(UploadProfile), num) == ZeroSummary
  {
    var cais := Obj(map["CAIS_Account_DETAILS" := UploadAccount]);
    assert Get(Some(UploadProfile), "CAIS_Account") == Some(cais);
    assert "CAIS_Summary" !in cais.fields;
    assert Path(Some(UploadProfile), SummaryPath) == Path(Get(Some(cais), "CAIS_Summary"), []);
    assert "TotalCAPS_Summary" !in UploadProfile.fields;
    assert Path(Some(UploadProfile), EnquiriesPath) == Path(None, ["TotalCAPSLast7Days"]);
    MissingSummaryDefaults(Some(UploadProfile), num);
  }

  lemma UploadApplicantFound()
    ensures Path(Some(UploadProfile), ApplicantPath) == Some(UploadApplicant)
  {
    var details := Obj(map["Current_Applicant_Details" := UploadApplicant]);
    assert Get(Some(UploadProfile), "Current_Application") == Some(UploadApplication);
    assert Get(Some(UploadApplication), "Current_Application_Details") == Some(details);
    assert Path(Some(UploadProfile), ApplicantPath) == Path(Some(UploadApplication), ApplicantPath[1..]);
    assert ApplicantPath[1..][1..] == ["Current_Applicant_Details"];
    assert Path(Some(UploadApplication), ApplicantPath[1..]) == Path(Some(details), ["Current_Applicant_Details"]);
    assert Path(Some(details), ["Current_Applicant_Details"]) == Path(Some(UploadApplicant), []);
  }

  lemma UploadScoreFound()
    ensures Path(Some(UploadProfile), ScorePath) == Some(Text("745"))
  {
    var score := Obj(map["BureauScore" := Text("745")]);
    assert Get(Some(UploadProfile), "SCORE") == Some(score);
    assert Path(Some(UploadProfile), ScorePath) == Path(Some(score), ["BureauScore"]);
    assert Path(Some(score), ["BureauScore"]) == Path(Some(Text("745")), []);
  }

  /** The report `Assemble` builds once each of its parts is known. */
  lemma AssembleFromParts(profile: Option<Node>, accts: seq<Node>, num: string -> Option<real>,
                          basic: Basic, summary: Summary, accounts: seq<Account>, score: real)
    requires var applicant := Path(profile, ApplicantPath);
             TextField(Get(applicant, "First_Name")) == Some(basic.firstName) &&
             TextField(Get(applicant, "Last_Name")) == Some(basic.lastName) &&
             TextField(Get(applicant, "MobilePhoneNumber")) == Some(basic.mobile)
    requires FirstPan(accts) == Text(basic.pan)
    requires MapAccounts(accts, num) == Some(accounts)
    requires SummaryOf(profile, num) == summary
    requires SafeNum(Path(profile, ScorePath), num) == score
    ensures Assemble(profile, accts, num) == Success(Report(basic, summary, accounts, score))
  {
  }

  lemma UploadApplicantFields()
    ensures var applicant := Path(Some(UploadProfile), ApplicantPath);
            TextField(Get(applicant, "First_Name")) == Some("Sagar") &&
            TextField(Get(applicant, "Last_Name")) == Some("Ugle") &&
            TextField(Get(applicant, "MobilePhoneNumber")) == Some("9999999999")
  {
    UploadApplicantFound();
    var applicant := Some(UploadApplicant);
    assert Get(applicant, "First_Name") == Some(Text("Sagar"));
    assert Get(applicant, "Last_Name") == Some(Text("Ugle"));
    assert Get(applicant, "MobilePhoneNumber") == Some(Text("9999999999"));
  }

  lemma UploadAssembled(num: string -> Option<real>)
    requires UploadNumbers(num)
    ensures Assemble(Some(UploadProfile), [UploadAccount], num) ==
      Success(Report(Basic("Sagar", "Ugle", "9999999999", ""), ZeroSummary, [UploadStoredAccount], 745.0))
  {
    UploadApplicantFields();
    UploadScoreFound();
    SafeNumCoercion(Some(Text("745")), num);
    UploadSummaryZero(num);
    UploadPanEmpty();
    UploadAccountsMapped(num);
    AssembleFromParts(Some(UploadProfile), [UploadAccount], num,
      Basic("Sagar", "Ugle", "9999999999", ""), ZeroSummary, [UploadStoredAccount], 745.0);
  }

  /**
   * The upload test's whole document: the applicant's names and mobile, no PAN, zero
   * counters, the one HDFC Bank account and score 745.
   */
  lemma UploadDocumentReport(num: string -> Option<real>)
    requires UploadNumbers(num)
    ensures Normalize(UploadDocument, num) ==
      Success(Report(Basic("Sagar", "Ugle", "9999999999", ""), ZeroSummary, [UploadStoredAccount], 745.0))
  {
    UploadProfileFound();
    UploadAccountsFound();
    UploadAccountShaped();
    assert !BankThrows(UploadAccount);
    assert !AnyBankThrows([UploadAccount]);
    UploadAssembled(num);
  }
}
