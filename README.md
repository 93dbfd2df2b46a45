# Credit report normalizer and report pages, in Dafny

This project models the core of a credit-report service.

- **Backend: `mapXmlToReport`.** It takes the object tree parsed from an
  Experian-style XML profile and produces the stored report. The report holds:
  - the applicant's basic details (names, mobile, PAN);
  - seven summary counters;
  - the tradeline accounts, in document order;
  - the bureau score.
- **Frontend: the report pages.** These work on stored reports:
  - the detail page's credit-card / loan split, account status and address line;
  - the list page's live search and its removal of a deleted report.

Modules:

- `ParsedTree` (tree.dfy) is the parsed document: objects, arrays and text. It
  also defines the JavaScript operations the mapper applies to it:
  - optional chaining;
  - truthiness and `||`;
  - `String()`;
  - the String cast of the stored report.
- `ReportModel` (report.dfy) is the stored report.
- `Strings` and `Seqs` define:
  - `trim`, `toUpperCase`, `toLowerCase`, `includes` and `join`;
  - `filter`, and a `map` whose elements can fail.
- `Mapper` (mapper.dfy) holds the mapper's pieces:
  - `Normalize` states the whole result declaratively.
  - `MapXmlToReport` is the mapper's own pass over the accounts: each account runs the callback, which may set the shared `basic.pan` accumulator and then maps the account (`MapAccountsWithPan`, `AccountCallback`). `MapXmlToReport` is proved to compute `Normalize`.
- `MapperProperties` (mapper_properties.dfy) covers whole documents: defaults, account order, the PAN, the optional envelope, and the upload example.
- `ReportDetail` and `ReportList` are the two pages.

How JavaScript behaviour is modelled:

- **Numbers.** JavaScript's string-to-number parsing is the parameter `num`. `None` stands for NaN and ±Infinity. Numbers are exact reals.
- **Errors.** The model distinguishes two ways a document gives no report:
  - `BankNotText`: the subscriber name is an object or an array, so `.trim()` throws inside the mapper. This error takes precedence.
  - `FieldNotText`: another string field holds an object or an array, so the report's String cast refuses it when the report is saved.

  A third refusal at save time, the schema's `min: 0` on the score, is left out (see below): a document whose score parses to a negative number still gives a report here.

The summary counters and the account amounts are not clamped: `safeNum` (Backend/src/utils/mapper.js:10-13) returns any finite parse unchanged, negative values included. `SafeNumCoercion` and `ReportNumbersByLeaf` state exactly that.

The detail page's `formatAddress` returns "-" only when the address is missing or the empty string. The mapper always stores an address record, so an account without address details shows an empty line rather than "-" (`ReportDetail.MissingHolderAddressRendersEmpty`).

## Model

| member | source | states |
|---|---|---|
| Mapper.SafeNumCoercion | Backend/src/utils/mapper.js:10-13 | `safeNum` returns a finite parse unchanged, negative or not; an absent value, an object or a non-finite parse gives exactly 0 |
| Mapper.EnvelopeFallback | Backend/src/utils/mapper.js:2 | the profile is the `INProfileResponse` value when that is truthy, otherwise the root itself |
| Mapper.AccountListCoercion | Backend/src/utils/mapper.js:35-41 | an array of details is used as is; a single object becomes a one-element list; absent or falsy details give the empty list; anything but an array gives at most one element |
| Mapper.AccountListIdempotent | Backend/src/utils/mapper.js:35-41 | coercing an already coerced list changes nothing |
| Mapper.PanCandidatePriority | Backend/src/utils/mapper.js:48-49 | the identifier-details PAN wins over the holder-details PAN; with neither, the candidate is "" |
| Mapper.FirstPanIsCandidate | Backend/src/utils/mapper.js:48-51 | the accumulated PAN is "" or the candidate of one of the document's own accounts |
| Mapper.FirstPanStep | Backend/src/utils/mapper.js:51 | one more account sets the PAN to its candidate only when the candidate is truthy and the PAN still empty |
| Mapper.FirstPanEmpty | Backend/src/utils/mapper.js:48-51 | the PAN is "" exactly when no account has a truthy candidate |
| Mapper.FirstPanIsEarliest | Backend/src/utils/mapper.js:48-51 | the PAN is the candidate of the first account in document order that has one |
| Mapper.FirstPanKept | Backend/src/utils/mapper.js:51 | once the PAN is set, later accounts never overwrite it |
| Mapper.HolderNameCases | Backend/src/utils/mapper.js:53-59 | the holder name is the present name parts joined by one space, then trimmed; "" when both are missing |
| Mapper.HolderNameOfPlainNames | Backend/src/utils/mapper.js:53-59 | two names without outer whitespace give exactly first + " " + surname |
| Mapper.MissingAddressIsEmpty | Backend/src/utils/mapper.js:44-69 | an account without address details gets the address whose six fields are all "" |
| Mapper.HolderAddress | Backend/src/utils/mapper.js:62-69 | the address record exists exactly when its six leaves are text or absent, and then each of line1, line2, city, state, postal code and country is its own leaf as text |
| Mapper.MapAccountSucceeds | Backend/src/utils/mapper.js:62-82 | an element maps exactly when its bank name does not throw and its eleven other string leaves are text or absent |
| Mapper.MapAccount | Backend/src/utils/mapper.js:72 | an account whose subscriber name is an object or an array cannot be mapped |
| Mapper.MapAccountFields | Backend/src/utils/mapper.js:62-82 | each string field of a mapped account is its source leaf as text, "" when absent or empty; the bank is trimmed; both amounts go through `safeNum`; the holder name is as above and the address is `HolderAddress`, field by field |
| Mapper.MapAccountsInOrder | Backend/src/utils/mapper.js:42-83 | the account list exists exactly when every element maps; element i of the account list is the mapping of source element i, with the same length |
| Mapper.Normalize | Backend/src/utils/mapper.js:1-89 | the mapper throws exactly when some account's subscriber name is an object or an array; a report has one account per account element |
| Mapper.Assemble | Backend/src/utils/mapper.js:16-88 | without a throwing bank name the result is a report or a refused cast, never the mapper's throw, and has one account per element |
| Mapper.AssembleSucceeds | Backend/src/utils/mapper.js:16-88 | without a throwing bank name, the report exists exactly when the three applicant leaves, the accumulated PAN and every account's string leaves are text or absent |
| Mapper.MapAccountsWithPan | Backend/src/utils/mapper.js:42-83 | the pass over the accounts throws exactly when some bank name throws; otherwise its PAN is `FirstPan` and its accounts are the mapping of every element in order |
| Mapper.AccountCallback | Backend/src/utils/mapper.js:42-82 | one callback run backfills the PAN, throws exactly at a non-text bank name, and otherwise returns the mapped account |
| Mapper.MapXmlToReport | Backend/src/utils/mapper.js:1-89 | the mapper's single pass computes exactly `Normalize` |
| MapperProperties.EmptyDocumentDefaults | Backend/src/utils/mapper.js:1-89 | a document with no known sections gives empty names, mobile and PAN, zero counters, no accounts and score 0 |
| MapperProperties.NoAccountElement | Backend/src/utils/mapper.js:35-41 | without account details the mapper cannot throw, and the report has no accounts and an empty PAN |
| MapperProperties.MissingApplicantDefaults | Backend/src/utils/mapper.js:4-19 | missing applicant details give empty first name, last name and mobile |
| MapperProperties.MissingSummaryDefaults | Backend/src/utils/mapper.js:7-32 | missing summary and enquiry sections give seven zero counters |
| MapperProperties.ReportNumbersByLeaf | Backend/src/utils/mapper.js:10-86 | each of the report's seven counters and its score is 0 when its leaf is absent or an object, and for a text leaf its finite parse, negative included, else 0 |
| MapperProperties.ReportApplicantByLeaf | Backend/src/utils/mapper.js:4-19 | the report's first name, last name and mobile are "" when their leaf is missing or empty, and the leaf's text otherwise, whether or not the rest of the applicant section is there |
| MapperProperties.AccountAddressByLeaf | Backend/src/utils/mapper.js:62-69 | each of a mapped account's six address fields is "" when its leaf is missing or empty and the leaf's text otherwise, whatever the other leaves hold |
| MapperProperties.ReportExists | Backend/src/utils/mapper.js:1-89 | a document gives a report exactly when the applicant's three leaves, the accumulated PAN and every account's twelve string leaves are text or absent |
| MapperProperties.SuccessfulReport | Backend/src/utils/mapper.js:42-88 | a report has one account per element, account i is the mapping of element i, and its PAN is the accumulated PAN as text |
| MapperProperties.ReportPanEmpty | Backend/src/utils/mapper.js:48-51 | the report's PAN is "" exactly when no account element has a PAN candidate |
| MapperProperties.EnvelopeOptional | Backend/src/utils/mapper.js:2 | a profile wrapped in the `INProfileResponse` envelope maps like the bare profile |
| MapperProperties.SingleAccountElement | Backend/src/utils/mapper.js:35-41 | a single account element that is not in an array yields exactly one account |
| MapperProperties.UploadExampleAccount | Backend/tests/reportRoutes.test.js:43-50 | the upload test's account element maps to the trimmed bank, number "XXXX1234", balances 50000 and 0, "" elsewhere and the empty address |
| MapperProperties.UploadBankTrimmed | Backend/src/utils/mapper.js:72 | the upload test's bank name "HDFC Bank" has no outer whitespace, so `.trim()` keeps it |
| MapperProperties.UploadDocumentReport | Backend/tests/reportRoutes.test.js:31-52 | the upload test's whole document gives the report with names Sagar Ugle, mobile 9999999999, no PAN, zero counters, the one HDFC Bank account (number XXXX1234, balance 50000, nothing past due, empty address) and score 745, given that `Number` reads "50000", "0" and "745" as those numbers |
| ReportDetail.CreditCardAccounts | Frontend/src/pages/ReportDetail.jsx:31-36 | the credit-card table holds exactly the report's accounts that are credit cards |
| ReportDetail.LoanAccounts | Frontend/src/pages/ReportDetail.jsx:38-43 | the loan table holds exactly the report's accounts that pass the loan test |
| ReportDetail.LoanIsNotCreditCard | Frontend/src/pages/ReportDetail.jsx:31-43 | an account passes the loan test exactly when it is not a credit card |
| ReportDetail.CardsAndLoansPartition | Frontend/src/pages/ReportDetail.jsx:31-43 | the two tables partition the accounts: no account is in both, the multisets add up to the report's accounts, and the lengths sum to the account count |
| ReportDetail.TablesKeepOrder | Frontend/src/pages/ReportDetail.jsx:31-43 | both tables are order-preserving subsequences of the account list |
| ReportDetail.CreditCardCases | Frontend/src/pages/ReportDetail.jsx:33-35 | an account is a credit card exactly when its trimmed portfolio is "r" or "R", or its trimmed account type is 10, 11, 12 or 13 |
| ReportDetail.PaddedLowerCasePortfolioIsCard | Frontend/src/pages/ReportDetail.jsx:33-35 | portfolio " r " makes a credit card whatever the account type |
| ReportDetail.CardByAccountTypeAlone | Frontend/src/pages/ReportDetail.jsx:33-35 | an empty portfolio with account type "11" is a credit card |
| ReportDetail.Status | Frontend/src/pages/ReportDetail.jsx:46 | the status is "Active" exactly when the current balance is positive, and "Closed" otherwise |
| ReportDetail.UnreadableBalanceIsClosed | Frontend/src/pages/ReportDetail.jsx:46 | an account whose current balance is missing or unreadable shows as "Closed" |
| ReportDetail.FormatAddress | Frontend/src/pages/ReportDetail.jsx:137-150 | a missing or empty value gives "-"; a string is returned as is; a record gives its non-empty fields joined by ", " |
| ReportDetail.FormatAddressEmpty | Frontend/src/pages/ReportDetail.jsx:139-150 | a record renders as "", never "-", exactly when all six fields are empty |
| ReportDetail.FormatAddressShowsFields | Frontend/src/pages/ReportDetail.jsx:141-150 | every non-empty field occurs in the rendered line |
| ReportDetail.FormatAddressCityOnly | Frontend/src/pages/ReportDetail.jsx:141-150 | a record with only a city renders as that city, with no separator |
| ReportDetail.MissingHolderAddressRendersEmpty | Frontend/src/pages/ReportDetail.jsx:139-150 | an account element without address details renders its address as "" |
| ReportList.FilteredReports | Frontend/src/pages/ReportList.jsx:39-45 | a report is kept exactly when the lower-cased term occurs in its lower-cased full name or PAN |
| ReportList.SearchKeepsOrder | Frontend/src/pages/ReportList.jsx:39 | the search result is an order-preserving subsequence of the reports |
| ReportList.EmptySearchShowsAll | Frontend/src/pages/ReportList.jsx:41-44 | an empty term keeps every report |
| ReportList.SearchIgnoresCase | Frontend/src/pages/ReportList.jsx:42-44 | a term, its upper-cased form and its lower-cased form select the same reports |
| ReportList.LongerTermNarrows | Frontend/src/pages/ReportList.jsx:39-45 | a report kept for a longer term is kept for any prefix of it |
| ReportList.PanMatchKept | Frontend/src/pages/ReportList.jsx:44 | a report whose PAN contains the term, in any case, is kept |
| ReportList.DeleteReport | Frontend/src/pages/ReportList.jsx:31 | after a delete no report has the id, and every report with another id is kept |
| ReportList.DeleteRemovesOnlyThatId | Frontend/src/pages/ReportList.jsx:31 | a delete keeps every other report as often as before |
| ReportList.DeleteKeepsOrder | Frontend/src/pages/ReportList.jsx:31 | the remaining reports keep their order |
| ReportList.DeleteAbsentId | Frontend/src/pages/ReportList.jsx:31 | deleting an id that is not listed changes nothing |
| ReportList.DeleteIdempotent | Frontend/src/pages/ReportList.jsx:31 | deleting the same id twice is deleting it once |
| ReportList.DeleteUniqueId | Frontend/src/pages/ReportList.jsx:31 | with distinct ids, deleting report k's id removes exactly entry k |

## Left out

- XML parsing is not modelled: the model starts from the parsed tree. Also left out: the HTTP routes, the upload handling, the database calls, server setup and logging. These are I/O.
- The string syntax of JavaScript `Number()` is not modelled. It is the parameter `num`, because parsing number strings is outside the core.
- Floating point is not modelled; numbers are exact reals.
- `formatCurrency` is not modelled, because it is locale-dependent number formatting.
- `trim`, `toUpperCase` and `toLowerCase` are modelled over ASCII only. Unicode whitespace and case mapping are left out.
- Keys that JavaScript objects inherit, such as `constructor` or `toString`, are not modelled: a lookup finds only the fields the parser created.
- `FieldNotText` does not model mongoose's casting rules in detail. It refuses every object or array in a string field; the schema itself (Backend/src/models/report.model.js) is not part of this model.
- The schema's `min: 0` check on the score is not modelled. It runs when the report is saved, not in the mapper, so the model does not claim the mapper's score is non-negative.
- The detail page's `accounts = []` default and the list page's `pan?.` are not modelled. A stored report always has an account list and a string PAN, so both are unreachable for the reports these pages receive.
- The React state, effects, confirmation dialogs and table markup of both pages are not modelled; they are UI.
