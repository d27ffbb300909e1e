/**
 * Menu descriptors: the JSON records the server returns to the PBX. The
 * spoken text is opaque and left out; what is kept is what steers the call:
 * the kind of prompt, its name (the PBX reports the answer under this name),
 * the keys it accepts, the length bounds of a digit entry, the skip key and
 * the value sent when the caller skips, and the document number a
 * success prompt reads out.
 */
module Menus {
  import opened Wrappers
  import opened Digits

  datatype Kind = SimpleMenu | GetDTMF | Record

  datatype Menu = Menu(
    kind: Kind,
    name: string,
    enabledKeys: Option<string>,
    activatedKeys: string,
    minLen: Option<int>,
    maxLen: Option<int>,
    skipKey: Option<string>,
    skipValue: Option<string>,
    docNumber: Option<string>)

  const DigitKeys := "0,1,2,3,4,5,6,7,8,9"
  const DigitOrSkipKeys := "0,1,2,3,4,5,6,7,8,9,#"
  const BirthYearPrefix := "child_birth_year_"
  /** Read out when the provider's answer carries no document number. */
  const NotAvailable := "לא זמין"

  /**
   * The shape every descriptor the server builds has: a choice menu enables
   * exactly the keys its prompt activates and has no length bounds; a digit
   * entry or a recording has bounds `min <= max` and no enabled-key list;
   * a skip key always comes with the value sent on skipping.
   */
  predicate WellFormed(m: Menu)
  {
    && m.name != []
    && (m.kind == SimpleMenu ==>
          m.enabledKeys == Some(m.activatedKeys) && m.minLen.None? && m.maxLen.None?)
    && (m.kind != SimpleMenu ==>
          m.enabledKeys.None? && m.minLen.Some? && m.maxLen.Some? && 0 <= m.minLen.value <= m.maxLen.value)
    && (m.skipKey.Some? <==> m.skipValue.Some?)
  }

  function Choice(name: string, keys: string): Menu
  {
    Menu(SimpleMenu, name, Some(keys), keys, None, None, None, None, None)
  }

  function DigitEntry(name: string, min: int, max: int): Menu
  {
    Menu(GetDTMF, name, None, DigitKeys, Some(min), Some(max), None, None, None)
  }

  function NewCustomerMenu(): (m: Menu)
    ensures WellFormed(m) && m.kind == SimpleMenu && m.enabledKeys == Some("1,2")
    ensures m.name == "newCustomer"
  {
    Choice("newCustomer", "1,2")
  }

  function SubscriptionRenewalMenu(): (m: Menu)
    ensures WellFormed(m) && m.kind == SimpleMenu && m.enabledKeys == Some("1,2")
    ensures m.name == "renewSubscription"
  {
    Choice("renewSubscription", "1,2")
  }

  function MainMenu(): (m: Menu)
    ensures WellFormed(m) && m.kind == SimpleMenu && m.enabledKeys == Some("1,2,3,4,5,6,0")
    ensures m.name == "mainMenu"
  {
    Choice("mainMenu", "1,2,3,4,5,6,0")
  }

  function CreateReceiptMenu(): (m: Menu)
    ensures WellFormed(m) && m.kind == GetDTMF && m.minLen == Some(1) && m.maxLen == Some(7)
    ensures m.name == "receiptAmount"
  {
    DigitEntry("receiptAmount", 1, 7)
  }

  function CancelReceiptMenu(): (m: Menu)
    ensures WellFormed(m) && m.kind == GetDTMF && m.minLen == Some(1) && m.maxLen == Some(10)
    ensures m.name == "cancelReceiptId"
  {
    DigitEntry("cancelReceiptId", 1, 10)
  }

  function UpdatePersonalDetailsMenu(): (m: Menu)
    ensures WellFormed(m) && m.kind == GetDTMF && m.minLen == Some(1) && m.maxLen == Some(2)
    ensures m.name == "numChildren"
  {
    DigitEntry("numChildren", 1, 2)
  }

  function ShowBenefitsMenu(): (m: Menu)
    ensures WellFormed(m) && m.kind == SimpleMenu && m.enabledKeys == Some("1,0")
    ensures m.name == "benefitsMenu"
  {
    Choice("benefitsMenu", "1,0")
  }

  function LeaveMessageMenu(): (m: Menu)
    ensures WellFormed(m) && m.kind == Record && m.minLen == Some(3) && m.maxLen == Some(180)
    ensures m.name == "customerMessage"
  {
    Menu(Record, "customerMessage", None, "NONE", Some(3), Some(180), None, None, None)
  }

  function AnnualReportMenu(): (m: Menu)
    ensures WellFormed(m) && m.kind == SimpleMenu && m.enabledKeys == Some("1,0")
    ensures m.name == "annualReport"
  {
    Choice("annualReport", "1,0")
  }

  function SystemErrorMenu(): (m: Menu)
    ensures WellFormed(m) && m.kind == SimpleMenu && m.enabledKeys == Some("0")
    ensures m.name == "systemError"
  {
    Choice("systemError", "0")
  }

  function NewCustomerIdPrompt(): (m: Menu)
    ensures WellFormed(m) && m.kind == GetDTMF && m.minLen == Some(8) && m.maxLen == Some(10)
    ensures m.name == "newCustomerID"
  {
    DigitEntry("newCustomerID", 8, 10)
  }

  function OwnerAgePrompt(): (m: Menu)
    ensures WellFormed(m) && m.kind == GetDTMF && m.minLen == Some(1) && m.maxLen == Some(2)
    ensures m.name == "ownerAge"
  {
    DigitEntry("ownerAge", 1, 2)
  }

  function GenderMenu(): (m: Menu)
    ensures WellFormed(m) && m.kind == SimpleMenu && m.enabledKeys == Some("1,2")
    ensures m.name == "gender"
  {
    Choice("gender", "1,2")
  }

  function ClientPhonePrompt(): (m: Menu)
    ensures WellFormed(m) && m.kind == GetDTMF && m.minLen == Some(9) && m.maxLen == Some(11)
    ensures m.name == "clientPhone"
  {
    DigitEntry("clientPhone", 9, 11)
  }

  function InvalidAmountMenu(): (m: Menu)
    ensures WellFormed(m) && m.kind == SimpleMenu && m.enabledKeys == Some("1,0")
    ensures m.name == "invalidAmount"
  {
    Choice("invalidAmount", "1,0")
  }

  function ClientIdPrompt(): (m: Menu)
    ensures WellFormed(m) && m.kind == GetDTMF && m.minLen == Some(0) && m.maxLen == Some(10)
    ensures m.skipKey == Some("#") && m.skipValue == Some("")
    ensures m.name == "clientIdNumber"
  {
    Menu(GetDTMF, "clientIdNumber", None, DigitOrSkipKeys, Some(0), Some(10), Some("#"), Some(""), None)
  }

  function SaveContactMenu(): (m: Menu)
    ensures WellFormed(m) && m.kind == SimpleMenu && m.enabledKeys == Some("1,2")
    ensures m.name == "saveContactChoice"
  {
    Choice("saveContactChoice", "1,2")
  }

  function DescriptionPrompt(): (m: Menu)
    ensures WellFormed(m) && m.kind == GetDTMF && m.minLen == Some(1) && m.maxLen == Some(20)
    ensures m.skipKey == Some("#") && m.skipValue == Some("NO_DESCRIPTION")
    ensures m.name == "receiptDescription"
  {
    Menu(GetDTMF, "receiptDescription", None, DigitOrSkipKeys, Some(1), Some(20), Some("#"), Some("NO_DESCRIPTION"), None)
  }

  /** The success prompt reads out the provider's document number, or a placeholder. */
  function ReceiptSuccessMenu(docNum: Option<string>): (m: Menu)
    ensures WellFormed(m) && m.kind == SimpleMenu && m.enabledKeys == Some("0")
    ensures docNum.Some? ==> m.docNumber == docNum
    ensures docNum.None? ==> m.docNumber == Some(NotAvailable)
    ensures m.name == "receiptSuccess"
  {
    Menu(SimpleMenu, "receiptSuccess", Some("0"), "0", None, None, None, None,
         Some(if docNum.Some? then docNum.value else NotAvailable))
  }

  function ReceiptFailedMenu(): (m: Menu)
    ensures WellFormed(m) && m.kind == SimpleMenu && m.enabledKeys == Some("1,0")
    ensures m.name == "receiptFailed"
  {
    Choice("receiptFailed", "1,0")
  }

  /** The prompt for the k-th child's birth year, named `child_birth_year_<k>`. */
  function BirthYearPrompt(k: int): (m: Menu)
    ensures WellFormed(m) && m.kind == GetDTMF && m.minLen == Some(4) && m.maxLen == Some(4)
    ensures m.name == BirthYearPrefix + IntToString(k)
    ensures StartsWith(m.name, BirthYearPrefix)
    ensures m.name[|BirthYearPrefix|..] == IntToString(k)
  {
    var name := BirthYearPrefix + IntToString(k);
    assert name[..|BirthYearPrefix|] == BirthYearPrefix;
    DigitEntry(name, 4, 4)
  }

  /** `ask_spouse_workplaces`: the prompt named `spouse<n>_workplaces`. */
  function SpouseWorkplacesPrompt(spouse: int): (m: Menu)
    ensures WellFormed(m) && m.kind == GetDTMF && m.minLen == Some(1) && m.maxLen == Some(2)
    ensures m.name == "spouse" + IntToString(spouse) + "_workplaces"
  {
    DigitEntry("spouse" + IntToString(spouse) + "_workplaces", 1, 2)
  }

  function DetailsUpdatedMenu(): (m: Menu)
    ensures WellFormed(m) && m.kind == SimpleMenu && m.enabledKeys == Some("0")
    ensures m.name == "detailsUpdated"
  {
    Choice("detailsUpdated", "0")
  }

  function MessageReceivedMenu(): (m: Menu)
    ensures WellFormed(m) && m.kind == SimpleMenu && m.enabledKeys == Some("0")
    ensures m.name == "messageReceived"
  {
    Choice("messageReceived", "0")
  }

  function ReportRequestedMenu(): (m: Menu)
    ensures WellFormed(m) && m.kind == SimpleMenu && m.enabledKeys == Some("0")
    ensures m.name == "reportRequested"
  {
    Choice("reportRequested", "0")
  }

  function InvalidChoiceMenu(): (m: Menu)
    ensures WellFormed(m) && m.kind == SimpleMenu && m.enabledKeys == Some("0")
    ensures m.name == "invalidChoice"
  {
    Choice("invalidChoice", "0")
  }
}
