/** The onboarding questionnaire: a partial record of answers, any field
    updated at a time, submitted to the store once the four required answers
    are given. */
module OnboardingForm {
  import opened Seqs
  import opened Types
  import opened AppStore

  const InvestmentAmounts: seq<string> := [
    "$100,000 - $500,000", "$500,000 - $1,000,000", "$1,000,000 - $5,000,000",
    "$5,000,000 - $10,000,000", "$10,000,000+"]
  const ExpectedYields: seq<string> := ["3-5%", "5-8%", "8-12%", "12%+"]
  const InvestmentPeriodsZh: seq<string> := [
    "1-3\U{4E2A}\U{6708}", "3-6\U{4E2A}\U{6708}", "6-12\U{4E2A}\U{6708}", "12\U{4E2A}\U{6708}\U{4EE5}\U{4E0A}"]
  const InvestmentPeriodsEn: seq<string> := ["1-3 months", "3-6 months", "6-12 months", "12+ months"]
  const WalletPlatforms: seq<string> := [
    "MetaMask", "Fireblocks", "Coinbase Custody", "BitGo", "Anchorage",
    "\U{5176}\U{4ED6}\U{6258}\U{7BA1}\U{5E73}\U{53F0}"]

  /** The period choices in the interface language. */
  function Periods(language: Language): (r: seq<string>)
    ensures |r| == 4
    ensures language == Zh ==> r == InvestmentPeriodsZh
    ensures language == En ==> r == InvestmentPeriodsEn
  {
    if language == Zh then InvestmentPeriodsZh else InvestmentPeriodsEn
  }

  /** JavaScript truthiness of an answer: a non-empty text, or a set switch. */
  predicate Truthy(v: InfoValue) {
    match v
    case Text(s) => s != ""
    case Flag(b) => b
  }

  /** The answer under `field` is present and truthy. */
  predicate Answered(formData: InstitutionInfo, field: InfoField) {
    field in formData && Truthy(formData[field])
  }

  /** The four answers the submit button waits for. */
  predicate Required(field: InfoField) {
    field.CompanyName? || field.ExpectedInvestment? || field.ExpectedYield? || field.InvestmentPeriod?
  }

  /** `canSubmit`: company name, investment amount, yield and period all given. */
  predicate CanSubmit(formData: InstitutionInfo) {
    && Answered(formData, CompanyName)
    && Answered(formData, ExpectedInvestment)
    && Answered(formData, ExpectedYield)
    && Answered(formData, InvestmentPeriod)
  }

  /** The form as it opens: only the wallet switch, off. */
  const InitialFormData: InstitutionInfo := map[HasOwnWallet := Flag(false)]

  /** The wallet switch and platform never decide whether the form can be sent,
      and an empty form cannot be. */
  lemma CanSubmitIgnoresWallet(formData: InstitutionInfo, v: InfoValue)
    ensures CanSubmit(formData[HasOwnWallet := v]) == CanSubmit(formData)
    ensures CanSubmit(formData[WalletPlatform := v]) == CanSubmit(formData)
    ensures !CanSubmit(InitialFormData)
  {
  }

  /** Filling the four required answers with non-empty text, in any order,
      makes the form submittable; emptying any of them makes it not. */
  lemma CanSubmitAfterFilling(formData: InstitutionInfo, company: string, amount: string, yieldRange: string, period: string)
    requires company != "" && amount != "" && yieldRange != "" && period != ""
    ensures CanSubmit(formData[CompanyName := Text(company)][ExpectedInvestment := Text(amount)]
                              [ExpectedYield := Text(yieldRange)][InvestmentPeriod := Text(period)])
    ensures forall f :: Required(f) ==> !CanSubmit(formData[f := Text("")])
  {
  }

  class Form {
    var formData: InstitutionInfo

    constructor ()
      ensures formData == InitialFormData
    {
      formData := InitialFormData;
    }

    /** `updateField`: sets one answer and keeps the others. */
    method UpdateField(field: InfoField, value: InfoValue)
      modifies this`formData
      ensures formData == old(formData)[field := value]
      ensures field in formData && formData[field] == value
      ensures forall f :: f != field ==> (f in formData <==> f in old(formData))
      ensures forall f :: f != field && f in formData ==> formData[f] == old(formData)[f]
    {
      formData := formData[field := value];
    }

    /** `handleSubmit`: stores the answers as given, switch and platform
        included, and marks the institution onboarded, only when `CanSubmit`. */
    method HandleSubmit(store: Store)
      modifies store`isOnboarded, store`institutionInfo
      ensures CanSubmit(formData) ==> store.isOnboarded && store.institutionInfo == Some(formData)
      ensures !CanSubmit(formData) ==>
        store.isOnboarded == old(store.isOnboarded) && store.institutionInfo == old(store.institutionInfo)
    {
      if CanSubmit(formData) {
        store.SetOnboarded(formData);
      }
    }
  }
}
