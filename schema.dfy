/**
  The structured analysis object the language model returns (app/actions.ts,
  `EvidenceSchema` and `AnalysisSchema`), as the client-side scoring code sees it.
  Every section and every flag is optional: the scoring code reaches them through
  optional chaining, so an absent one reads as `undefined`.
 */
module Schema {
  import opened Wrappers

  /** One yes/no determination with the quote the model cited for it. */
  datatype Evidence = Evidence(value: bool, quote: string)

  /** An evidence key of a section; `None` when the key is missing. */
  type Flag = Option<Evidence>

  /** The four tool types of the classification enum. */
  datatype ToolType = TypeA | TypeB | TypeC | TypeU

  datatype Classification = Classification(toolType: ToolType, reasoning: string)

  datatype CoppaSection = CoppaSection(noSelling: Flag, schoolConsent: Flag, educationalUse: Flag)

  datatype FerpaSection = FerpaSection(
    districtControl: Flag, limitedSharing: Flag, breachNotice: Flag, deletionPolicy: Flag)

  datatype CipaSection = CipaSection(hasModeration: Flag, noAiTraining: Flag, noThirdPartyAds: Flag)

  datatype Analysis = Analysis(
    isNotAPrivacyDoc: bool,
    classification: Option<Classification>,
    coppa: Option<CoppaSection>,
    ferpa: Option<FerpaSection>,
    cipa: Option<CipaSection>)

  /** `flag?.value` is truthy: the key is present and its value is `true`. */
  predicate Holds(f: Flag) {
    f.Some? && f.value.value
  }

  /** `scan.coppa?.k` reads `undefined` for every key `k` when the section is absent. */
  function CoppaOf(scan: Analysis): CoppaSection {
    if scan.coppa.Some? then scan.coppa.value else CoppaSection(None, None, None)
  }

  function FerpaOf(scan: Analysis): FerpaSection {
    if scan.ferpa.Some? then scan.ferpa.value else FerpaSection(None, None, None, None)
  }

  function CipaOf(scan: Analysis): CipaSection {
    if scan.cipa.Some? then scan.cipa.value else CipaSection(None, None, None)
  }

  /** `scan.classification?.type` */
  function TypeOf(scan: Analysis): Option<ToolType> {
    if scan.classification.Some? then Some(scan.classification.value.toolType) else None
  }

  /** `scan.classification?.reasoning` */
  function SummaryOf(scan: Analysis): Option<string> {
    if scan.classification.Some? then Some(scan.classification.value.reasoning) else None
  }
}
