# Policy checker scoring engine, in Dafny

This project models the deterministic core of a web tool that grades a vendor's
privacy policy against three US student-data laws (COPPA, FERPA, CIPA). A hosted
language model reads the policy and returns a structured analysis: a tool-type
classification and yes/no evidence flags, each with a quote. The page then scores
that analysis itself with `computeReport`. This model covers that scoring engine,
the page's gate in front of it, and the two pure helpers of the result card: the
card's colour and the label shown for each evidence key.

- `wrappers.dfy`: `Option` and `Result`.
- `schema.dfy` (module `Schema`): the analysis object of `AnalysisSchema`
  (app/actions.ts:15-46). Every section, every flag and the classification is
  optional, because the scoring code reaches them through optional chaining and an
  absent one reads as `undefined`; `Holds` is "`flag?.value` is truthy".
- `scoring.dfy` (module `Scoring`): `computeReport` (app/page.tsx:12-78).
  `GetStatus`, `CoppaScore`, `FerpaScore`, `CipaFor`, `ReportOf` and `ReportFor`
  specify the result as weighted sums and a case split on the tool type.
  `ComputeReport` is the engine as the source writes it: mutable locals, `+=`, and
  the CIPA fields reassigned along the if/else chain. Its contract proves that it
  returns exactly what the specification says. `ComputedResults` is the page's
  gate (app/page.tsx:204).
- `card.dfy` (module `Card`): the tone flags and theme of `BooleanCard`
  (app/page.tsx:84-89), and the key-label transform
  `key.replace(/([A-Z])/g, ' $1').trim()` (app/page.tsx:144).

Status labels are the enum `Status = Pass | Review | Fail | Exempt | Unknown`. Each
constructor is spelled like the string the page uses. The rubric is the one in the
code: COPPA 50/30/20, FERPA 40/30/20/10, 'Type A' all-or-nothing on
`hasModeration`, and 'Type B' 50 + 50.

One edge case of the code is modelled as it is written. In the 'Type A' and
'Type B' branches the code reads `scanResult.cipa.hasModeration` (and the two
'Type B' keys) without optional chaining (app/page.tsx:42, :50-51). An absent
`cipa` section therefore throws a TypeError there. The model returns
`Err(CipaSectionAbsent)` in that case. The 'Type C' and other branches never read
the section, so they succeed even when it is absent.

## Model

| member | source | states |
|---|---|---|
| `Scoring.GetStatus` | app/page.tsx:15 | "Pass" exactly when score ≥ 80, "Review" exactly when 50 ≤ score < 80, "Fail" exactly when score < 50; so the three bands are disjoint and cover every integer |
| `Scoring.CoppaScore` | app/page.tsx:17-21 | the COPPA score lies in [0, 100]; it is 100 exactly when all three flags hold and 0 exactly when none does (absent flags count as false) |
| `Scoring.FerpaScore` | app/page.tsx:23-28 | the FERPA score lies in [0, 100]; it is 100 exactly when all four flags hold and 0 exactly when none does |
| `Scoring.CoppaStatusBands` | app/page.tsx:18-21 | COPPA is "Pass" exactly when noSelling and schoolConsent both hold; "Review" exactly for noSelling without schoolConsent, or schoolConsent and educationalUse without noSelling; "Fail" otherwise |
| `Scoring.FerpaPassIff` | app/page.tsx:24-28 | FERPA is "Pass" exactly when districtControl and limitedSharing hold and breachNotice or deletionPolicy does |
| `Scoring.CoppaMonotone` | app/page.tsx:18-21 | turning any COPPA flag from false or absent to true never lowers the score |
| `Scoring.FerpaMonotone` | app/page.tsx:24-28 | turning any FERPA flag from false or absent to true never lowers the score |
| `Scoring.CipaFor` | app/page.tsx:30-67 | CIPA fails with the TypeError exactly for 'Type A' or 'Type B' with no `cipa` section; otherwise the score lies in [0, 100]; "Exempt" exactly for 'Type C'; "Unknown" exactly for any other or a missing type; every other status is `getStatus` of the score; the message is empty exactly for 'Type A' and 'Type B' |
| `Scoring.CipaTypeA` | app/page.tsx:38-43 | 'Type A' scores 100 when hasModeration holds and 0 otherwise, so the status is "Pass" or "Fail", never "Review"; the message is empty; `data` holds only hasModeration; noAiTraining and noThirdPartyAds have no influence |
| `Scoring.CipaTypeB` | app/page.tsx:44-53 | 'Type B' scores 100 when both noAiTraining and noThirdPartyAds hold, 50 when exactly one does, 0 when neither does; it is "Pass" when both noAiTraining and noThirdPartyAds hold, "Review" when exactly one does, "Fail" when neither does; the message is empty; `data` holds exactly those two entries in that order; hasModeration has no influence |
| `Scoring.CipaTypeCExempt` | app/page.tsx:54-60 | 'Type C' gives score 100, "Exempt", the fixed teacher/admin message and empty `data`, whatever the CIPA section holds, even when it is absent |
| `Scoring.CipaOtherUnknown` | app/page.tsx:61-67 | every other type value, including 'Type U' and a missing classification, gives score 0, "Unknown", the fixed manual-review message and empty `data`, whatever the CIPA section holds |
| `Scoring.ReportOf` | app/page.tsx:69-77 | a report is produced unless the CIPA TypeError occurs; `summary` and `type` are copied from the classification; the COPPA and FERPA scores are the rubric sums and their statuses are `getStatus` of them, never "Exempt" or "Unknown"; the CIPA part is the CIPA result for the classified type |
| `Scoring.ReportFor` | app/page.tsx:12-78 | the result is `null` exactly when the input is absent; for a present input it fails exactly when its report does, and otherwise it is that input's report (summary, tool type, COPPA, FERPA and CIPA as `ReportOf` states them) |
| `Scoring.ComputeReport` | app/page.tsx:12-78 | the imperative engine (scores accumulated with `+=`, CIPA locals reassigned along the type chain, the TypeError on the unguarded reads) returns exactly the specified report |
| `Scoring.ComputedResults` | app/page.tsx:204 | with no raw result, or when the model flags the text as not a privacy document, no report is computed; for a privacy document, computing throws exactly when scoring the analysis throws, and a computed report is the scored analysis; a report is shown exactly when there is a raw result, it is a privacy document, and scoring does not throw |
| `Card.ToneOf` | app/page.tsx:84-86 | the card is neutral exactly when the status is "Unknown"; a neutral card is never low; an "Exempt" card is always high; a card is both high and low only when it is "Exempt" |
| `Card.ThemeOf` | app/page.tsx:88-89 | the colour is green exactly when score ≥ 80 or "Exempt"; red exactly when score ≤ 49 and the status is neither "Unknown" nor "Exempt"; amber otherwise. So high wins over low |
| `Card.ThemeTracksStatus` | app/page.tsx:84-88 | for a result whose status is `getStatus` of its score (COPPA, FERPA, scored CIPA), the card is never neutral, and it is green, red or amber exactly when the status is "Pass", "Fail" or "Review" |
| `Card.CipaCardTone` | app/page.tsx:84-88 | the CIPA card is neutral exactly for a tool that is not 'Type A', 'Type B' or 'Type C'; an "Unknown" result (score 0) is never low and is shown amber; an "Exempt" result is shown green; for 'Type A' and 'Type B' the colour follows the status |
| `Card.SpaceCapitals` | app/page.tsx:144 | the regular-expression replace grows the key by exactly one character per ASCII capital |
| `Card.TrimStart` | app/page.tsx:144 | the result is a suffix of the input; every character it drops is ECMAScript whitespace; it does not start with whitespace |
| `Card.TrimEnd` | app/page.tsx:144 | the result is a prefix of the input; every character it drops is ECMAScript whitespace; it does not end with whitespace |
| `Card.Trim` | app/page.tsx:144 | the trimmed string is a contiguous slice of the input with only ECMAScript whitespace before and after it, and it neither starts nor ends with whitespace |
| `Card.TrimBothEnds` | app/page.tsx:144 | trimming the start and then the end keeps the slice that begins right after the leading whitespace and drops only whitespace after it |
| `Card.TrimDropSpaces` | app/page.tsx:144 | for a string whose only whitespace is plain spaces, trimming removes no character other than spaces |
| `Card.KeyLabel` | app/page.tsx:144 | a key's label is the spaced key (a space before each capital) with exactly its leading and trailing whitespace removed: a contiguous slice flanked only by whitespace, neither starting nor ending with whitespace |
| `Card.SpaceCapitalsAppend` | app/page.tsx:144 | the replace works character by character: the spaced form of a concatenation is the concatenation of the spaced forms |
| `Card.SpaceCapitalsEnds` | app/page.tsx:144 | the spaced key starts with a space exactly when the key starts with a capital, and it ends with the key's last character |
| `Card.CapitalsFollowSpaces` | app/page.tsx:144 | every capital of the spaced key comes right after a space |
| `Card.SpaceCapitalsDropSpaces` | app/page.tsx:144 | removing all spaces from the spaced key gives what removing them from the key gives: only spaces are inserted |
| `Card.KeyLabelRoundTrip` | app/page.tsx:144 | for a key without whitespace, removing the spaces from its label gives the key back |
| `Card.KeyLabelCamelCase` | app/page.tsx:144 | a key that starts with a non-capital, non-whitespace character and ends with a non-whitespace one is not trimmed: its label is the spaced key |
| `Card.HasModerationLabel` | app/page.tsx:144 | the 'Type A' CIPA row is labelled "has Moderation" |
| `Card.NoAiTrainingLabel` | app/page.tsx:144 | the first 'Type B' CIPA row is labelled "no Ai Training" |
| `Card.NoThirdPartyAdsLabel` | app/page.tsx:144 | the second 'Type B' CIPA row is labelled "no Third Party Ads" |

## Left out

- `scanLegalText` (app/actions.ts:50-100): the call to the hosted language model and the write of an audit row to Airtable are network I/O into code that is not part of this model. Only its output schema is modelled. Its empty-input check and its 50,000-character prefix of the text only guard that call.
- Whether an evidence quote really occurs in the policy text: the language model decides that, and no code checks it.
- The `LegendScanner` page component (app/page.tsx:162-318): React state, `localStorage`, the e-mail modal and its `"@"` check, starting the scan, alerts and console logging. Of it, only the gate at app/page.tsx:204 is modelled.
- The JSX of `BooleanCard`: icons, CSS classes, the SVG ring offset (app/page.tsx:116, which divides by 100 in floating point), and the checklist rows (app/page.tsx:92-93, 134-150). The CIPA `data` entries and their key labels are modelled; how they are laid out is not.
- app/layout.tsx: fonts, metadata and the HTML shell.
- Scores are JavaScript numbers. The model uses `int`, since every score is a sum of integer weights and no fraction or overflow can arise.
- `isNotAPrivacyDoc` is a `bool` and the classification type is one of the four enum values or absent, as the schema guarantees. A type string outside the enum would also fall through to the "Unknown" branch; the model cannot express one.
