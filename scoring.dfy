/**
  The client-side scoring engine `computeReport` of app/page.tsx: it turns the
  analysis object into one score and one status label per law (COPPA, FERPA, CIPA).

  The functions up to and including `ReportFor` are the specification, written
  as weighted sums and a case split on the tool type; `ComputeReport` is the engine
  as the source writes it, accumulating into mutable locals, and is proved to
  return what `ReportFor` specifies.
 */
module Scoring {
  import opened Wrappers
  import opened Schema

  /** The status labels; each constructor is spelled as the string the page shows. */
  datatype Status = Pass | Review | Fail | Exempt | Unknown

  /** A COPPA or FERPA result: `{ score, status }`. */
  datatype Scored = Scored(score: int, status: Status)

  /** One key of the CIPA `data` object, in insertion order, with the evidence stored under it. */
  type Entry = (string, Flag)

  /** The CIPA result: `{ score, status, message, data }`. */
  datatype CipaScored = CipaScored(score: int, status: Status, message: string, data: seq<Entry>)

  datatype Report = Report(
    summary: Option<string>,
    toolType: Option<ToolType>,
    coppa: Scored,
    ferpa: Scored,
    cipa: CipaScored)

  /**
    The TypeError `computeReport` throws when it reads a key of the absent `cipa`
    section without optional chaining (the 'Type A' and 'Type B' branches).
   */
  datatype Fault = CipaSectionAbsent

  const ExemptMessage: string :=
    "Teacher/Admin-only tools are exempt from student safety filtering requirements."
  const UnknownMessage: string :=
    "Tool function could not be determined. Manual CIPA review is required."

  /** `getStatus`: three bands that are disjoint and cover every score. */
  function GetStatus(score: int): (s: Status)
    ensures s == Pass <==> score >= 80
    ensures s == Review <==> 50 <= score < 80
    ensures s == Fail <==> score < 50
  {
    if score >= 80 then Pass else if score >= 50 then Review else Fail
  }

  /** The points a flag earns: its weight when it holds, nothing when it is false or absent. */
  function Points(f: Flag, weight: nat): nat {
    if Holds(f) then weight else 0
  }

  /** COPPA rubric: noSelling 50, schoolConsent 30, educationalUse 20. */
  function CoppaScore(c: CoppaSection): (score: int)
    ensures 0 <= score <= 100
    ensures score == 100 <==> Holds(c.noSelling) && Holds(c.schoolConsent) && Holds(c.educationalUse)
    ensures score == 0 <==> !Holds(c.noSelling) && !Holds(c.schoolConsent) && !Holds(c.educationalUse)
  {
    Points(c.noSelling, 50) + Points(c.schoolConsent, 30) + Points(c.educationalUse, 20)
  }

  /** FERPA rubric: districtControl 40, limitedSharing 30, breachNotice 20, deletionPolicy 10. */
  function FerpaScore(f: FerpaSection): (score: int)
    ensures 0 <= score <= 100
    ensures score == 100 <==>
      Holds(f.districtControl) && Holds(f.limitedSharing) && Holds(f.breachNotice) && Holds(f.deletionPolicy)
    ensures score == 0 <==>
      !Holds(f.districtControl) && !Holds(f.limitedSharing) && !Holds(f.breachNotice) && !Holds(f.deletionPolicy)
  {
    Points(f.districtControl, 40) + Points(f.limitedSharing, 30)
      + Points(f.breachNotice, 20) + Points(f.deletionPolicy, 10)
  }

  /**
    The CIPA result for a classified tool type (`None` when the classification
    is absent) and the raw `cipa` section (`None` when absent).
   */
  function CipaFor(t: Option<ToolType>, section: Option<CipaSection>): (r: Result<CipaScored, Fault>)
    ensures r.Err? <==> (t == Some(TypeA) || t == Some(TypeB)) && section.None?
    ensures r.Ok? ==> 0 <= r.value.score <= 100
    ensures r.Ok? ==> (r.value.status == Exempt <==> t == Some(TypeC))
    ensures r.Ok? ==> (r.value.status == Unknown <==> t != Some(TypeA) && t != Some(TypeB) && t != Some(TypeC))
    ensures r.Ok? && r.value.status != Exempt && r.value.status != Unknown ==>
      r.value.status == GetStatus(r.value.score)
    ensures r.Ok? ==> (r.value.message == "" <==> t == Some(TypeA) || t == Some(TypeB))
  {
    match t
    case Some(TypeA) =>
      if section.None? then Err(CipaSectionAbsent)
      else
        var score := if Holds(section.value.hasModeration) then 100 else 0;
        Ok(CipaScored(score, GetStatus(score), "", [("hasModeration", section.value.hasModeration)]))
    case Some(TypeB) =>
      if section.None? then Err(CipaSectionAbsent)
      else
        var score := Points(section.value.noAiTraining, 50) + Points(section.value.noThirdPartyAds, 50);
        Ok(CipaScored(score, GetStatus(score), "",
          [("noAiTraining", section.value.noAiTraining), ("noThirdPartyAds", section.value.noThirdPartyAds)]))
    case Some(TypeC) =>
      Ok(CipaScored(100, Exempt, ExemptMessage, []))
    case _ =>
      Ok(CipaScored(0, Unknown, UnknownMessage, []))
  }

  /** The report of one present analysis object. */
  function ReportOf(scan: Analysis): (r: Result<Report, Fault>)
    ensures r.Err? <==> (TypeOf(scan) == Some(TypeA) || TypeOf(scan) == Some(TypeB)) && scan.cipa.None?
    ensures r.Ok? ==> r.value.summary == SummaryOf(scan) && r.value.toolType == TypeOf(scan)
    ensures r.Ok? ==>
      r.value.coppa.score == CoppaScore(CoppaOf(scan)) && r.value.coppa.status == GetStatus(r.value.coppa.score)
    ensures r.Ok? ==>
      r.value.ferpa.score == FerpaScore(FerpaOf(scan)) && r.value.ferpa.status == GetStatus(r.value.ferpa.score)
    ensures r.Ok? ==>
      r.value.coppa.status !in {Exempt, Unknown} && r.value.ferpa.status !in {Exempt, Unknown}
    ensures r.Ok? ==> Ok(r.value.cipa) == CipaFor(TypeOf(scan), scan.cipa)
  {
    var coppa := CoppaScore(CoppaOf(scan));
    var ferpa := FerpaScore(FerpaOf(scan));
    match CipaFor(TypeOf(scan), scan.cipa)
    case Err(e) => Err(e)
    case Ok(cipa) =>
      Ok(Report(SummaryOf(scan), TypeOf(scan),
        Scored(coppa, GetStatus(coppa)), Scored(ferpa, GetStatus(ferpa)), cipa))
  }

  /** `computeReport`: a falsy input yields `null`, anything else its report or the TypeError. */
  function ReportFor(input: Option<Analysis>): (r: Result<Option<Report>, Fault>)
    ensures r == Ok(None) <==> input.None?
    ensures input.Some? ==> (r.Err? <==> ReportOf(input.value).Err?)
    ensures input.Some? && r.Ok? ==> r.value.Some? && Ok(r.value.value) == ReportOf(input.value)
  {
    if input.None? then Ok(None)
    else
      match ReportOf(input.value)
      case Err(e) => Err(e)
      case Ok(rep) => Ok(Some(rep))
  }

  /**
    The engine as the source writes it: scores accumulated with `+=` and the CIPA
    fields reassigned along the if/else chain on the tool type.
   */
  method ComputeReport(scanResult: Option<Analysis>) returns (r: Result<Option<Report>, Fault>)
    ensures r == ReportFor(scanResult)
  {
    if scanResult.None? {
      return Ok(None);
    }
    var scan := scanResult.value;

    var coppa := CoppaOf(scan);
    var coppaScore := 0;
    if Holds(coppa.noSelling) { coppaScore := coppaScore + 50; }
    if Holds(coppa.schoolConsent) { coppaScore := coppaScore + 30; }
    if Holds(coppa.educationalUse) { coppaScore := coppaScore + 20; }
    assert coppaScore == CoppaScore(coppa);

    var ferpa := FerpaOf(scan);
    var ferpaScore := 0;
    if Holds(ferpa.districtControl) { ferpaScore := ferpaScore + 40; }
    if Holds(ferpa.limitedSharing) { ferpaScore := ferpaScore + 30; }
    if Holds(ferpa.breachNotice) { ferpaScore := ferpaScore + 20; }
    if Holds(ferpa.deletionPolicy) { ferpaScore := ferpaScore + 10; }
    assert ferpaScore == FerpaScore(ferpa);

    var cipaScore := 0;
    var cipaStatus := Fail;
    var cipaData: seq<Entry> := [];
    var cipaMessage := "";
    var cipa := CipaOf(scan);
    var toolType := TypeOf(scan);

    if toolType == Some(TypeA) {
      cipaScore := if Holds(cipa.hasModeration) then 100 else 0;
      cipaStatus := GetStatus(cipaScore);
      if scan.cipa.None? {
        return Err(CipaSectionAbsent);
      }
      cipaData := [("hasModeration", scan.cipa.value.hasModeration)];
    } else if toolType == Some(TypeB) {
      if Holds(cipa.noAiTraining) { cipaScore := cipaScore + 50; }
      if Holds(cipa.noThirdPartyAds) { cipaScore := cipaScore + 50; }
      cipaStatus := GetStatus(cipaScore);
      if scan.cipa.None? {
        return Err(CipaSectionAbsent);
      }
      cipaData := [("noAiTraining", scan.cipa.value.noAiTraining),
                   ("noThirdPartyAds", scan.cipa.value.noThirdPartyAds)];
    } else if toolType == Some(TypeC) {
      cipaScore := 100;
      cipaStatus := Exempt;
      cipaMessage := ExemptMessage;
      cipaData := [];
    } else {
      cipaScore := 0;
      cipaStatus := Unknown;
      cipaMessage := UnknownMessage;
      cipaData := [];
    }
    assert CipaFor(toolType, scan.cipa) == Ok(CipaScored(cipaScore, cipaStatus, cipaMessage, cipaData));

    r := Ok(Some(Report(SummaryOf(scan), toolType,
      Scored(coppaScore, GetStatus(coppaScore)),
      Scored(ferpaScore, GetStatus(ferpaScore)),
      CipaScored(cipaScore, cipaStatus, cipaMessage, cipaData))));
  }

  /**
    The page's gate (`computedResults`): no report at all when there is no raw
    result or the model flagged the text as not a privacy document.
   */
  function ComputedResults(rawReport: Option<Analysis>): (r: Result<Option<Report>, Fault>)
    ensures rawReport.None? ==> r == Ok(None)
    ensures rawReport.Some? && rawReport.value.isNotAPrivacyDoc ==> r == Ok(None)
    ensures rawReport.Some? && !rawReport.value.isNotAPrivacyDoc ==>
      (r.Err? <==> ReportOf(rawReport.value).Err?)
    ensures r.Ok? && r.value.Some? ==> rawReport.Some? && Ok(r.value.value) == ReportOf(rawReport.value)
    ensures (r.Ok? && r.value.Some?) <==>
      rawReport.Some? && !rawReport.value.isNotAPrivacyDoc && ReportOf(rawReport.value).Ok?
  {
    if rawReport.Some? && !rawReport.value.isNotAPrivacyDoc then ReportFor(rawReport) else Ok(None)
  }

  // ---- Properties of the rubric ----

  /** COPPA passes exactly when noSelling and schoolConsent both hold; the bands are spelled out. */
  lemma CoppaStatusBands(c: CoppaSection)
    ensures var s := GetStatus(CoppaScore(c));
      && (s == Pass <==> Holds(c.noSelling) && Holds(c.schoolConsent))
      && (s == Review <==>
            ((Holds(c.noSelling) && !Holds(c.schoolConsent))
             || (!Holds(c.noSelling) && Holds(c.schoolConsent) && Holds(c.educationalUse))))
      && (s == Fail <==> !Holds(c.noSelling) && !(Holds(c.schoolConsent) && Holds(c.educationalUse)))
  {
  }

  /** FERPA passes exactly when districtControl and limitedSharing hold and one of the other two does. */
  lemma FerpaPassIff(f: FerpaSection)
    ensures GetStatus(FerpaScore(f)) == Pass <==>
      Holds(f.districtControl) && Holds(f.limitedSharing) && (Holds(f.breachNotice) || Holds(f.deletionPolicy))
  {
  }

  /** Turning any COPPA flag from false (or absent) to true never lowers the score. */
  lemma CoppaMonotone(c: CoppaSection, d: CoppaSection)
    requires Holds(c.noSelling) ==> Holds(d.noSelling)
    requires Holds(c.schoolConsent) ==> Holds(d.schoolConsent)
    requires Holds(c.educationalUse) ==> Holds(d.educationalUse)
    ensures CoppaScore(c) <= CoppaScore(d)
  {
  }

  /** Turning any FERPA flag from false (or absent) to true never lowers the score. */
  lemma FerpaMonotone(f: FerpaSection, g: FerpaSection)
    requires Holds(f.districtControl) ==> Holds(g.districtControl)
    requires Holds(f.limitedSharing) ==> Holds(g.limitedSharing)
    requires Holds(f.breachNotice) ==> Holds(g.breachNotice)
    requires Holds(f.deletionPolicy) ==> Holds(g.deletionPolicy)
    ensures FerpaScore(f) <= FerpaScore(g)
  {
  }

  /**
    'Type A' is all-or-nothing on hasModeration: never "Review", an empty message,
    only hasModeration in `data`, and the other two CIPA flags have no influence.
   */
  lemma CipaTypeA(c: CipaSection, other: CipaSection)
    requires other.hasModeration == c.hasModeration
    ensures var r := CipaFor(Some(TypeA), Some(c));
      && r.Ok?
      && (r.value.score == 100 <==> Holds(c.hasModeration))
      && (r.value.score == 0 <==> !Holds(c.hasModeration))
      && (r.value.status == Pass <==> Holds(c.hasModeration))
      && r.value.status != Review
      && r.value.message == ""
      && r.value.data == [("hasModeration", c.hasModeration)]
      && CipaFor(Some(TypeA), Some(other)) == r
  {
  }

  /**
    'Type B' earns 50 for each of noAiTraining and noThirdPartyAds: exactly one of
    them gives "Review"; `data` holds exactly those two and hasModeration has no influence.
   */
  lemma CipaTypeB(c: CipaSection, other: CipaSection)
    requires other.noAiTraining == c.noAiTraining && other.noThirdPartyAds == c.noThirdPartyAds
    ensures var r := CipaFor(Some(TypeB), Some(c));
      && r.Ok?
      && (r.value.score == 100 <==> Holds(c.noAiTraining) && Holds(c.noThirdPartyAds))
      && (r.value.score == 50 <==> Holds(c.noAiTraining) != Holds(c.noThirdPartyAds))
      && (r.value.score == 0 <==> !Holds(c.noAiTraining) && !Holds(c.noThirdPartyAds))
      && (r.value.status == Pass <==> Holds(c.noAiTraining) && Holds(c.noThirdPartyAds))
      && (r.value.status == Review <==> Holds(c.noAiTraining) != Holds(c.noThirdPartyAds))
      && (r.value.status == Fail <==> !Holds(c.noAiTraining) && !Holds(c.noThirdPartyAds))
      && r.value.message == ""
      && r.value.data == [("noAiTraining", c.noAiTraining), ("noThirdPartyAds", c.noThirdPartyAds)]
      && CipaFor(Some(TypeB), Some(other)) == r
  {
  }

  /** 'Type C' is exempt whatever the CIPA section holds, even when it is absent. */
  lemma CipaTypeCExempt(section: Option<CipaSection>)
    ensures CipaFor(Some(TypeC), section) == Ok(CipaScored(100, Exempt, ExemptMessage, []))
  {
  }

  /** Every other type value, 'Type U' and a missing classification included, needs manual review. */
  lemma CipaOtherUnknown(t: Option<ToolType>, section: Option<CipaSection>)
    requires t != Some(TypeA) && t != Some(TypeB) && t != Some(TypeC)
    ensures CipaFor(t, section) == Ok(CipaScored(0, Unknown, UnknownMessage, []))
  {
  }
}
