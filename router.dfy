/**
 * components/pdf/DocumentRouter.tsx: TITP candidates get the English
 * Bio-Data sheet, every other tier the Japanese Rirekisho.
 */
module Router {
  import opened ResumeTypes
  import opened JapaneseDate
  import opened Rirekisho
  import opened BioData

  datatype RenderedDocument = RirekishoPdf(rirekisho: RirekishoSheet) | BioDataPdf(bioData: BioDataSheet)

  function DocumentRouter(d: ResumeData, today: CalendarDate): RenderedDocument {
    if d.tier == TITP then BioDataPdf(BioDataDocument(d)) else RirekishoPdf(RirekishoDocument(d, today))
  }

  /**
   * The form is chosen by the tier alone: two records with the same tier get
   * the same kind of document whatever their other fields and the date, and
   * only TITP gets the Bio-Data sheet, whose title is "BIO-DATA" while the
   * other carries "履歴書".
   */
  lemma FormDependsOnTierOnly(d1: ResumeData, d2: ResumeData, t1: CalendarDate, t2: CalendarDate)
    ensures d1.tier == d2.tier ==> DocumentRouter(d1, t1).BioDataPdf? == DocumentRouter(d2, t2).BioDataPdf?
    ensures DocumentRouter(d1, t1).BioDataPdf? <==> d1.tier == TITP
    ensures DocumentRouter(d1, t1).BioDataPdf? ==> DocumentRouter(d1, t1).bioData.title == "BIO-DATA"
    ensures DocumentRouter(d1, t1).RirekishoPdf? ==> DocumentRouter(d1, t1).rirekisho.title == "履歴書"
  {
  }

  /** The Bio-Data sheet carries no date, so for TITP the output does not depend on the day it is made. */
  lemma TitpIgnoresDate(d: ResumeData, t1: CalendarDate, t2: CalendarDate)
    requires d.tier == TITP
    ensures DocumentRouter(d, t1) == DocumentRouter(d, t2)
  {
  }

  /** The Rirekisho's date line reads back to the day it was made. */
  lemma RirekishoDateLine(d: ResumeData, today: CalendarDate)
    requires d.tier != TITP
    ensures var line := DocumentRouter(d, today).rirekisho.dateLine;
      |line| >= 3 && line[|line| - 3..] == " 現在"
      && ParseJapaneseDate(line[..|line| - 3]) == Some(today)
  {
    var line := DocumentRouter(d, today).rirekisho.dateLine;
    assert line[..|line| - 3] == ConvertToJapaneseDate(today);
    ParseConvertRoundTrip(today);
  }
}
