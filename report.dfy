/** The small pure pieces of the results step of the diagnosis pages: the
    confidence band shown under the progress bar, the file name of the
    downloaded report, and the clinical note of the brain report. */
module Report {
  import opened Common
  import opened Wizard

  datatype Band = High | Moderate | Low

  /** The band of the shown analysis: at least 0.9 is high, otherwise at
      least 0.7 is moderate, and everything else, including no analysis at
      all, is low. */
  function ConfidenceBand(analysis: Option<AnalysisResult>): (b: Band)
    ensures b == High <==> analysis.Some? && analysis.value.confidence >= 0.9
    ensures b == Moderate <==> analysis.Some? && 0.7 <= analysis.value.confidence < 0.9
    ensures b == Low <==> analysis.None? || analysis.value.confidence < 0.7
  {
    if analysis.Some? && analysis.value.confidence >= 0.9 then High
    else if analysis.Some? && analysis.value.confidence >= 0.7 then Moderate
    else Low
  }

  function BandRank(b: Band): nat {
    match b
    case Low => 0
    case Moderate => 1
    case High => 2
  }

  /** A higher confidence never gets a lower band. */
  lemma BandMonotone(a: AnalysisResult, b: AnalysisResult)
    requires a.confidence <= b.confidence
    ensures BandRank(ConfidenceBand(Some(a))) <= BandRank(ConfidenceBand(Some(b)))
  {
  }

  const HighLabel := "High confidence - "
  const ModerateLabel := "Moderate confidence - "
  const LowLabel := "Low confidence - "

  /** The words that open the sentence shown for a band. */
  function BandLabel(b: Band): string {
    match b
    case High => HighLabel
    case Moderate => ModerateLabel
    case Low => LowLabel
  }

  /** The advice after the band's words. The brain page speaks of
      neurological indicators and imaging, the skin page suggests a
      dermatologist, and the chest and general pages share their texts. */
  function BandAdvice(v: Variant, b: Band): string {
    match b
    case High =>
      if v == Brain then "Clear neurological indicators" else "Strong indication"
    case Moderate =>
      if v == Brain then "Clinical correlation recommended" else "Review recommended"
    case Low =>
      if v == Brain then "Additional imaging suggested"
      else if v == Skin then "Dermatologist consultation suggested"
      else "Additional tests suggested"
  }

  /** The sentence shown under the confidence bar: it opens with the words
      naming the band. */
  function BandText(v: Variant, b: Band): (t: string)
    ensures BandLabel(b) <= t
    ensures |t| > |BandLabel(b)|
  {
    BandLabel(b) + BandAdvice(v, b)
  }

  /** The sentence tells the bands apart: on any page, two bands with the
      same sentence are the same band. */
  lemma BandTextDistinct(v: Variant, a: Band, b: Band)
    requires BandText(v, a) == BandText(v, b)
    ensures a == b
  {
    assert BandText(v, a)[0] == BandLabel(a)[0];
    assert BandText(v, b)[0] == BandLabel(b)[0];
    assert HighLabel[0] == 'H' && ModerateLabel[0] == 'M' && LowLabel[0] == 'L';
  }

  /** `name.replace(/\s/g, '_')` */
  function ReplaceWhitespace(s: string): (r: string)
    ensures |r| == |s|
    ensures forall i :: 0 <= i < |s| ==> r[i] == if IsWhitespace(s[i]) then '_' else s[i]
  {
    if s == [] then []
    else [if IsWhitespace(s[0]) then '_' else s[0]] + ReplaceWhitespace(s[1..])
  }

  /** The name part of the report file: the patient's name with white
      space replaced, or "patient" when that is empty. */
  function FileNameStem(name: string): (stem: string)
    ensures name == "" ==> stem == "patient"
    ensures name != "" ==> |stem| == |name|
    ensures name != "" ==>
      forall i :: 0 <= i < |name| ==> stem[i] == if IsWhitespace(name[i]) then '_' else name[i]
    ensures forall i :: 0 <= i < |stem| ==> !IsWhitespace(stem[i])
  {
    var replaced := ReplaceWhitespace(name);
    if replaced == "" then "patient" else replaced
  }

  /** Only an empty name falls back to "patient": a name of white space
      alone becomes underscores, one per character. */
  lemma BlankNameKeepsUnderscores(name: string)
    requires name != "" && IsBlank(name)
    ensures FileNameStem(name) == seq(|name|, i => '_')
  {
    BlankIffAllWhitespace(name);
  }

  /** The two names give the same stem exactly when they agree everywhere
      except where one has white space and the other white space or '_'. */
  lemma StemsAgree(a: string, b: string)
    requires a != "" && b != "" && |a| == |b|
    requires forall i :: 0 <= i < |a| ==>
      a[i] == b[i] || ((IsWhitespace(a[i]) || a[i] == '_') && (IsWhitespace(b[i]) || b[i] == '_'))
    ensures FileNameStem(a) == FileNameStem(b)
  {
    var sa := FileNameStem(a);
    var sb := FileNameStem(b);
    forall i | 0 <= i < |a| ensures sa[i] == sb[i] {
    }
  }

  function ReportPrefix(v: Variant): string {
    match v
    case Chest => "AnYaChest_Report_"
    case Brain => "AnYaMed_Brain_Report_"
    case Skin => "AnYaSkin_Report_"
    case General => "AnYaMed_Report_"
  }

  /** The chest report is a PDF; the others are plain text. */
  function ReportExtension(v: Variant): string {
    if v == Chest then ".pdf" else ".txt"
  }

  /** The download name of the report: the page's prefix, then "patient"
      for an empty name or else the name with every white-space character
      turned into '_', then the page's extension. */
  function ReportFileName(v: Variant, name: string): (f: string)
    ensures |f| == |ReportPrefix(v)| + (if name == "" then 7 else |name|) + |ReportExtension(v)|
    ensures f[..|ReportPrefix(v)|] == ReportPrefix(v)
    ensures f[|f| - |ReportExtension(v)|..] == ReportExtension(v)
    ensures name == "" ==> f[|ReportPrefix(v)|..|f| - |ReportExtension(v)|] == "patient"
    ensures name != "" ==> forall i :: 0 <= i < |name| ==>
      f[|ReportPrefix(v)| + i] == if IsWhitespace(name[i]) then '_' else name[i]
  {
    var prefix, stem, ext := ReportPrefix(v), FileNameStem(name), ReportExtension(v);
    assert (prefix + stem + ext)[|prefix|..|prefix| + |stem|] == stem;
    prefix + stem + ext
  }

  const TumorNote := "Consider neurosurgical consultation and contrast-enhanced MRI for further evaluation."
  const RoutineNote := "No significant structural abnormalities found. Routine follow-up recommended."

  /** The clinical note of the brain report: the consultation advice when
      the label mentions "Tumor", the routine note otherwise (and when there
      is no analysis). */
  function ClinicalNote(analysis: Option<AnalysisResult>): (note: string)
    ensures note == TumorNote <==>
      analysis.Some? && exists i :: OccursAt(analysis.value.name, "Tumor", i)
    ensures note == TumorNote || note == RoutineNote
  {
    if analysis.Some? && Contains(analysis.value.name, "Tumor") then TumorNote else RoutineNote
  }
}
