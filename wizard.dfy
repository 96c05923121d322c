/** The controller of the four diagnosis pages (chest X-ray, brain MRI,
    skin photo, and the general X-ray page). Each page is a four-step
    wizard: 1 patient details and upload, 2 image accepted, 3 analysing,
    4 results. The pages share their handlers and differ only in the
    patient fields they keep, the date field they require, the upload size
    limit and a few messages; the model is one class parameterised by the
    page.

    The request to the analysis server is not modelled: its outcome is an
    input of the handler that awaits it. */
module Wizard {
  import opened Common

  datatype Variant = Chest | Brain | Skin | General

  /** The keys of the page's patient record, in declaration order. */
  function PatientFields(v: Variant): seq<string> {
    match v
    case Chest => ["name", "age", "gender", "xrayDate", "symptoms", "bloodPressure", "weight",
                   "height", "allergies", "medications", "medicalHistory"]
    case Brain => ["name", "age", "gender", "scanDate", "symptoms", "weight", "height",
                   "bloodPressure", "allergies", "medications", "medicalHistory", "scanType",
                   "contrastUsed", "referringPhysician"]
    case Skin => ["name", "age", "gender", "photoDate", "symptoms", "skinType", "affectedArea",
                  "duration", "allergies", "medications", "medicalHistory"]
    case General => ["name", "age", "gender", "xrayDate", "symptoms"]
  }

  const XrayDate := "xrayDate"
  const ScanDate := "scanDate"
  const PhotoDate := "photoDate"

  /** The date field the page requires. */
  function DateField(v: Variant): string {
    match v
    case Brain => ScanDate
    case Skin => PhotoDate
    case _ => XrayDate
  }

  function RequiredFields(v: Variant): seq<string> {
    ["name", "age", "gender", DateField(v)]
  }

  const NameRequired := "Patient name is required"
  const AgeRequired := "Age is required"
  const GenderRequired := "Gender is required"

  /** The message shown under a blank required field. */
  function RequiredMessage(v: Variant, field: string): string {
    if field == "name" then NameRequired
    else if field == "age" then AgeRequired
    else if field == "gender" then GenderRequired
    else match v
      case Brain => "Scan date is required"
      case Skin => "Photo date is required"
      case _ => "X-ray date is required"
  }

  /** The upload limit in bytes: 20 MB for brain scans, 10 MB otherwise. */
  function SizeLimit(v: Variant): nat {
    if v == Brain then 20 * 1024 * 1024 else 10 * 1024 * 1024
  }

  function SizeMessage(v: Variant): string {
    if v == Brain then "File size exceeds 20MB limit." else "File size exceeds 10MB limit."
  }

  function NoFileMessage(v: Variant): string {
    match v
    case Brain => "No MRI scan uploaded."
    case Skin => "No skin image uploaded."
    case _ => "No X-ray image uploaded."
  }

  const ConnectionFailed := "Connection failed. Please ensure the Python analysis server is running."
  const ConnectionFailedBrain := "Connection failed. Please ensure the analysis server is running."

  /** The message for a request that never reached the server; the brain
      page does not name the server's language. */
  function ConnectionMessage(v: Variant): string {
    if v == Brain then ConnectionFailedBrain else ConnectionFailed
  }

  const IncompleteInfo := "Please fill in all required patient information."
  const UnknownAnalysisError := "An unknown error occurred during analysis."
  const ClientError := "A client-side error occurred. Please try again."

  /** A dropped file: its name and size in bytes. */
  datatype UploadedFile = UploadedFile(name: string, size: nat)

  /** The analysis the server returns. */
  datatype AnalysisResult = AnalysisResult(
    name: string, confidence: real, probabilities: seq<(string, real)>, heatmap: Option<string>)

  /** How the request to the analysis server ends: a response with an ok
      status and its data, a response with another status and the `error`
      field of its body, or an exception (whether it is a TypeError, and its
      message). A body that is not JSON is an exception that is not a
      TypeError. */
  datatype ServerOutcome =
    | Ok(data: AnalysisResult)
    | NotOk(error: Option<string>)
    | Thrown(isTypeError: bool, message: string)

  /** The error shown when the analysis fails. */
  function FailureMessage(v: Variant, outcome: ServerOutcome): (m: string)
    requires !outcome.Ok?
    ensures m != ""
    ensures outcome.NotOk? && Truthy(outcome.error) ==> m == outcome.error.value
    ensures outcome.NotOk? && !Truthy(outcome.error) ==> m == UnknownAnalysisError
    ensures outcome.Thrown? ==> m == ConnectionMessage(v) || m == ClientError
    ensures outcome.Thrown? ==>
      (m == ConnectionMessage(v) <==> outcome.isTypeError && exists i :: OccursAt(outcome.message, "Failed to fetch", i))
  {
    match outcome
    case NotOk(error) => if Truthy(error) then error.value else UnknownAnalysisError
    case Thrown(isTypeError, message) =>
      if isTypeError && Contains(message, "Failed to fetch") then ConnectionMessage(v) else ClientError
  }

  /** The errors for the given fields, in order: one entry, with its
      message, for each field that is blank after trimming. */
  function ErrorsFor(v: Variant, info: map<string, string>, fields: seq<string>): map<string, string>
    requires forall f :: f in fields ==> f in info
  {
    if fields == [] then map[]
    else
      var f := fields[|fields| - 1];
      var rest := ErrorsFor(v, info, fields[..|fields| - 1]);
      if IsBlank(info[f]) then rest[f := RequiredMessage(v, f)] else rest
  }

  /** An entry for exactly the blank fields among those checked. */
  lemma {:induction false} ErrorsForKeys(v: Variant, info: map<string, string>, fields: seq<string>, f: string)
    requires forall g :: g in fields ==> g in info
    ensures f in ErrorsFor(v, info, fields) <==> f in fields && IsBlank(info[f])
    ensures f in ErrorsFor(v, info, fields) ==> ErrorsFor(v, info, fields)[f] == RequiredMessage(v, f)
  {
    if fields != [] {
      ErrorsForKeys(v, info, fields[..|fields| - 1], f);
      assert fields == fields[..|fields| - 1] + [fields[|fields| - 1]];
    }
  }

  /** Checking one more field extends the error map by that field's entry
      when it is blank. */
  lemma ErrorsForStep(v: Variant, info: map<string, string>, fields: seq<string>, k: nat)
    requires k < |fields| && forall g :: g in fields ==> g in info
    ensures var rest := ErrorsFor(v, info, fields[..k]);
      ErrorsFor(v, info, fields[..k + 1]) ==
        if IsBlank(info[fields[k]]) then rest[fields[k] := RequiredMessage(v, fields[k])] else rest
  {
    assert fields[..k + 1][..k] == fields[..k];
  }

  /** The error map `validatePatientInfo` builds from the record. */
  function ValidationErrors(v: Variant, info: map<string, string>): (errs: map<string, string>)
    requires forall f :: f in RequiredFields(v) ==> f in info
  {
    ErrorsFor(v, info, RequiredFields(v))
  }

  /** Validation passes exactly when no required field is blank, and an
      error is reported for a field exactly when that field is blank. */
  lemma ValidationErrorsExact(v: Variant, info: map<string, string>, f: string)
    requires forall g :: g in RequiredFields(v) ==> g in info
    ensures f in ValidationErrors(v, info) <==> f in RequiredFields(v) && IsBlank(info[f])
    ensures ValidationErrors(v, info) == map[] <==> forall g :: g in RequiredFields(v) ==> !IsBlank(info[g])
  {
    var errs := ValidationErrors(v, info);
    ErrorsForKeys(v, info, RequiredFields(v), f);
    if errs == map[] {
      forall g | g in RequiredFields(v) ensures !IsBlank(info[g]) {
        ErrorsForKeys(v, info, RequiredFields(v), g);
      }
    } else {
      var g :| g in errs;
      ErrorsForKeys(v, info, RequiredFields(v), g);
    }
  }

  /** Editing a field to a non-blank value removes that field from the
      validation errors and leaves every other field's entry as it was. */
  lemma EditClearsOnlyThatError(v: Variant, info: map<string, string>, field: string, value: string)
    requires forall g :: g in RequiredFields(v) ==> g in info
    requires !IsBlank(value)
    ensures field !in ValidationErrors(v, info[field := value])
    ensures forall g :: g != field ==>
      (g in ValidationErrors(v, info[field := value]) <==> g in ValidationErrors(v, info))
  {
    ValidationErrorsExact(v, info[field := value], field);
    forall g | g != field
      ensures g in ValidationErrors(v, info[field := value]) <==> g in ValidationErrors(v, info)
    {
      ValidationErrorsExact(v, info[field := value], g);
      ValidationErrorsExact(v, info, g);
    }
  }

  /** The empty patient record of the page. */
  function EmptyInfo(v: Variant): (info: map<string, string>)
    ensures forall f :: f in info <==> f in PatientFields(v)
    ensures forall f :: f in info ==> info[f] == ""
  {
    map f | f in PatientFields(v) :: ""
  }

  /** On an empty record every required field is reported. */
  lemma EmptyInfoFailsValidation(v: Variant)
    ensures forall f :: f in RequiredFields(v) ==> f in EmptyInfo(v)
    ensures ValidationErrors(v, EmptyInfo(v)).Keys == set f | f in RequiredFields(v)
  {
    var info := EmptyInfo(v);
    forall f | f in RequiredFields(v) ensures f in info && IsBlank(info[f]) {
      assert f in PatientFields(v);
    }
    forall f ensures f in ValidationErrors(v, info) <==> f in RequiredFields(v) {
      ErrorsForKeys(v, info, RequiredFields(v), f);
    }
  }

  /** The record holds every field of the page. */
  predicate HasFields(v: Variant, info: map<string, string>) {
    forall f :: f in PatientFields(v) ==> f in info
  }

  /** Every required field is a field of the page's record. */
  lemma RequiredAreFields(v: Variant)
    ensures forall f :: f in RequiredFields(v) ==> f in PatientFields(v)
  {
  }

  /** The body of `validatePatientInfo` up to `setErrors`: the
      `newErrors` map, filled field by field. */
  method CollectErrors(v: Variant, info: map<string, string>) returns (newErrors: map<string, string>)
    requires HasFields(v, info)
    ensures newErrors == ValidationErrors(v, info)
  {
    ghost var req := RequiredFields(v);
    RequiredAreFields(v);
    newErrors := map[];
    assert newErrors == ErrorsFor(v, info, req[..0]);
    ErrorsForStep(v, info, req, 0);
    if IsBlank(info["name"]) {
      newErrors := newErrors["name" := NameRequired];
    }
    ErrorsForStep(v, info, req, 1);
    if IsBlank(info["age"]) {
      newErrors := newErrors["age" := AgeRequired];
    }
    ErrorsForStep(v, info, req, 2);
    if IsBlank(info["gender"]) {
      newErrors := newErrors["gender" := GenderRequired];
    }
    ErrorsForStep(v, info, req, 3);
    var dateField := DateField(v);
    if IsBlank(info[dateField]) {
      newErrors := newErrors[dateField := RequiredMessage(v, dateField)];
    }
    assert req[..4] == req;
  }

  class DiagnosisWizard {
    const variant: Variant
    var step: int
    var info: map<string, string>
    var errors: map<string, string>
    var apiError: Option<string>
    var file: Option<UploadedFile>
    var preview: Option<string>
    var analysis: Option<AnalysisResult>
    var isAnalyzing: bool
    var showHeatmap: bool

    /** The step is one of the four; the record keeps every field of the
        page; from step 2 on a file is held, and step 4 shows an analysis. */
    ghost predicate Valid()
      reads this
    {
      1 <= step <= 4 &&
      HasFields(variant, info) &&
      (step >= 2 ==> file.Some?) &&
      (step == 4 ==> analysis.Some?)
    }

    /** The state the page starts in and returns to on reset. */
    ghost predicate Cleared()
      reads this
    {
      step == 1 && info == EmptyInfo(variant) && errors == map[] && apiError == None &&
      file == None && preview == None && analysis == None && !showHeatmap
    }

    constructor(v: Variant)
      ensures variant == v && Valid() && Cleared() && !isAnalyzing
    {
      variant := v;
      step := 1;
      info := EmptyInfo(v);
      errors := map[];
      apiError := None;
      file := None;
      preview := None;
      analysis := None;
      isAnalyzing := false;
      showHeatmap := false;
    }

    /** `validatePatientInfo`: replaces the error map with the one built
        from the current record and reports whether it is empty. */
    method Validate() returns (ok: bool)
      requires Valid()
      modifies this`errors
      ensures Valid()
      ensures errors == ValidationErrors(variant, info)
      ensures ok <==> errors == map[]
    {
      var newErrors := CollectErrors(variant, info);
      errors := newErrors;
      ok := |newErrors| == 0;
      if !ok {
        assert newErrors != map[];
      }
    }

    /** `handlePatientInfoChange(field, value)`: the field takes the value;
        if the field had a non-empty error, that error becomes empty. */
    method ChangeField(field: string, value: string)
      requires Valid()
      modifies this`info, this`errors
      ensures Valid()
      ensures info == old(info)[field := value]
      ensures errors == if field in old(errors) && old(errors)[field] != "" then old(errors)[field := ""] else old(errors)
    {
      info := info[field := value];
      if field in errors && errors[field] != "" {
        errors := errors[field := ""];
      }
    }

    /** `onDrop(acceptedFiles)`: the first accepted file is taken unless it
        is over the size limit. `previewUrl` stands for the object URL made
        for it. */
    method Drop(accepted: seq<UploadedFile>, previewUrl: string)
      requires Valid()
      modifies this`apiError, this`file, this`preview, this`step
      ensures Valid()
      ensures accepted == [] ==>
        apiError == old(apiError) && file == old(file) && preview == old(preview) && step == old(step)
      ensures accepted != [] && accepted[0].size > SizeLimit(variant) ==>
        apiError == Some(SizeMessage(variant)) && file == old(file) && preview == old(preview) && step == old(step)
      ensures accepted != [] && accepted[0].size <= SizeLimit(variant) ==>
        apiError == None && file == Some(accepted[0]) && preview == Some(previewUrl) && step == 2
    {
      if accepted != [] {
        var f := accepted[0];
        if f.size > SizeLimit(variant) {
          apiError := Some(SizeMessage(variant));
          return;
        }
        apiError := None;
        file := Some(f);
        preview := Some(previewUrl);
        step := 2;
      }
    }

    /** The part of `handleStartAnalysis` before the request: validation
        (first), the file check, then step 3 with the spinner on. */
    method BeginAnalysis() returns (started: bool)
      requires Valid()
      modifies this`errors, this`apiError, this`step, this`isAnalyzing
      ensures Valid()
      ensures errors == ValidationErrors(variant, info)
      ensures started <==> errors == map[] && file.Some?
      ensures errors != map[] ==>
        apiError == Some(IncompleteInfo) && step == old(step) && isAnalyzing == old(isAnalyzing)
      ensures errors == map[] && file.None? ==>
        apiError == Some(NoFileMessage(variant)) && step == old(step) && isAnalyzing == old(isAnalyzing)
      ensures started ==> step == 3 && isAnalyzing && apiError == None
    {
      var ok := Validate();
      if !ok {
        apiError := Some(IncompleteInfo);
        return false;
      }
      if file.None? {
        apiError := Some(NoFileMessage(variant));
        return false;
      }
      step := 3;
      isAnalyzing := true;
      apiError := None;
      started := true;
    }

    /** The part of `handleStartAnalysis` after the request: the analysis
        and step 4 on success, the failure message and step 2 otherwise,
        and the spinner off in every case. */
    method FinishAnalysis(outcome: ServerOutcome)
      requires Valid() && step == 3
      modifies this`analysis, this`apiError, this`step, this`isAnalyzing
      ensures Valid()
      ensures !isAnalyzing
      ensures outcome.Ok? ==> analysis == Some(outcome.data) && step == 4 && apiError == old(apiError)
      ensures !outcome.Ok? ==>
        analysis == old(analysis) && step == 2 && apiError == Some(FailureMessage(variant, outcome))
    {
      if outcome.Ok? {
        analysis := Some(outcome.data);
        step := 4;
      } else {
        apiError := Some(FailureMessage(variant, outcome));
        step := 2;
      }
      isAnalyzing := false;
    }

    /** `handleStartAnalysis` as a whole, with `outcome` standing for the
        awaited request. */
    method StartAnalysis(outcome: ServerOutcome)
      requires Valid()
      modifies this`errors, this`apiError, this`step, this`isAnalyzing, this`analysis
      ensures Valid()
      ensures errors == ValidationErrors(variant, info)
      ensures errors != map[] ==>
        apiError == Some(IncompleteInfo) && step == old(step) && analysis == old(analysis) &&
        isAnalyzing == old(isAnalyzing)
      ensures errors == map[] && file.None? ==>
        apiError == Some(NoFileMessage(variant)) && step == old(step) && analysis == old(analysis) &&
        isAnalyzing == old(isAnalyzing)
      ensures errors == map[] && file.Some? ==>
        !isAnalyzing &&
        if outcome.Ok? then analysis == Some(outcome.data) && step == 4 && apiError == None
        else analysis == old(analysis) && step == 2 && apiError == Some(FailureMessage(variant, outcome))
    {
      var started := BeginAnalysis();
      if started {
        FinishAnalysis(outcome);
      }
    }

    /** `handleNewAnalysis`: back to step 1 with everything cleared. The
        spinner flag is not touched. */
    method NewAnalysis()
      requires Valid()
      modifies this`preview, this`file, this`analysis, this`info, this`step, this`errors,
        this`apiError, this`showHeatmap
      ensures Valid() && Cleared()
    {
      preview := None;
      file := None;
      analysis := None;
      info := EmptyInfo(variant);
      step := 1;
      errors := map[];
      apiError := None;
      showHeatmap := false;
    }
  }
}
