/** The description of one spool file (DD) of a z/OS batch job, built through a Builder whose
    fields may be null; the built JobFile turns each null into an empty Optional. */
module JobFiles {
  import opened Lang

  /** A JobFile: every field final, each an Optional (OptionalLong for the counts). */
  datatype JobFile = JobFile(
    jobId: Optional<string>,
    jobName: Optional<string>,
    recfm: Optional<string>,
    byteCount: Optional<int64>,
    recordCount: Optional<int64>,
    jobCorrelator: Optional<string>,
    classs: Optional<string>,
    id: Optional<int64>,
    ddName: Optional<string>,
    recordsUrl: Optional<string>,
    lrecl: Optional<int64>,
    subSystem: Optional<string>,
    stepName: Optional<string>,
    procStep: Optional<string>)

  /** The JobFile in which no field is present. */
  const EmptyJobFile: JobFile := JobFile(Empty, Empty, Empty, Empty, Empty, Empty, Empty, Empty, Empty, Empty, Empty, Empty, Empty, Empty)

  class Builder {
    var jobId: Nullable<string>
    var jobName: Nullable<string>
    var recfm: Nullable<string>
    var byteCount: Nullable<int64>
    var recordCount: Nullable<int64>
    var jobCorrelator: Nullable<string>
    var classs: Nullable<string>
    var id: Nullable<int64>
    var ddName: Nullable<string>
    var recordsUrl: Nullable<string>
    var lrecl: Nullable<int64>
    var subSystem: Nullable<string>
    var stepName: Nullable<string>
    var procStep: Nullable<string>

    /** A new builder: every field null. */
    constructor ()
      ensures jobId == Null && jobName == Null && recfm == Null && byteCount == Null && recordCount == Null
      ensures jobCorrelator == Null && classs == Null && id == Null && ddName == Null && recordsUrl == Null
      ensures lrecl == Null && subSystem == Null && stepName == Null && procStep == Null
      ensures Build() == EmptyJobFile
    {
      jobId := Null;
      jobName := Null;
      recfm := Null;
      byteCount := Null;
      recordCount := Null;
      jobCorrelator := Null;
      classs := Null;
      id := Null;
      ddName := Null;
      recordsUrl := Null;
      lrecl := Null;
      subSystem := Null;
      stepName := Null;
      procStep := Null;
    }

    method ByteCount(byteCount: Nullable<int64>) returns (b: Builder)
      modifies this`byteCount
      ensures b == this && this.byteCount == byteCount
    {
      this.byteCount := byteCount;
      b := this;
    }

    method Classs(classs: Nullable<string>) returns (b: Builder)
      modifies this`classs
      ensures b == this && this.classs == classs
    {
      this.classs := classs;
      b := this;
    }

    method DdName(ddName: Nullable<string>) returns (b: Builder)
      modifies this`ddName
      ensures b == this && this.ddName == ddName
    {
      this.ddName := ddName;
      b := this;
    }

    method Id(id: Nullable<int64>) returns (b: Builder)
      modifies this`id
      ensures b == this && this.id == id
    {
      this.id := id;
      b := this;
    }

    method JobCorrelator(jobCorrelator: Nullable<string>) returns (b: Builder)
      modifies this`jobCorrelator
      ensures b == this && this.jobCorrelator == jobCorrelator
    {
      this.jobCorrelator := jobCorrelator;
      b := this;
    }

    method JobId(jobId: Nullable<string>) returns (b: Builder)
      modifies this`jobId
      ensures b == this && this.jobId == jobId
    {
      this.jobId := jobId;
      b := this;
    }

    method JobName(jobName: Nullable<string>) returns (b: Builder)
      modifies this`jobName
      ensures b == this && this.jobName == jobName
    {
      this.jobName := jobName;
      b := this;
    }

    method Lrecl(lrecl: Nullable<int64>) returns (b: Builder)
      modifies this`lrecl
      ensures b == this && this.lrecl == lrecl
    {
      this.lrecl := lrecl;
      b := this;
    }

    method ProcStep(procStep: Nullable<string>) returns (b: Builder)
      modifies this`procStep
      ensures b == this && this.procStep == procStep
    {
      this.procStep := procStep;
      b := this;
    }

    method Recfm(recfm: Nullable<string>) returns (b: Builder)
      modifies this`recfm
      ensures b == this && this.recfm == recfm
    {
      this.recfm := recfm;
      b := this;
    }

    method RecordCount(recordCount: Nullable<int64>) returns (b: Builder)
      modifies this`recordCount
      ensures b == this && this.recordCount == recordCount
    {
      this.recordCount := recordCount;
      b := this;
    }

    method RecordsUrl(recordsUrl: Nullable<string>) returns (b: Builder)
      modifies this`recordsUrl
      ensures b == this && this.recordsUrl == recordsUrl
    {
      this.recordsUrl := recordsUrl;
      b := this;
    }

    method StepName(stepName: Nullable<string>) returns (b: Builder)
      modifies this`stepName
      ensures b == this && this.stepName == stepName
    {
      this.stepName := stepName;
      b := this;
    }

    method SubSystem(subSystem: Nullable<string>) returns (b: Builder)
      modifies this`subSystem
      ensures b == this && this.subSystem == subSystem
    {
      this.subSystem := subSystem;
      b := this;
    }

    /** Builder.build with the private JobFile constructor: each field is empty exactly when
        the builder's is null, and otherwise holds the builder's value. Reading the builder
        leaves it unchanged. */
    function Build(): (f: JobFile)
      reads this
      ensures f.jobId.Empty? <==> jobId.Null?
      ensures f.jobName.Empty? <==> jobName.Null?
      ensures f.recfm.Empty? <==> recfm.Null?
      ensures f.byteCount.Empty? <==> byteCount.Null?
      ensures f.recordCount.Empty? <==> recordCount.Null?
      ensures f.jobCorrelator.Empty? <==> jobCorrelator.Null?
      ensures f.classs.Empty? <==> classs.Null?
      ensures f.id.Empty? <==> id.Null?
      ensures f.ddName.Empty? <==> ddName.Null?
      ensures f.recordsUrl.Empty? <==> recordsUrl.Null?
      ensures f.lrecl.Empty? <==> lrecl.Null?
      ensures f.subSystem.Empty? <==> subSystem.Null?
      ensures f.stepName.Empty? <==> stepName.Null?
      ensures f.procStep.Empty? <==> procStep.Null?
      ensures jobId.NonNull? ==> f.jobId.value == jobId.value
      ensures jobName.NonNull? ==> f.jobName.value == jobName.value
      ensures recfm.NonNull? ==> f.recfm.value == recfm.value
      ensures byteCount.NonNull? ==> f.byteCount.value == byteCount.value
      ensures recordCount.NonNull? ==> f.recordCount.value == recordCount.value
      ensures jobCorrelator.NonNull? ==> f.jobCorrelator.value == jobCorrelator.value
      ensures classs.NonNull? ==> f.classs.value == classs.value
      ensures id.NonNull? ==> f.id.value == id.value
      ensures ddName.NonNull? ==> f.ddName.value == ddName.value
      ensures recordsUrl.NonNull? ==> f.recordsUrl.value == recordsUrl.value
      ensures lrecl.NonNull? ==> f.lrecl.value == lrecl.value
      ensures subSystem.NonNull? ==> f.subSystem.value == subSystem.value
      ensures stepName.NonNull? ==> f.stepName.value == stepName.value
      ensures procStep.NonNull? ==> f.procStep.value == procStep.value
    {
      JobFile(OfNullable(jobId), OfNullable(jobName), OfNullable(recfm), OfNullable(byteCount),
        OfNullable(recordCount), OfNullable(jobCorrelator), OfNullable(classs), OfNullable(id), OfNullable(ddName),
        OfNullable(recordsUrl), OfNullable(lrecl), OfNullable(subSystem), OfNullable(stepName), OfNullable(procStep))
    }
  }

  /** A built JobFile is empty exactly when every builder field was null. */
  lemma BuildEmptyIffAllNull(b: Builder)
    ensures b.Build() == EmptyJobFile <==>
      && b.jobId.Null? && b.jobName.Null? && b.recfm.Null? && b.byteCount.Null? && b.recordCount.Null?
      && b.jobCorrelator.Null? && b.classs.Null? && b.id.Null? && b.ddName.Null? && b.recordsUrl.Null?
      && b.lrecl.Null? && b.subSystem.Null? && b.stepName.Null? && b.procStep.Null?
  {
  }
}
