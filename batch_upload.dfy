/** The Submit stage: for every `prepared` batch, fetch its input file from
    the object store, upload it to the batch service, create a job for it,
    and record `submitted` (with the file and job ids) or `failed` (with the
    error) in the control file. */
module BatchUpload {
  import opened Values
  import opened ControlFile

  const DOWNLOAD_ERROR: string := "Failed to download file from S3"

  /** The outcomes of the external calls made for one batch: whether its
      input file could be fetched, the file id the service assigns to the
      upload (or the error's text), the job id of the created job (or the
      error's text), then the clock reading and save outcome of its status
      update. */
  datatype SubmitStep = SubmitStep(downloaded: bool, fileUpload: Result<string>, jobCreate: Result<string>,
                                   now: string, saveOk: bool)

  /** The step in which the file was fetched, uploaded and the job created. */
  predicate FullySubmitted(step: SubmitStep) {
    step.downloaded && step.fileUpload.Ok? && step.jobCreate.Ok?
  }

  /** The decision for one prepared record: the KeyError of a record without
      `input_file` or `target_date`, otherwise one update addressed by the
      record's `batch_id` (None when absent) and its input file, recording
      the first failure met or, when there is none, the submission. */
  function SubmitOne(batch: Record, step: SubmitStep): Decision {
    if "input_file" !in batch || "target_date" !in batch then Raise("KeyError")
    else
      var batchId := Get(batch, "batch_id");
      var s3Key := batch["input_file"];
      if !step.downloaded then
        Apply(UpdateCall(batchId, s3Key, STATUS_FAILED, map["error" := JStr(DOWNLOAD_ERROR)]), false, step.now, step.saveOk)
      else match step.fileUpload
        case Err(e) =>
          Apply(UpdateCall(batchId, s3Key, STATUS_FAILED, map["error" := JStr(e)]), false, step.now, step.saveOk)
        case Ok(fileId) =>
          match step.jobCreate
          case Err(e) =>
            Apply(UpdateCall(batchId, s3Key, STATUS_FAILED, map["error" := JStr(e), "file_id" := JStr(fileId)]),
                  false, step.now, step.saveOk)
          case Ok(jobId) =>
            Apply(UpdateCall(batchId, s3Key, STATUS_SUBMITTED,
                             map["file_id" := JStr(fileId), "openai_batch_id" := JStr(jobId)]),
                  true, step.now, step.saveOk)
  }

  /** Every prepared record with an input file and a target date gets
      exactly one update, addressed by its `batch_id` and its input file. It
      records `submitted` with the file and job ids, and counts as a
      success, exactly when all three calls succeed; otherwise it records
      `failed` with the first error (and the file id when the upload had
      succeeded). */
  lemma SubmitOneDecision(batch: Record, step: SubmitStep)
    requires "input_file" in batch && "target_date" in batch
    ensures var d := SubmitOne(batch, step);
      && d.Apply?
      && d.call.batchId == Get(batch, "batch_id") && d.call.s3Key == batch["input_file"]
      && d.now == step.now && d.saveOk == step.saveOk
      && (d.succeeded <==> FullySubmitted(step))
      && (d.call.newStatus == STATUS_SUBMITTED <==> FullySubmitted(step))
      && (d.call.newStatus == STATUS_FAILED <==> !FullySubmitted(step))
      && (FullySubmitted(step) ==>
            d.call.extra == map["file_id" := JStr(step.fileUpload.value),
                                "openai_batch_id" := JStr(step.jobCreate.value)])
      && (!step.downloaded ==> d.call.extra == map["error" := JStr(DOWNLOAD_ERROR)])
      && (step.downloaded && step.fileUpload.Err? ==> d.call.extra == map["error" := JStr(step.fileUpload.error)])
      && (step.downloaded && step.fileUpload.Ok? && step.jobCreate.Err? ==>
            d.call.extra == map["error" := JStr(step.jobCreate.error), "file_id" := JStr(step.fileUpload.value)])
  {
  }

  /** A record missing its input file or target date ends the stage. */
  lemma SubmitOneRaises(batch: Record, step: SubmitStep)
    ensures SubmitOne(batch, step).Raise? <==> "input_file" !in batch || "target_date" !in batch
  {
  }

  /** The decisions for the prepared records, `env(i)` holding the outcomes
      for the i-th. */
  function SubmitDecisions(prepared: seq<Json>, env: nat -> SubmitStep): (ds: seq<Decision>)
    requires AllRecords(prepared)
    ensures |ds| == |prepared|
  {
    seq(|prepared|, i requires 0 <= i < |prepared| => SubmitOne(prepared[i].fields, env(i)))
  }

  /** `upload_jsonl_to_openai` */
  function SubmitStage(stored: Option<Json>, env: nat -> SubmitStep): StageRun {
    match BatchesWithStatus(stored, STATUS_PREPARED)
    case Err(_) => StageRun(false, stored)
    case Ok(prepared) =>
      if prepared == [] then StageRun(false, stored)
      else RunUpdates(SubmitDecisions(prepared, env), 0, stored, 0)
  }

  /** With nothing prepared the stage returns False and changes nothing;
      otherwise, on a readable store whose prepared records all carry an
      input file and a target date, it returns True exactly when some batch
      was fully submitted, whatever the outcome of the control-file saves. */
  lemma SubmitStageResult(stored: Option<Json>, env: nat -> SubmitStep)
    requires WellFormed(stored)
    ensures var prepared := Filter(Batches(stored), STATUS_PREPARED);
      && (prepared == [] ==> SubmitStage(stored, env) == StageRun(false, stored))
      && (AllRecords(prepared) &&
          (forall j :: 0 <= j < |prepared| ==>
             "input_file" in prepared[j].fields && "target_date" in prepared[j].fields) ==>
            (SubmitStage(stored, env).ok <==> exists j :: 0 <= j < |prepared| && FullySubmitted(env(j))))
  {
    QueryOnWellFormed(stored, STATUS_PREPARED);
    var prepared := Filter(Batches(stored), STATUS_PREPARED);
    if prepared != [] &&
       forall j :: 0 <= j < |prepared| ==> "input_file" in prepared[j].fields && "target_date" in prepared[j].fields {
      var ds := SubmitDecisions(prepared, env);
      forall j | 0 <= j < |prepared|
        ensures !ds[j].Raise?
        ensures Counted(ds, j) <==> FullySubmitted(env(j))
      {
        SubmitOneDecision(prepared[j].fields, env(j));
      }
      RunUpdatesResult(ds, 0, stored, 0);
      if exists j :: 0 <= j < |prepared| && FullySubmitted(env(j)) {
        var j :| 0 <= j < |prepared| && FullySubmitted(env(j));
        assert Counted(ds, j);
      }
    }
  }

  /** The Submit stage only ever writes `submitted` or `failed`: after it,
      every record is unchanged or has one of those two statuses, and no
      record is added or removed. */
  lemma SubmitWritesOnlySubmittedOrFailed(stored: Option<Json>, env: nat -> SubmitStep)
    requires WellFormed(stored)
    ensures StatusesWithin(stored, SubmitStage(stored, env).stored, {STATUS_SUBMITTED, STATUS_FAILED})
  {
    StatusesWithinRefl(stored, {STATUS_SUBMITTED, STATUS_FAILED});
    QueryOnWellFormed(stored, STATUS_PREPARED);
    var prepared := Filter(Batches(stored), STATUS_PREPARED);
    if prepared != [] {
      var ds := SubmitDecisions(prepared, env);
      forall j | 0 <= j < |ds| && ds[j].Apply?
        ensures ds[j].call.newStatus in {STATUS_SUBMITTED, STATUS_FAILED}
        ensures ds[j].call.newStatus != "" && "status" !in ds[j].call.extra
      {
        SubmitOneDecision(prepared[j].fields, env(j));
      }
      RunUpdatesStatuses(ds, 0, stored, 0, {STATUS_SUBMITTED, STATUS_FAILED});
    }
  }

  /** Each update of the stage is addressed by its own record's id and input
      file, and leaves those two fields alone. */
  lemma SubmitDecisionsAddressed(prepared: seq<Json>, env: nat -> SubmitStep)
    requires AllRecords(prepared)
    ensures var ds := SubmitDecisions(prepared, env);
      && KeepsMatchedFields(ds)
      && forall k :: 0 <= k < |ds| && ds[k].Apply? ==>
           && ds[k].call.batchId == Get(prepared[k].fields, "batch_id")
           && ds[k].call.s3Key == Get(prepared[k].fields, "input_file")
  {
    var ds := SubmitDecisions(prepared, env);
    forall k | 0 <= k < |ds| && ds[k].Apply?
      ensures "batch_id" !in ds[k].call.extra && "input_file" !in ds[k].call.extra
      ensures ds[k].call.batchId == Get(prepared[k].fields, "batch_id")
      ensures ds[k].call.s3Key == Get(prepared[k].fields, "input_file")
    {
      SubmitOneDecision(prepared[k].fields, env(k));
    }
  }

  /** When batch ids and input files are unique, the Submit stage changes
      only records that were `prepared`, and the records stay unique. That
      each prepared record receives its own update is
      `SubmitReachesPrepared` below. */
  lemma {:induction false} SubmitChangesOnlyPrepared(stored: Option<Json>, env: nat -> SubmitStep)
    requires WellFormed(stored) && UniqueKeys(Batches(stored))
    ensures var bs := Batches(stored);
      var after := Batches(SubmitStage(stored, env).stored);
      && |after| == |bs| && UniqueKeys(after)
      && (forall j :: 0 <= j < |bs| && after[j] != bs[j] ==> HasStatus(bs[j], STATUS_PREPARED))
  {
    QueryOnWellFormed(stored, STATUS_PREPARED);
    var bs := Batches(stored);
    var prepared := Filter(bs, STATUS_PREPARED);
    if prepared != [] {
      SubmitDecisionsAddressed(prepared, env);
      RunUpdatesChangesOnlyQueried(SubmitDecisions(prepared, env), stored, prepared, STATUS_PREPARED);
    }
  }

  /** When batch ids and input files are unique and every prepared record
      carries an input file and a target date, a prepared record with a
      non-empty id or input file receives the update issued for it, with
      the outcomes `env(k)` of its own turn (k being its rank among the
      prepared records). If that update is saved, the record becomes
      `submitted` when all three calls succeeded and `failed` otherwise; if
      the save fails, the record is left as it was. */
  lemma {:induction false} SubmitReachesPrepared(stored: Option<Json>, env: nat -> SubmitStep, j: nat)
    requires WellFormed(stored) && UniqueKeys(Batches(stored))
    requires forall i :: 0 <= i < |Batches(stored)| && HasStatus(Batches(stored)[i], STATUS_PREPARED) ==>
      "input_file" in Batches(stored)[i].fields && "target_date" in Batches(stored)[i].fields
    requires j < |Batches(stored)| && HasStatus(Batches(stored)[j], STATUS_PREPARED)
    requires Truthy(Get(Batches(stored)[j].fields, "batch_id")) || Truthy(Get(Batches(stored)[j].fields, "input_file"))
    ensures var bs := Batches(stored);
      var step := env(Rank(bs, STATUS_PREPARED, j));
      var d := SubmitOne(bs[j].fields, step);
      var after := Batches(SubmitStage(stored, env).stored);
      && d.Apply? && j < |after|
      && after[j] == (if step.saveOk then JObj(UpdatedRecord(bs[j].fields, d.call.newStatus, d.call.extra, step.now))
                      else bs[j])
      && (step.saveOk ==>
            Get(after[j].fields, "status") == JStr(if FullySubmitted(step) then STATUS_SUBMITTED else STATUS_FAILED))
  {
    QueryOnWellFormed(stored, STATUS_PREPARED);
    var bs := Batches(stored);
    var prepared := Filter(bs, STATUS_PREPARED);
    FilterAt(bs, STATUS_PREPARED, j);
    var k := Rank(bs, STATUS_PREPARED, j);
    var step := env(k);
    var ds := SubmitDecisions(prepared, env);
    SubmitDecisionsAddressed(prepared, env);
    SubmitDecisionsNoRaise(bs, env);
    FilterKeepsUniqueKeys(bs, STATUS_PREPARED);
    var d := SubmitOne(bs[j].fields, step);
    SubmitOneDecision(bs[j].fields, step);
    assert ds[k] == d;
    RunUpdatesReachesQueried(ds, stored, prepared, k, j);
    assert SubmitStage(stored, env) == RunUpdates(ds, 0, stored, 0);
    var after := Batches(RunUpdates(ds, 0, stored, 0).stored);
    var updated := UpdatedRecord(bs[j].fields, d.call.newStatus, d.call.extra, step.now);
    assert after[j] == if step.saveOk then JObj(updated) else bs[j];
    UpdatedStatus(bs[j].fields, d.call.newStatus, d.call.extra, step.now);
  }

  /** No decision of the stage raises when every prepared record carries an
      input file and a target date. */
  lemma SubmitDecisionsNoRaise(bs: seq<Json>, env: nat -> SubmitStep)
    requires AllRecords(bs)
    requires forall i :: 0 <= i < |bs| && HasStatus(bs[i], STATUS_PREPARED) ==>
      "input_file" in bs[i].fields && "target_date" in bs[i].fields
    ensures var ds := SubmitDecisions(Filter(bs, STATUS_PREPARED), env);
      forall k :: 0 <= k < |ds| ==> !ds[k].Raise?
  {
    var prepared := Filter(bs, STATUS_PREPARED);
    var ds := SubmitDecisions(prepared, env);
    forall k | 0 <= k < |ds| ensures !ds[k].Raise? {
      assert prepared[k] in bs;
      SubmitOneRaises(prepared[k].fields, env(k));
    }
  }

  /** Without uniqueness the stage rewrites the wrong record. Take a store
      holding a record `c` that is not prepared (say, completed) ahead of a
      prepared record `p` with the same input file, and let every external
      call for `p` succeed. The update issued for `p` is matched on that
      input file and reaches `c` first, so `c` is marked `submitted`, `p`
      stays `prepared`, and the stage still returns True. */
  lemma {:induction false} SubmitRewritesEarlierRecord(c: Record, p: Record, env: nat -> SubmitStep)
    requires !HasStatus(JObj(c), STATUS_PREPARED) && HasStatus(JObj(p), STATUS_PREPARED)
    requires "input_file" in p && "target_date" in p
    requires Truthy(p["input_file"]) && Get(c, "input_file") == p["input_file"]
    requires FullySubmitted(env(0)) && env(0).saveOk
    ensures var stored := Some(JObj(map["batches" := JArr([JObj(c), JObj(p)])]));
      var run := SubmitStage(stored, env);
      var after := Batches(run.stored);
      && !UniqueKeys(Batches(stored))
      && run.ok
      && |after| == 2 && after[0].JObj?
      && Get(after[0].fields, "status") == JStr(STATUS_SUBMITTED)
      && after[1] == JObj(p)
  {
    var bs := [JObj(c), JObj(p)];
    var stored := Some(JObj(map["batches" := JArr(bs)]));
    var doc := Load(stored);
    assert BatchList(doc) == Ok(bs) && AllRecords(bs);
    FilterSecondOnly(JObj(c), JObj(p), STATUS_PREPARED);
    var ds := SubmitDecisions([JObj(p)], env);
    SubmitOneDecision(p, env(0));
    var call := ds[0].call;
    assert call.s3Key == p["input_file"] && "status" !in call.extra;
    var updated := JObj(UpdatedRecord(c, STATUS_SUBMITTED, call.extra, env(0).now));
    var stored' := Some(WithBatches(doc, bs[0 := updated]));
    assert Matches(c, call.batchId, call.s3Key);
    UpdateFirstRecord(stored, call, env(0).now, true);
    assert RunUpdates(ds, 0, stored, 0) == StageRun(true, stored') by {
      assert RunUpdates(ds, 1, stored', 1) == StageRun(true, stored');
    }
    assert Batches(stored') == [updated, JObj(p)] by {
      assert BatchList(Load(stored')) == Ok(bs[0 := updated]);
    }
    SharedInputFileNotUnique(bs, 0, 1);
  }

  /** `upload_jsonl_to_openai` against the control store. */
  method UploadJsonlToOpenai(control: ControlStore, env: nat -> SubmitStep) returns (ok: bool)
    modifies control
    ensures StageRun(ok, control.stored) == SubmitStage(old(control.stored), env)
  {
    var prepared := control.GetPreparedBatches();
    if prepared.Err? {
      return false;
    }
    var batches := prepared.value;
    if batches == [] {
      return false;
    }
    ghost var ds := SubmitDecisions(batches, env);
    var successCount := 0;
    var i := 0;
    while i < |batches|
      invariant 0 <= i <= |batches|
      invariant RunUpdates(ds, i, control.stored, successCount) == SubmitStage(old(control.stored), env)
    {
      var batch := batches[i].fields;
      var step := env(i);
      assert ds[i] == SubmitOne(batch, step);
      if "input_file" !in batch || "target_date" !in batch {
        return false;
      }
      var s3Key := batch["input_file"];
      var newStatus, extra, succeeded;
      if !step.downloaded {
        newStatus, extra, succeeded := STATUS_FAILED, map["error" := JStr(DOWNLOAD_ERROR)], false;
      } else if step.fileUpload.Err? {
        newStatus, extra, succeeded := STATUS_FAILED, map["error" := JStr(step.fileUpload.error)], false;
      } else if step.jobCreate.Err? {
        var fileId := step.fileUpload.value;
        newStatus, extra, succeeded := STATUS_FAILED, map["error" := JStr(step.jobCreate.error), "file_id" := JStr(fileId)], false;
      } else {
        var fileId, jobId := step.fileUpload.value, step.jobCreate.value;
        newStatus, extra, succeeded := STATUS_SUBMITTED, map["file_id" := JStr(fileId), "openai_batch_id" := JStr(jobId)], true;
      }
      var updated := control.UpdateBatchStatus(step.now, step.saveOk, batchId := Get(batch, "batch_id"), s3Key := s3Key,
                                               newStatus := newStatus, extra := extra);
      if updated.Err? {
        return false;
      }
      if succeeded {
        successCount := successCount + 1;
      }
      i := i + 1;
    }
    ok := successCount > 0;
  }
}
