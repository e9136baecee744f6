/** The batch control file: one JSON document `{"batches": [record, ...]}`
    kept in the object store, and the repository operations over it
    (load with fallback, save, query by status, create, update). */
module ControlFile {
  import opened Values

  const STATUS_PREPARED: string := "prepared"
  const STATUS_SUBMITTED: string := "submitted"
  const STATUS_COMPLETED: string := "completed"
  const STATUS_FAILED: string := "failed"

  /** What a missing or unreadable control file loads as. */
  const EmptyDocument: Json := JObj(map["batches" := JArr([])])

  /** `get_control_data` on what the store holds. `stored` is the decoded
      object at the control key, None when it is absent or not valid JSON;
      a stored JSON `null` also decodes to Python's None. */
  function Load(stored: Option<Json>): Json {
    match stored
    case None => EmptyDocument
    case Some(doc) => if doc == JNull then EmptyDocument else doc
  }

  /** The elements visited by `for batch in control_data.get("batches", [])`.
      A document that is not a dict has no `.get` (AttributeError); a missing
      key yields []; a list yields its items; an empty dict or string yields
      nothing; a non-empty dict or string yields strings, on which the
      caller's `batch.get(...)` raises AttributeError at once; null, a boolean
      or a number is not iterable (TypeError). */
  function BatchList(doc: Json): (r: Result<seq<Json>>)
    ensures r.Ok? && r.value != [] ==>
      doc.JObj? && "batches" in doc.fields && doc.fields["batches"] == JArr(r.value)
  {
    if !doc.JObj? then Err("AttributeError")
    else if "batches" !in doc.fields then Ok([])
    else match doc.fields["batches"]
      case JArr(xs) => Ok(xs)
      case JObj(m) => if m == map[] then Ok([]) else Err("AttributeError")
      case JStr(s) => if s == "" then Ok([]) else Err("AttributeError")
      case _ => Err("TypeError")
  }

  predicate AllRecords(bs: seq<Json>) {
    forall j :: 0 <= j < |bs| ==> bs[j].JObj?
  }

  /** The store holds a document whose batch list can be scanned without an
      exception: every element is a dict. */
  predicate WellFormed(stored: Option<Json>) {
    var bl := BatchList(Load(stored));
    bl.Ok? && AllRecords(bl.value)
  }

  /** The batch list of the stored document ([] when it cannot be read). */
  function Batches(stored: Option<Json>): seq<Json> {
    match BatchList(Load(stored))
    case Ok(bs) => bs
    case Err(_) => []
  }

  /** `batch.get("status") == status` */
  predicate HasStatus(b: Json, status: string) {
    b.JObj? && Get(b.fields, "status") == JStr(status)
  }

  /** The list comprehension of `get_batches_by_status`, on a list of dicts. */
  function Filter(bs: seq<Json>, status: string): (r: seq<Json>)
    ensures |r| <= |bs|
    ensures forall j :: 0 <= j < |r| ==> r[j] in bs && HasStatus(r[j], status)
  {
    if bs == [] then []
    else (if HasStatus(bs[0], status) then [bs[0]] else []) + Filter(bs[1..], status)
  }

  /** Of two records, the query keeps only the second when only it has the status. */
  lemma FilterSecondOnly(a: Json, b: Json, status: string)
    requires !HasStatus(a, status) && HasStatus(b, status)
    ensures Filter([a, b], status) == [b]
  {
    assert [a, b][1..] == [b] && [b][1..] == [];
  }

  /** The number of records with `status` among the first `i`. */
  function Rank(bs: seq<Json>, status: string, i: nat): nat
    requires i <= |bs|
  {
    if i == 0 then 0 else Rank(bs, status, i - 1) + (if HasStatus(bs[i - 1], status) then 1 else 0)
  }

  lemma {:induction false} RankOfTail(bs: seq<Json>, status: string, i: nat)
    requires 1 <= i <= |bs|
    ensures Rank(bs, status, i) == (if HasStatus(bs[0], status) then 1 else 0) + Rank(bs[1..], status, i - 1)
  {
    if i > 1 {
      RankOfTail(bs, status, i - 1);
      assert bs[1..][i - 2] == bs[i - 1];
    }
  }

  lemma {:induction false} FilterLength(bs: seq<Json>, status: string)
    ensures |Filter(bs, status)| == Rank(bs, status, |bs|)
  {
    if bs != [] {
      FilterLength(bs[1..], status);
      RankOfTail(bs, status, |bs|);
    }
  }

  lemma {:induction false} FilterAt(bs: seq<Json>, status: string, i: nat)
    requires i < |bs| && HasStatus(bs[i], status)
    ensures Rank(bs, status, i) < |Filter(bs, status)| && Filter(bs, status)[Rank(bs, status, i)] == bs[i]
  {
    var t := bs[1..];
    var head := if HasStatus(bs[0], status) then [bs[0]] else [];
    assert Filter(bs, status) == head + Filter(t, status);
    if i > 0 {
      FilterAt(t, status, i - 1);
      RankOfTail(bs, status, i);
    }
  }

  /** The filter keeps exactly the records with the status, in their
      original order: the k-th match of the input is the k-th element of
      the output, and there are no others. */
  lemma FilterIsExact(bs: seq<Json>, status: string)
    ensures |Filter(bs, status)| == Rank(bs, status, |bs|)
    ensures forall i :: 0 <= i < |bs| && HasStatus(bs[i], status) ==>
      Rank(bs, status, i) < |Filter(bs, status)| && Filter(bs, status)[Rank(bs, status, i)] == bs[i]
  {
    FilterLength(bs, status);
    forall i | 0 <= i < |bs| && HasStatus(bs[i], status)
      ensures Rank(bs, status, i) < |Filter(bs, status)| && Filter(bs, status)[Rank(bs, status, i)] == bs[i]
    {
      FilterAt(bs, status, i);
    }
  }

  /** `get_batches_by_status(status)`: the records with that status, or the
      exception raised while reading the batch list. */
  function BatchesWithStatus(stored: Option<Json>, status: string): (r: Result<seq<Json>>)
    ensures r.Ok? ==> AllRecords(r.value)
  {
    match BatchList(Load(stored))
    case Err(e) => Err(e)
    case Ok(bs) => if AllRecords(bs) then Ok(Filter(bs, status)) else Err("AttributeError")
  }

  /** A store that can be scanned answers every status query, with records only. */
  lemma {:induction false} QueryOnWellFormed(stored: Option<Json>, status: string)
    requires WellFormed(stored)
    ensures BatchesWithStatus(stored, status).Ok?
    ensures AllRecords(BatchesWithStatus(stored, status).value)
    ensures BatchesWithStatus(stored, status).value == Filter(Batches(stored), status)
  {
  }

  /** The record `create_batch` appends: the base fields, then
      `additional_data` merged over them. */
  function NewEntry(batchId: string, inputFile: string, targetDate: string, status: string,
                    createdAt: string, updatedAt: string, extra: Record): Record
  {
    map["batch_id" := JStr(batchId), "input_file" := JStr(inputFile),
        "target_date" := JStr(targetDate), "status" := JStr(status),
        "created_at" := JStr(createdAt), "updated_at" := JStr(updatedAt)] + extra
  }

  /** The new record carries the given fields unless `additional_data`
      names the same key, in which case the additional value wins. */
  lemma NewEntryFields(batchId: string, inputFile: string, targetDate: string, status: string,
                       createdAt: string, updatedAt: string, extra: Record)
    ensures var e := NewEntry(batchId, inputFile, targetDate, status, createdAt, updatedAt, extra);
      && e.Keys == extra.Keys + {"batch_id", "input_file", "target_date", "status", "created_at", "updated_at"}
      && (forall k :: k in extra ==> e[k] == extra[k])
      && ("batch_id" !in extra ==> e["batch_id"] == JStr(batchId))
      && ("input_file" !in extra ==> e["input_file"] == JStr(inputFile))
      && ("target_date" !in extra ==> e["target_date"] == JStr(targetDate))
      && ("status" !in extra ==> e["status"] == JStr(status))
      && ("created_at" !in extra ==> e["created_at"] == JStr(createdAt))
      && ("updated_at" !in extra ==> e["updated_at"] == JStr(updatedAt))
  {
  }

  /** `control_data["batches"].append(entry)`: a non-dict document cannot be
      indexed by a string (TypeError), a missing key is a KeyError, and only
      a list has `append` (AttributeError otherwise). */
  function Appended(doc: Json, entry: Json): Result<Json> {
    if !doc.JObj? then Err("TypeError")
    else if "batches" !in doc.fields then Err("KeyError")
    else match doc.fields["batches"]
      case JArr(xs) => Ok(JObj(doc.fields["batches" := JArr(xs + [entry])]))
      case _ => Err("AttributeError")
  }

  /** Appending succeeds exactly on a document holding a `batches` list; the
      result has one more record, at the end, the earlier records unchanged,
      and every other top-level key as before. */
  lemma {:induction false} AppendedAddsOneAtEnd(doc: Json, entry: Json)
    ensures Appended(doc, entry).Ok? <==>
      doc.JObj? && "batches" in doc.fields && doc.fields["batches"].JArr?
    ensures Appended(doc, entry).Ok? ==>
      var d := Appended(doc, entry).value;
      && BatchList(doc).Ok?
      && BatchList(d) == Ok(BatchList(doc).value + [entry])
      && d.JObj? && d.fields.Keys == doc.fields.Keys
      && (forall k :: k in doc.fields && k != "batches" ==> d.fields[k] == doc.fields[k])
  {
  }

  /** Appending a record to a well-formed store keeps it well-formed. */
  lemma {:induction false} AppendedKeepsWellFormed(stored: Option<Json>, entry: Record)
    requires WellFormed(stored)
    requires Appended(Load(stored), JObj(entry)).Ok?
    ensures WellFormed(Some(Appended(Load(stored), JObj(entry)).value))
    ensures Batches(Some(Appended(Load(stored), JObj(entry)).value)) == Batches(stored) + [JObj(entry)]
  {
    AppendedAddsOneAtEnd(Load(stored), JObj(entry));
    var bs := Batches(stored);
    var bs' := bs + [JObj(entry)];
    forall j | 0 <= j < |bs'| ensures bs'[j].JObj? {
      if j < |bs| { assert bs'[j] == bs[j]; }
    }
  }

  /** The test of `update_batch_status`'s scan: the id matches, or the key matches. */
  predicate Matches(rec: Record, batchId: Json, s3Key: Json) {
    || (Truthy(batchId) && Get(rec, "batch_id") == batchId)
    || (Truthy(s3Key) && Get(rec, "input_file") == s3Key)
  }

  /** Every element in [lo, hi) is a dict that does not match. */
  predicate Skipped(bs: seq<Json>, batchId: Json, s3Key: Json, lo: nat, hi: nat)
    requires hi <= |bs|
  {
    forall j :: lo <= j < hi ==> bs[j].JObj? && !Matches(bs[j].fields, batchId, s3Key)
  }

  /** The scan from position `i`: the first element that matches, None when
      none does, or the exception raised on the first non-dict reached. */
  function LocateFrom(bs: seq<Json>, batchId: Json, s3Key: Json, i: nat): (r: Result<Option<nat>>)
    requires i <= |bs|
    decreases |bs| - i
    ensures r.Ok? && r.value.Some? ==>
      var k := r.value.value;
      i <= k < |bs| && bs[k].JObj? && Matches(bs[k].fields, batchId, s3Key) && Skipped(bs, batchId, s3Key, i, k)
    ensures r.Ok? && r.value.None? ==> Skipped(bs, batchId, s3Key, i, |bs|)
    ensures r.Err? ==> exists k :: i <= k < |bs| && !bs[k].JObj? && Skipped(bs, batchId, s3Key, i, k)
  {
    if i == |bs| then Ok(None)
    else if !bs[i].JObj? then Err("AttributeError")
    else if Matches(bs[i].fields, batchId, s3Key) then Ok(Some(i))
    else LocateFrom(bs, batchId, s3Key, i + 1)
  }

  /** Index `i` is the first record in list order satisfying either test. */
  predicate IsFirstMatch(bs: seq<Json>, batchId: Json, s3Key: Json, i: int) {
    0 <= i < |bs| && bs[i].JObj? && Matches(bs[i].fields, batchId, s3Key) && Skipped(bs, batchId, s3Key, 0, i)
  }

  /** The matched record after the update: the status when one is given,
      then `additional_data` merged over it, then a fresh `updated_at`. */
  function UpdatedRecord(rec: Record, newStatus: string, extra: Record, now: string): Record {
    var withStatus := if newStatus != "" then rec["status" := JStr(newStatus)] else rec;
    (withStatus + extra)["updated_at" := JStr(now)]
  }

  /** The fields of an updated record: `updated_at` is always the new time,
      even over an `updated_at` in the additional data; the status is the
      additional data's if it has one, else the new status if one is given,
      else unchanged; every other key comes from the additional data if it
      has it, else from the record. */
  lemma UpdatedRecordFields(rec: Record, newStatus: string, extra: Record, now: string)
    ensures var u := UpdatedRecord(rec, newStatus, extra, now);
      && u.Keys == rec.Keys + extra.Keys + {"updated_at"} + (if newStatus != "" then {"status"} else {})
      && u["updated_at"] == JStr(now)
      && ("status" in extra ==> u["status"] == extra["status"])
      && ("status" !in extra && newStatus != "" ==> u["status"] == JStr(newStatus))
      && ("status" !in extra && newStatus == "" ==> Get(u, "status") == Get(rec, "status"))
      && (forall k :: k in u && k != "status" && k != "updated_at" ==>
            u[k] == if k in extra then extra[k] else rec[k])
  {
  }

  /** With a new status and no `status` in the additional data, the updated
      record has the new status. */
  lemma UpdatedStatus(rec: Record, newStatus: string, extra: Record, now: string)
    requires newStatus != "" && "status" !in extra
    ensures Get(UpdatedRecord(rec, newStatus, extra, now), "status") == JStr(newStatus)
  {
    UpdatedRecordFields(rec, newStatus, extra, now);
  }

  /** The arguments of one `update_batch_status` call; `""` stands for a
      missing (or empty) `new_status`, an empty map for missing
      `additional_data`, JNull for a missing `batch_id` or `s3_key`. */
  datatype UpdateCall = UpdateCall(batchId: Json, s3Key: Json, newStatus: string, extra: Record)

  /** What a call returns (or raises) and what the store then holds. */
  datatype Effect = Effect(result: Result<bool>, stored: Option<Json>)

  /** `doc` with its batch list replaced. */
  function WithBatches(doc: Json, bs: seq<Json>): Json
    requires doc.JObj?
  {
    JObj(doc.fields["batches" := JArr(bs)])
  }

  /** `update_batch_status` as a function of the store before the call, the
      clock reading and whether the save succeeds. */
  function UpdateEffect(stored: Option<Json>, call: UpdateCall, now: string, saveOk: bool): Effect {
    if !Truthy(call.batchId) && !Truthy(call.s3Key) then Effect(Ok(false), stored)
    else
      var doc := Load(stored);
      match BatchList(doc)
      case Err(e) => Effect(Err(e), stored)
      case Ok(bs) =>
        match LocateFrom(bs, call.batchId, call.s3Key, 0)
        case Err(e) => Effect(Err(e), stored)
        case Ok(None) => Effect(Ok(false), stored)
        case Ok(Some(i)) =>
          var updated := JObj(UpdatedRecord(bs[i].fields, call.newStatus, call.extra, now));
          var newDoc := WithBatches(doc, bs[i := updated]);
          Effect(Ok(saveOk), if saveOk then Some(newDoc) else stored)
  }

  /** Without an id or a key the call returns False and the store is untouched. */
  lemma UpdateWithoutKey(stored: Option<Json>, call: UpdateCall, now: string, saveOk: bool)
    requires !Truthy(call.batchId) && !Truthy(call.s3Key)
    ensures UpdateEffect(stored, call, now, saveOk) == Effect(Ok(false), stored)
  {
  }

  /** On a well-formed store an update never raises, and it changes exactly
      the first record in list order whose id or input file matches: that
      one becomes the updated record (if the save succeeds), every other
      record stays as it was, and the call returns the save's outcome. When nothing matches it returns False and
      saves nothing. */
  lemma {:induction false} UpdateChangesOnlyFirstMatch(stored: Option<Json>, call: UpdateCall, now: string, saveOk: bool)
    requires WellFormed(stored)
    ensures var e := UpdateEffect(stored, call, now, saveOk);
      var bs := Batches(stored);
      && e.result.Ok?
      && WellFormed(e.stored)
      && |Batches(e.stored)| == |bs|
      && (e.result.value <==> saveOk && exists i :: IsFirstMatch(bs, call.batchId, call.s3Key, i))
      && ((forall i :: !IsFirstMatch(bs, call.batchId, call.s3Key, i)) ==> e.stored == stored)
      && (forall j :: 0 <= j < |bs| && !IsFirstMatch(bs, call.batchId, call.s3Key, j) ==>
            Batches(e.stored)[j] == bs[j])
      && (forall i :: IsFirstMatch(bs, call.batchId, call.s3Key, i) ==>
            Batches(e.stored)[i] ==
              if saveOk then JObj(UpdatedRecord(bs[i].fields, call.newStatus, call.extra, now)) else bs[i])
  {
    var e := UpdateEffect(stored, call, now, saveOk);
    var bs := Batches(stored);
    var doc := Load(stored);
    if Truthy(call.batchId) || Truthy(call.s3Key) {
      var loc := LocateFrom(bs, call.batchId, call.s3Key, 0);
      if loc.Err? {
        assert false;
      } else if loc.value.None? {
        forall i ensures !IsFirstMatch(bs, call.batchId, call.s3Key, i) {
          if 0 <= i < |bs| { assert bs[i].JObj? && !Matches(bs[i].fields, call.batchId, call.s3Key); }
        }
      } else {
        var i := loc.value.value;
        assert IsFirstMatch(bs, call.batchId, call.s3Key, i);
        forall j | IsFirstMatch(bs, call.batchId, call.s3Key, j) ensures j == i { }
        var bs' := bs[i := JObj(UpdatedRecord(bs[i].fields, call.newStatus, call.extra, now))];
        if saveOk {
          assert BatchList(WithBatches(doc, bs')) == Ok(bs');
          assert AllRecords(bs');
        }
      }
    } else {
      forall i ensures !IsFirstMatch(bs, call.batchId, call.s3Key, i) {
        if 0 <= i < |bs| && bs[i].JObj? { assert !Matches(bs[i].fields, call.batchId, call.s3Key); }
      }
    }
  }

  /** An update whose id or key matches the first record rewrites that
      record, whatever the later records hold. */
  lemma UpdateFirstRecord(stored: Option<Json>, call: UpdateCall, now: string, saveOk: bool)
    requires WellFormed(stored) && Batches(stored) != []
    requires Matches(Batches(stored)[0].fields, call.batchId, call.s3Key)
    ensures Load(stored).JObj?
    ensures var bs := Batches(stored);
      var updated := JObj(UpdatedRecord(bs[0].fields, call.newStatus, call.extra, now));
      UpdateEffect(stored, call, now, saveOk) ==
        Effect(Ok(saveOk), if saveOk then Some(WithBatches(Load(stored), bs[0 := updated])) else stored)
  {
  }

  /** On a well-formed store an update never raises and leaves the store
      well-formed. */
  lemma UpdateKeepsWellFormed(stored: Option<Json>, call: UpdateCall, now: string, saveOk: bool)
    requires WellFormed(stored)
    ensures UpdateEffect(stored, call, now, saveOk).result.Ok?
    ensures WellFormed(UpdateEffect(stored, call, now, saveOk).stored)
  {
    UpdateChangesOnlyFirstMatch(stored, call, now, saveOk);
  }

  /** An update that changes the store rewrites only its batch list: the
      document keeps its top-level keys, and every key but `batches` keeps
      its value. */
  lemma {:induction false} UpdateKeepsOtherKeys(stored: Option<Json>, call: UpdateCall, now: string, saveOk: bool)
    requires WellFormed(stored)
    ensures var e := UpdateEffect(stored, call, now, saveOk);
      var doc := Load(stored);
      e.stored != stored ==>
        && doc.JObj? && Load(e.stored).JObj?
        && Load(e.stored).fields.Keys == doc.fields.Keys
        && Load(e.stored).fields["batches"] == JArr(Batches(e.stored))
        && (forall k :: k in doc.fields && k != "batches" ==> Load(e.stored).fields[k] == doc.fields[k])
  {
    var e := UpdateEffect(stored, call, now, saveOk);
    var doc := Load(stored);
    if e.stored != stored {
      var bs := Batches(stored);
      var i := LocateFrom(bs, call.batchId, call.s3Key, 0).value.value;
      assert bs != [];
      assert "batches" in doc.fields;
      assert BatchList(Load(e.stored)) == Ok(bs[i := JObj(UpdatedRecord(bs[i].fields, call.newStatus, call.extra, now))]);
    }
  }

  /** Repeating a successful call gives the same store apart from the
      matched record's `updated_at`, provided the additional data does not
      rewrite the fields the call is matched on. */
  lemma {:induction false} UpdateIdempotent(stored: Option<Json>, call: UpdateCall, now1: string, now2: string)
    requires WellFormed(stored)
    requires "batch_id" !in call.extra && "input_file" !in call.extra
    requires UpdateEffect(stored, call, now1, true).result == Ok(true)
    ensures var s1 := UpdateEffect(stored, call, now1, true).stored;
      var e2 := UpdateEffect(s1, call, now2, true);
      && e2.result == Ok(true)
      && (exists i :: IsFirstMatch(Batches(s1), call.batchId, call.s3Key, i) &&
            e2.stored == Some(WithBatches(Load(s1), Batches(s1)[i := JObj(Batches(s1)[i].fields["updated_at" := JStr(now2)])])))
  {
    var bs := Batches(stored);
    var doc := Load(stored);
    UpdateChangesOnlyFirstMatch(stored, call, now1, true);
    var loc := LocateFrom(bs, call.batchId, call.s3Key, 0);
    assert loc.Ok? && loc.value.Some? by {
      if loc.Err? {
        assert false;
      }
    }
    var i := loc.value.value;
    var u := UpdatedRecord(bs[i].fields, call.newStatus, call.extra, now1);
    var bs1 := bs[i := JObj(u)];
    var s1 := Some(WithBatches(doc, bs1));
    assert UpdateEffect(stored, call, now1, true).stored == s1;
    assert Load(s1) == WithBatches(doc, bs1);
    assert BatchList(Load(s1)) == Ok(bs1);
    // the matched record still matches, and the earlier ones still do not
    assert Get(u, "batch_id") == Get(bs[i].fields, "batch_id");
    assert Get(u, "input_file") == Get(bs[i].fields, "input_file");
    assert Skipped(bs1, call.batchId, call.s3Key, 0, i) by {
      forall j | 0 <= j < i ensures bs1[j] == bs[j] { }
    }
    var loc2 := LocateFrom(bs1, call.batchId, call.s3Key, 0);
    assert loc2 == Ok(Some(i)) by {
      LocateFirst(bs1, call.batchId, call.s3Key, i);
    }
    var u2 := UpdatedRecord(u, call.newStatus, call.extra, now2);
    assert u2 == u["updated_at" := JStr(now2)];
    assert IsFirstMatch(bs1, call.batchId, call.s3Key, i);
    assert bs1[i := JObj(u2)] == bs1[i := JObj(bs1[i].fields["updated_at" := JStr(now2)])];
  }

  /** The scan stops at a first match that is preceded only by non-matching dicts. */
  lemma {:induction false} LocateFirst(bs: seq<Json>, batchId: Json, s3Key: Json, i: nat)
    requires IsFirstMatch(bs, batchId, s3Key, i)
    ensures LocateFrom(bs, batchId, s3Key, 0) == Ok(Some(i))
  {
    var r := LocateFrom(bs, batchId, s3Key, 0);
    if r.Ok? && r.value.Some? {
      var k := r.value.value;
      assert k <= i;
    }
  }

  /** The record has a status drawn from `allowed`. */
  predicate StatusIn(b: Json, allowed: set<string>) {
    b.JObj? && Get(b.fields, "status").JStr? && Get(b.fields, "status").s in allowed
  }

  /** Between two well-formed stores, the batch list keeps its length and
      every record is either unchanged or now has a status from `allowed`. */
  predicate StatusesWithin(before: Option<Json>, after: Option<Json>, allowed: set<string>) {
    && WellFormed(before) && WellFormed(after)
    && |Batches(after)| == |Batches(before)|
    && forall j :: 0 <= j < |Batches(before)| ==>
         Batches(after)[j] == Batches(before)[j] || StatusIn(Batches(after)[j], allowed)
  }

  lemma StatusesWithinRefl(stored: Option<Json>, allowed: set<string>)
    requires WellFormed(stored)
    ensures StatusesWithin(stored, stored, allowed)
  {
  }

  lemma StatusesWithinTrans(a: Option<Json>, b: Option<Json>, c: Option<Json>, allowed: set<string>)
    requires StatusesWithin(a, b, allowed) && StatusesWithin(b, c, allowed)
    ensures StatusesWithin(a, c, allowed)
  {
  }

  /** An update whose new status is in `allowed` and whose additional data
      does not carry a status can only move records into `allowed`. */
  lemma {:induction false} UpdateStatusesWithin(stored: Option<Json>, call: UpdateCall, now: string, saveOk: bool, allowed: set<string>)
    requires WellFormed(stored)
    requires call.newStatus in allowed && call.newStatus != "" && "status" !in call.extra
    ensures StatusesWithin(stored, UpdateEffect(stored, call, now, saveOk).stored, allowed)
  {
    UpdateChangesOnlyFirstMatch(stored, call, now, saveOk);
    var bs := Batches(stored);
    var after := Batches(UpdateEffect(stored, call, now, saveOk).stored);
    forall j | 0 <= j < |bs| ensures after[j] == bs[j] || StatusIn(after[j], allowed) {
      if IsFirstMatch(bs, call.batchId, call.s3Key, j) && saveOk {
        UpdatedRecordFields(bs[j].fields, call.newStatus, call.extra, now);
      }
    }
  }

  /** What a pipeline stage decides for one batch of its list: it raises
      (ending the stage with False), leaves the batch alone, or issues one
      status update -- with the clock reading and the save outcome of that
      update -- and counts the batch as a success or not. */
  datatype Decision =
    | Raise(error: string)
    | Skip
    | Apply(call: UpdateCall, succeeded: bool, now: string, saveOk: bool)

  /** What a pipeline stage returns and the store it leaves behind. */
  datatype StageRun = StageRun(ok: bool, stored: Option<Json>)

  /** The loop shared by the stages, from batch `i` on, with `count`
      successes so far: decisions are carried out in list order, the first
      exception (its own or one raised by the update) ends the stage with
      False, and otherwise the stage returns whether anything succeeded. */
  function RunUpdates(ds: seq<Decision>, i: nat, stored: Option<Json>, count: nat): StageRun
    requires i <= |ds|
    decreases |ds| - i
  {
    if i == |ds| then StageRun(count > 0, stored)
    else match ds[i]
      case Raise(_) => StageRun(false, stored)
      case Skip => RunUpdates(ds, i + 1, stored, count)
      case Apply(call, succeeded, now, saveOk) =>
        var e := UpdateEffect(stored, call, now, saveOk);
        if e.result.Err? then StageRun(false, e.stored)
        else RunUpdates(ds, i + 1, e.stored, count + (if succeeded then 1 else 0))
  }

  /** Batch `j` is counted as a success. */
  predicate Counted(ds: seq<Decision>, j: int) {
    0 <= j < |ds| && ds[j].Apply? && ds[j].succeeded
  }

  /** On a well-formed store, when no decision raises, the stage returns
      True exactly when some batch (or an earlier one) counted as a
      success -- whatever the saves did -- and the store stays well-formed. */
  lemma {:induction false} RunUpdatesResult(ds: seq<Decision>, i: nat, stored: Option<Json>, count: nat)
    requires i <= |ds| && WellFormed(stored)
    requires forall j :: 0 <= j < |ds| ==> !ds[j].Raise?
    ensures RunUpdates(ds, i, stored, count).ok <==> count > 0 || exists j :: i <= j && Counted(ds, j)
    ensures WellFormed(RunUpdates(ds, i, stored, count).stored)
    decreases |ds| - i
  {
    if i < |ds| {
      match ds[i]
      case Skip =>
        RunUpdatesResult(ds, i + 1, stored, count);
      case Apply(call, succeeded, now, saveOk) =>
        UpdateKeepsWellFormed(stored, call, now, saveOk);
        var e := UpdateEffect(stored, call, now, saveOk);
        RunUpdatesResult(ds, i + 1, e.stored, count + (if succeeded then 1 else 0));
        if succeeded {
          assert Counted(ds, i);
        } else if exists j :: i <= j && Counted(ds, j) {
          var j :| i <= j && Counted(ds, j);
          assert i + 1 <= j;
        }
    }
  }

  /** When every update a stage issues writes a status from `allowed` and
      its additional data carries no status, the stage moves records only
      into `allowed`, and adds or removes none. */
  lemma {:induction false} RunUpdatesStatuses(ds: seq<Decision>, i: nat, stored: Option<Json>, count: nat, allowed: set<string>)
    requires i <= |ds| && WellFormed(stored)
    requires forall j :: 0 <= j < |ds| && ds[j].Apply? ==>
      ds[j].call.newStatus in allowed && ds[j].call.newStatus != "" && "status" !in ds[j].call.extra
    ensures StatusesWithin(stored, RunUpdates(ds, i, stored, count).stored, allowed)
    decreases |ds| - i
  {
    StatusesWithinRefl(stored, allowed);
    if i < |ds| {
      match ds[i]
      case Raise(_) =>
      case Skip =>
        RunUpdatesStatuses(ds, i + 1, stored, count, allowed);
      case Apply(call, succeeded, now, saveOk) =>
        UpdateStatusesWithin(stored, call, now, saveOk, allowed);
        UpdateKeepsWellFormed(stored, call, now, saveOk);
        var e := UpdateEffect(stored, call, now, saveOk);
        var next := count + (if succeeded then 1 else 0);
        RunUpdatesStatuses(ds, i + 1, e.stored, next, allowed);
        StatusesWithinTrans(stored, e.stored, RunUpdates(ds, i + 1, e.stored, next).stored, allowed);
    }
  }

  /** A stage whose control-file saves all fail leaves the store as it was. */
  lemma {:induction false} RunUpdatesUnsaved(ds: seq<Decision>, i: nat, stored: Option<Json>, count: nat)
    requires i <= |ds|
    requires forall j :: 0 <= j < |ds| && ds[j].Apply? ==> !ds[j].saveOk
    ensures RunUpdates(ds, i, stored, count).stored == stored
    decreases |ds| - i
  {
    if i < |ds| {
      match ds[i]
      case Raise(_) =>
      case Skip =>
        RunUpdatesUnsaved(ds, i + 1, stored, count);
      case Apply(call, succeeded, now, saveOk) =>
        var e := UpdateEffect(stored, call, now, saveOk);
        RunUpdatesUnsaved(ds, i + 1, e.stored, count + (if succeeded then 1 else 0));
    }
  }

  /** How far the stage gets: the number of leading decisions whose work is
      carried out. A decision that raises by itself stops the stage before
      it does anything; one whose update raises is counted, its batch's
      work having been done before the update. When nothing raises, every
      decision is carried out. */
  function Reached(ds: seq<Decision>, i: nat, stored: Option<Json>): (n: nat)
    requires i <= |ds|
    ensures i <= n <= |ds|
    decreases |ds| - i
  {
    if i == |ds| then |ds|
    else match ds[i]
      case Raise(_) => i
      case Skip => Reached(ds, i + 1, stored)
      case Apply(call, _, now, saveOk) =>
        var e := UpdateEffect(stored, call, now, saveOk);
        if e.result.Err? then i + 1 else Reached(ds, i + 1, e.stored)
  }

  /** One step of the stage loop: what decision `i` does to the result and
      to how far the stage gets. */
  lemma RunUpdatesStep(ds: seq<Decision>, i: nat, stored: Option<Json>, count: nat)
    requires i < |ds|
    ensures ds[i].Raise? ==> RunUpdates(ds, i, stored, count) == StageRun(false, stored) && Reached(ds, i, stored) == i
    ensures ds[i].Skip? ==>
      RunUpdates(ds, i, stored, count) == RunUpdates(ds, i + 1, stored, count) && Reached(ds, i, stored) == Reached(ds, i + 1, stored)
    ensures ds[i].Apply? ==>
      var e := UpdateEffect(stored, ds[i].call, ds[i].now, ds[i].saveOk);
      && (e.result.Err? ==> RunUpdates(ds, i, stored, count) == StageRun(false, e.stored) && Reached(ds, i, stored) == i + 1)
      && (e.result.Ok? ==>
            && RunUpdates(ds, i, stored, count) == RunUpdates(ds, i + 1, e.stored, count + (if ds[i].succeeded then 1 else 0))
            && Reached(ds, i, stored) == Reached(ds, i + 1, e.stored))
  {
  }

  /** A stage that returns True has carried out every decision, and some
      batch (or an earlier one) counted as a success. */
  lemma {:induction false} RunUpdatesOkReachesAll(ds: seq<Decision>, i: nat, stored: Option<Json>, count: nat)
    requires i <= |ds|
    ensures RunUpdates(ds, i, stored, count).ok ==>
      && Reached(ds, i, stored) == |ds|
      && (count > 0 || exists k :: i <= k && Counted(ds, k))
    decreases |ds| - i
  {
    if i < |ds| {
      match ds[i]
      case Raise(_) =>
      case Skip =>
        RunUpdatesOkReachesAll(ds, i + 1, stored, count);
      case Apply(call, succeeded, now, saveOk) =>
        var e := UpdateEffect(stored, call, now, saveOk);
        RunUpdatesOkReachesAll(ds, i + 1, e.stored, count + (if succeeded then 1 else 0));
        if succeeded {
          assert Counted(ds, i);
        }
    }
  }

  /** On a well-formed store, a stage in which no decision raises carries
      out every decision. */
  lemma {:induction false} RunUpdatesReachesAll(ds: seq<Decision>, i: nat, stored: Option<Json>)
    requires i <= |ds| && WellFormed(stored)
    requires forall k :: 0 <= k < |ds| ==> !ds[k].Raise?
    ensures Reached(ds, i, stored) == |ds|
    decreases |ds| - i
  {
    if i < |ds| {
      match ds[i]
      case Skip =>
        RunUpdatesReachesAll(ds, i + 1, stored);
      case Apply(call, succeeded, now, saveOk) =>
        UpdateKeepsWellFormed(stored, call, now, saveOk);
        RunUpdatesReachesAll(ds, i + 1, UpdateEffect(stored, call, now, saveOk).stored);
    }
  }

  /** Two batch lists of records, of the same length, whose records agree
      position by position on the two fields an update is matched on. */
  predicate SameKeys(a: seq<Json>, b: seq<Json>) {
    && |a| == |b|
    && forall j :: 0 <= j < |a| ==>
         && a[j].JObj? && b[j].JObj?
         && Get(a[j].fields, "batch_id") == Get(b[j].fields, "batch_id")
         && Get(a[j].fields, "input_file") == Get(b[j].fields, "input_file")
  }

  /** No two records share a non-empty `batch_id`, and no two share a
      non-empty `input_file`: the condition under which an update reaches
      the record it was issued for. */
  predicate UniqueKeys(bs: seq<Json>) {
    forall i, j :: 0 <= i < |bs| && 0 <= j < |bs| && i != j && bs[i].JObj? && bs[j].JObj? ==>
      && (Truthy(Get(bs[i].fields, "batch_id")) ==> Get(bs[i].fields, "batch_id") != Get(bs[j].fields, "batch_id"))
      && (Truthy(Get(bs[i].fields, "input_file")) ==> Get(bs[i].fields, "input_file") != Get(bs[j].fields, "input_file"))
  }

  /** Two records with the same non-empty input file break uniqueness. */
  lemma SharedInputFileNotUnique(bs: seq<Json>, i: nat, j: nat)
    requires i < |bs| && j < |bs| && i != j && bs[i].JObj? && bs[j].JObj?
    requires Truthy(Get(bs[i].fields, "input_file")) && Get(bs[i].fields, "input_file") == Get(bs[j].fields, "input_file")
    ensures !UniqueKeys(bs)
  {
  }

  /** Uniqueness depends on the matched fields only. */
  lemma SameKeysKeepUnique(a: seq<Json>, b: seq<Json>)
    requires SameKeys(a, b) && UniqueKeys(a)
    ensures UniqueKeys(b)
  {
    forall i, j | 0 <= i < |b| && 0 <= j < |b| && i != j && b[i].JObj? && b[j].JObj?
      ensures Truthy(Get(b[i].fields, "batch_id")) ==> Get(b[i].fields, "batch_id") != Get(b[j].fields, "batch_id")
      ensures Truthy(Get(b[i].fields, "input_file")) ==> Get(b[i].fields, "input_file") != Get(b[j].fields, "input_file")
    {
      assert a[i].JObj? && a[j].JObj?;
    }
  }

  /** Among unique records, an update addressed by a record's own id or
      input file can only reach that record. */
  lemma UniqueMatch(bs: seq<Json>, m: nat, j: nat)
    requires UniqueKeys(bs) && m < |bs| && j < |bs| && bs[m].JObj? && bs[j].JObj?
    requires || (Truthy(Get(bs[m].fields, "batch_id")) && Get(bs[j].fields, "batch_id") == Get(bs[m].fields, "batch_id"))
             || (Truthy(Get(bs[m].fields, "input_file")) && Get(bs[j].fields, "input_file") == Get(bs[m].fields, "input_file"))
    ensures j == m
  {
  }

  /** `create_batch` keeps the records unique when the new record's id and
      input file are not those of an existing record. */
  lemma {:induction false} AppendKeepsUniqueKeys(stored: Option<Json>, entry: Record)
    requires WellFormed(stored) && UniqueKeys(Batches(stored))
    requires Appended(Load(stored), JObj(entry)).Ok?
    requires forall j :: 0 <= j < |Batches(stored)| ==>
      && Get(Batches(stored)[j].fields, "batch_id") != Get(entry, "batch_id")
      && Get(Batches(stored)[j].fields, "input_file") != Get(entry, "input_file")
    ensures UniqueKeys(Batches(Some(Appended(Load(stored), JObj(entry)).value)))
  {
    AppendedKeepsWellFormed(stored, entry);
    var bs := Batches(stored);
    var bs' := bs + [JObj(entry)];
    forall i, j | 0 <= i < |bs'| && 0 <= j < |bs'| && i != j && bs'[i].JObj? && bs'[j].JObj?
      ensures Truthy(Get(bs'[i].fields, "batch_id")) ==> Get(bs'[i].fields, "batch_id") != Get(bs'[j].fields, "batch_id")
      ensures Truthy(Get(bs'[i].fields, "input_file")) ==> Get(bs'[i].fields, "input_file") != Get(bs'[j].fields, "input_file")
    {
      if i < |bs| && j < |bs| {
        assert bs'[i] == bs[i] && bs'[j] == bs[j];
      } else if i < |bs| {
        assert bs'[i] == bs[i] && bs'[j] == JObj(entry);
      } else {
        assert bs'[j] == bs[j] && bs'[i] == JObj(entry);
      }
    }
  }

  /** An update whose additional data leaves `batch_id` and `input_file`
      alone keeps every record's matched fields, and changes no record that
      its id and key do not match. */
  lemma {:induction false} UpdateKeepsKeys(stored: Option<Json>, call: UpdateCall, now: string, saveOk: bool)
    requires WellFormed(stored)
    requires "batch_id" !in call.extra && "input_file" !in call.extra
    ensures var after := Batches(UpdateEffect(stored, call, now, saveOk).stored);
      var bs := Batches(stored);
      && SameKeys(bs, after)
      && (forall j :: 0 <= j < |bs| && after[j] != bs[j] ==> Matches(bs[j].fields, call.batchId, call.s3Key))
  {
    UpdateChangesOnlyFirstMatch(stored, call, now, saveOk);
    var after := Batches(UpdateEffect(stored, call, now, saveOk).stored);
    var bs := Batches(stored);
    forall j | 0 <= j < |bs|
      ensures after[j].JObj?
      ensures Get(after[j].fields, "batch_id") == Get(bs[j].fields, "batch_id")
      ensures Get(after[j].fields, "input_file") == Get(bs[j].fields, "input_file")
      ensures after[j] != bs[j] ==> Matches(bs[j].fields, call.batchId, call.s3Key)
    {
      if IsFirstMatch(bs, call.batchId, call.s3Key, j) && saveOk {
        UpdatedRecordFields(bs[j].fields, call.newStatus, call.extra, now);
      }
    }
  }

  /** No Apply decision's additional data rewrites `batch_id` or `input_file`. */
  predicate KeepsMatchedFields(ds: seq<Decision>) {
    forall k :: 0 <= k < |ds| && ds[k].Apply? ==>
      "batch_id" !in ds[k].call.extra && "input_file" !in ds[k].call.extra
  }

  /** A stage whose updates leave the matched fields alone keeps them for
      every record, and the only records it changes are ones that some
      update from batch `i` on is addressed to. */
  lemma {:induction false} RunUpdatesTouchOnlyAddressed(ds: seq<Decision>, i: nat, stored: Option<Json>, count: nat)
    requires i <= |ds| && WellFormed(stored) && KeepsMatchedFields(ds)
    ensures var after := Batches(RunUpdates(ds, i, stored, count).stored);
      var bs := Batches(stored);
      && SameKeys(bs, after)
      && (forall j :: 0 <= j < |bs| && after[j] != bs[j] ==>
            exists k :: i <= k < |ds| && ds[k].Apply? && Matches(bs[j].fields, ds[k].call.batchId, ds[k].call.s3Key))
    decreases |ds| - i
  {
    var bs := Batches(stored);
    var after := Batches(RunUpdates(ds, i, stored, count).stored);
    if i == |ds| || ds[i].Raise? {
      assert after == bs;
      assert SameKeys(bs, bs);
    } else if ds[i].Skip? {
      RunUpdatesTouchOnlyAddressed(ds, i + 1, stored, count);
    } else {
      var call, succeeded, now, saveOk := ds[i].call, ds[i].succeeded, ds[i].now, ds[i].saveOk;
      UpdateKeepsWellFormed(stored, call, now, saveOk);
      UpdateKeepsKeys(stored, call, now, saveOk);
      var e := UpdateEffect(stored, call, now, saveOk);
      var mid := Batches(e.stored);
      RunUpdatesTouchOnlyAddressed(ds, i + 1, e.stored, count + (if succeeded then 1 else 0));
      assert after == Batches(RunUpdates(ds, i + 1, e.stored, count + (if succeeded then 1 else 0)).stored);
      forall j | 0 <= j < |bs| && after[j] != bs[j]
        ensures exists k :: i <= k < |ds| && ds[k].Apply? && Matches(bs[j].fields, ds[k].call.batchId, ds[k].call.s3Key)
      {
        if mid[j] != bs[j] {
          assert Matches(bs[j].fields, ds[i].call.batchId, ds[i].call.s3Key);
        } else {
          var k :| i + 1 <= k < |ds| && ds[k].Apply? && Matches(mid[j].fields, ds[k].call.batchId, ds[k].call.s3Key);
          assert Matches(bs[j].fields, ds[k].call.batchId, ds[k].call.s3Key);
        }
      }
    }
  }

  /** A stage that issues, for the k-th record of a query for `status`, only
      updates addressed by that record's own id (and its input file, or no
      key) changes, over unique records, only records that had `status`; the
      records stay unique. */
  lemma {:induction false} RunUpdatesChangesOnlyQueried(ds: seq<Decision>, stored: Option<Json>, queried: seq<Json>, status: string)
    requires WellFormed(stored) && UniqueKeys(Batches(stored)) && KeepsMatchedFields(ds)
    requires |ds| == |queried| && AllRecords(queried)
    requires forall k :: 0 <= k < |queried| ==> queried[k] in Batches(stored) && HasStatus(queried[k], status)
    requires forall k :: 0 <= k < |ds| && ds[k].Apply? ==>
      && ds[k].call.batchId == Get(queried[k].fields, "batch_id")
      && (ds[k].call.s3Key == Get(queried[k].fields, "input_file") || !Truthy(ds[k].call.s3Key))
    ensures var bs := Batches(stored);
      var after := Batches(RunUpdates(ds, 0, stored, 0).stored);
      && |after| == |bs| && UniqueKeys(after)
      && (forall j :: 0 <= j < |bs| && after[j] != bs[j] ==> HasStatus(bs[j], status))
  {
    var bs := Batches(stored);
    RunUpdatesTouchOnlyAddressed(ds, 0, stored, 0);
    var after := Batches(RunUpdates(ds, 0, stored, 0).stored);
    forall j | 0 <= j < |bs| && after[j] != bs[j]
      ensures HasStatus(bs[j], status)
    {
      var k :| 0 <= k < |ds| && ds[k].Apply? && Matches(bs[j].fields, ds[k].call.batchId, ds[k].call.s3Key);
      var m :| 0 <= m < |bs| && bs[m] == queried[k];
      UniqueMatch(bs, m, j);
    }
    SameKeysKeepUnique(bs, after);
  }

  /** Neither record shares a non-empty id or input file with the other. */
  predicate DistinctFrom(a: Json, b: Json) {
    a.JObj? && b.JObj? ==>
      && (Truthy(Get(a.fields, "batch_id")) ==> Get(a.fields, "batch_id") != Get(b.fields, "batch_id"))
      && (Truthy(Get(b.fields, "batch_id")) ==> Get(b.fields, "batch_id") != Get(a.fields, "batch_id"))
      && (Truthy(Get(a.fields, "input_file")) ==> Get(a.fields, "input_file") != Get(b.fields, "input_file"))
      && (Truthy(Get(b.fields, "input_file")) ==> Get(b.fields, "input_file") != Get(a.fields, "input_file"))
  }

  lemma TailKeepsUniqueKeys(bs: seq<Json>)
    requires bs != [] && UniqueKeys(bs)
    ensures UniqueKeys(bs[1..])
    ensures forall x :: x in bs[1..] ==> DistinctFrom(bs[0], x)
  {
    var t := bs[1..];
    forall i, j | 0 <= i < |t| && 0 <= j < |t| && i != j && t[i].JObj? && t[j].JObj?
      ensures Truthy(Get(t[i].fields, "batch_id")) ==> Get(t[i].fields, "batch_id") != Get(t[j].fields, "batch_id")
      ensures Truthy(Get(t[i].fields, "input_file")) ==> Get(t[i].fields, "input_file") != Get(t[j].fields, "input_file")
    {
      assert t[i] == bs[i + 1] && t[j] == bs[j + 1];
    }
    forall x | x in t ensures DistinctFrom(bs[0], x) {
      var m :| 0 <= m < |t| && t[m] == x;
      assert bs[m + 1] == x;
    }
  }

  lemma ConsKeepsUniqueKeys(h: Json, t: seq<Json>)
    requires UniqueKeys(t) && forall x :: x in t ==> DistinctFrom(h, x)
    ensures UniqueKeys([h] + t)
  {
    var r := [h] + t;
    forall i, j | 0 <= i < |r| && 0 <= j < |r| && i != j && r[i].JObj? && r[j].JObj?
      ensures Truthy(Get(r[i].fields, "batch_id")) ==> Get(r[i].fields, "batch_id") != Get(r[j].fields, "batch_id")
      ensures Truthy(Get(r[i].fields, "input_file")) ==> Get(r[i].fields, "input_file") != Get(r[j].fields, "input_file")
    {
      if i == 0 {
        assert r[j] == t[j - 1] && DistinctFrom(h, t[j - 1]);
      } else if j == 0 {
        assert r[i] == t[i - 1] && DistinctFrom(h, t[i - 1]);
      } else {
        assert r[i] == t[i - 1] && r[j] == t[j - 1];
      }
    }
  }

  /** The query keeps the records unique. */
  lemma {:induction false} FilterKeepsUniqueKeys(bs: seq<Json>, status: string)
    requires UniqueKeys(bs)
    ensures UniqueKeys(Filter(bs, status))
  {
    if bs != [] {
      TailKeepsUniqueKeys(bs);
      FilterKeepsUniqueKeys(bs[1..], status);
      if HasStatus(bs[0], status) {
        ConsKeepsUniqueKeys(bs[0], Filter(bs[1..], status));
      }
    }
  }

  /** From decision `i` on, record `j` of `bs` can be reached by no decision
      but the k-th, and when that one is an update, `j` is the first record
      it matches. */
  predicate OnlyDecisionFor(ds: seq<Decision>, i: nat, k: nat, bs: seq<Json>, j: nat)
    requires k < |ds| && j < |bs|
  {
    && bs[j].JObj?
    && (ds[k].Apply? ==> IsFirstMatch(bs, ds[k].call.batchId, ds[k].call.s3Key, j))
    && (forall k' :: i <= k' < |ds| && k' != k && ds[k'].Apply? ==>
          !Matches(bs[j].fields, ds[k'].call.batchId, ds[k'].call.s3Key))
  }

  /** Which decisions can reach a record depends on the matched fields only. */
  lemma SameKeysKeepOnlyDecision(ds: seq<Decision>, i: nat, k: nat, a: seq<Json>, b: seq<Json>, j: nat)
    requires k < |ds| && j < |a| && SameKeys(a, b) && OnlyDecisionFor(ds, i, k, a, j)
    ensures OnlyDecisionFor(ds, i + 1, k, b, j)
  {
    if ds[k].Apply? {
      var call := ds[k].call;
      forall j' | 0 <= j' < j ensures b[j'].JObj? && !Matches(b[j'].fields, call.batchId, call.s3Key) {
        assert a[j'].JObj? && !Matches(a[j'].fields, call.batchId, call.s3Key);
      }
    }
  }

  /** One update of the stage, at decision `i`: it does not raise, keeps
      the store well-formed, and leaves record `j` as the k-th decision
      would have it at this point. */
  lemma OneUpdateOwnRecord(ds: seq<Decision>, i: nat, stored: Option<Json>, k: nat, j: nat)
    requires i < |ds| && ds[i].Apply? && k < |ds| && WellFormed(stored) && KeepsMatchedFields(ds)
    requires j < |Batches(stored)| && OnlyDecisionFor(ds, i, k, Batches(stored), j)
    ensures var bs := Batches(stored);
      var e := UpdateEffect(stored, ds[i].call, ds[i].now, ds[i].saveOk);
      var mid := Batches(e.stored);
      && e.result.Ok? && WellFormed(e.stored) && j < |mid|
      && mid[j] == (if i == k && ds[i].saveOk
                    then JObj(UpdatedRecord(bs[j].fields, ds[i].call.newStatus, ds[i].call.extra, ds[i].now))
                    else bs[j])
      && OnlyDecisionFor(ds, i + 1, k, mid, j)
  {
    var bs := Batches(stored);
    var call, now, saveOk := ds[i].call, ds[i].now, ds[i].saveOk;
    UpdateChangesOnlyFirstMatch(stored, call, now, saveOk);
    UpdateKeepsKeys(stored, call, now, saveOk);
    var mid := Batches(UpdateEffect(stored, call, now, saveOk).stored);
    if i != k {
      assert !Matches(bs[j].fields, call.batchId, call.s3Key);
    }
    SameKeysKeepOnlyDecision(ds, i, k, bs, mid, j);
  }

  /** Record `j`, which from decision `i` on only the k-th decision can
      reach, ends as that decision leaves it: rewritten by its update when
      that update comes at or after `i` and is saved, otherwise as it is
      now. No decision may raise, since a raise ends the stage early. */
  lemma {:induction false} RunUpdatesOwnRecord(ds: seq<Decision>, i: nat, stored: Option<Json>, count: nat, k: nat, j: nat)
    requires i <= |ds| && k < |ds| && WellFormed(stored) && KeepsMatchedFields(ds)
    requires forall k' :: 0 <= k' < |ds| ==> !ds[k'].Raise?
    requires j < |Batches(stored)| && OnlyDecisionFor(ds, i, k, Batches(stored), j)
    ensures var bs := Batches(stored);
      var after := Batches(RunUpdates(ds, i, stored, count).stored);
      && j < |after|
      && after[j] == if i <= k && ds[k].Apply? && ds[k].saveOk
                     then JObj(UpdatedRecord(bs[j].fields, ds[k].call.newStatus, ds[k].call.extra, ds[k].now))
                     else bs[j]
    decreases |ds| - i
  {
    if i == |ds| {
    } else if ds[i].Skip? {
      RunUpdatesOwnRecord(ds, i + 1, stored, count, k, j);
    } else {
      OneUpdateOwnRecord(ds, i, stored, k, j);
      var e := UpdateEffect(stored, ds[i].call, ds[i].now, ds[i].saveOk);
      var count' := count + (if ds[i].succeeded then 1 else 0);
      assert RunUpdates(ds, i, stored, count) == RunUpdates(ds, i + 1, e.stored, count');
      RunUpdatesOwnRecord(ds, i + 1, e.stored, count', k, j);
    }
  }

  /** Over unique records, take a stage in which no decision raises and the
      k-th decision is addressed by the k-th queried record, as in
      `RunUpdatesChangesOnlyQueried`, the queried records themselves being
      unique. Then the record at `j` that was queried k-th ends as its own
      decision leaves it: rewritten by that decision's update when the
      update matches it and is saved, and unchanged when the decision
      skips it or the save fails. */
  lemma {:induction false} RunUpdatesReachesQueried(ds: seq<Decision>, stored: Option<Json>, queried: seq<Json>, k: nat, j: nat)
    requires WellFormed(stored) && UniqueKeys(Batches(stored)) && KeepsMatchedFields(ds)
    requires forall k' :: 0 <= k' < |ds| ==> !ds[k'].Raise?
    requires |ds| == |queried| && AllRecords(queried) && UniqueKeys(queried)
    requires forall k' :: 0 <= k' < |queried| ==> queried[k'] in Batches(stored)
    requires forall k' :: 0 <= k' < |ds| && ds[k'].Apply? ==>
      && ds[k'].call.batchId == Get(queried[k'].fields, "batch_id")
      && (ds[k'].call.s3Key == Get(queried[k'].fields, "input_file") || !Truthy(ds[k'].call.s3Key))
    requires k < |ds| && j < |Batches(stored)| && Batches(stored)[j] == queried[k]
    requires ds[k].Apply? ==> Matches(queried[k].fields, ds[k].call.batchId, ds[k].call.s3Key)
    ensures var bs := Batches(stored);
      var after := Batches(RunUpdates(ds, 0, stored, 0).stored);
      && j < |after|
      && after[j] == if ds[k].Apply? && ds[k].saveOk
                     then JObj(UpdatedRecord(bs[j].fields, ds[k].call.newStatus, ds[k].call.extra, ds[k].now))
                     else bs[j]
  {
    var bs := Batches(stored);
    if ds[k].Apply? {
      var call := ds[k].call;
      forall j' | 0 <= j' < j ensures bs[j'].JObj? && !Matches(bs[j'].fields, call.batchId, call.s3Key) {
        assert bs[j].JObj? && bs[j'].JObj?;
      }
    }
    forall k' | 0 <= k' < |ds| && k' != k && ds[k'].Apply?
      ensures !Matches(bs[j].fields, ds[k'].call.batchId, ds[k'].call.s3Key)
    {
      var m :| 0 <= m < |bs| && bs[m] == queried[k'];
      assert queried[k'].JObj? && queried[k].JObj?;
    }
    RunUpdatesOwnRecord(ds, 0, stored, 0, k, j);
  }

  /** The object at the control key. The methods below are the functions of
      the control-file utility module; the save outcome, the clock and the
      generated id are their parameters. */
  class ControlStore {
    /** The control document as the store decodes it, None when the object
        is absent or cannot be parsed. */
    var stored: Option<Json>

    constructor (initial: Option<Json>)
      ensures stored == initial
    {
      stored := initial;
    }

    /** `get_control_data`: never fails; an absent or unreadable document
        reads as `{"batches": []}`. */
    method GetControlData() returns (doc: Json)
      ensures stored.None? ==> doc == EmptyDocument
      ensures stored.Some? && stored.value != JNull ==> doc == stored.value
      ensures doc == Load(stored)
    {
      if stored.None? || stored.value == JNull {
        doc := EmptyDocument;
      } else {
        doc := stored.value;
      }
    }

    /** `update_control_data`: returns the save's outcome; only a successful
        save replaces the stored document. */
    method UpdateControlData(doc: Json, saveOk: bool) returns (ok: bool)
      modifies this
      ensures ok == saveOk
      ensures stored == if saveOk then Some(doc) else old(stored)
    {
      if saveOk {
        stored := Some(doc);
      }
      ok := saveOk;
    }

    /** `get_batches_by_status`: a query, so it has no frame to modify. */
    method GetBatchesByStatus(status: string) returns (r: Result<seq<Json>>)
      ensures r == BatchesWithStatus(stored, status)
      ensures r.Ok? ==> AllRecords(r.value) && forall b :: b in r.value ==> HasStatus(b, status)
    {
      var doc := GetControlData();
      var bl := BatchList(doc);
      if bl.Err? {
        return Err(bl.error);
      }
      if !AllRecords(bl.value) {
        return Err("AttributeError");
      }
      r := Ok(Filter(bl.value, status));
    }

    method GetPendingBatches() returns (r: Result<seq<Json>>)
      ensures r == BatchesWithStatus(stored, STATUS_SUBMITTED)
    {
      r := GetBatchesByStatus(STATUS_SUBMITTED);
    }

    method GetPreparedBatches() returns (r: Result<seq<Json>>)
      ensures r == BatchesWithStatus(stored, STATUS_PREPARED)
    {
      r := GetBatchesByStatus(STATUS_PREPARED);
    }

    method GetCompletedBatches() returns (r: Result<seq<Json>>)
      ensures r == BatchesWithStatus(stored, STATUS_COMPLETED)
    {
      r := GetBatchesByStatus(STATUS_COMPLETED);
    }

    method GetFailedBatches() returns (r: Result<seq<Json>>)
      ensures r == BatchesWithStatus(stored, STATUS_FAILED)
    {
      r := GetBatchesByStatus(STATUS_FAILED);
    }

    /** `create_batch`: builds the record, appends it and saves. Returns
        `(True, id)` exactly when the append and the save both succeed;
        any exception, or a failed save, gives `(False, None)`. The status
        defaults to `prepared` and the additional data to none; the fresh
        id and the two timestamps are given by the caller. */
    method CreateBatch(uuid: string, createdAt: string, updatedAt: string, saveOk: bool,
                       inputFile: string, targetDate: string,
                       status: string := STATUS_PREPARED, extra: Record := map[])
      returns (ok: bool, batchId: Option<string>)
      modifies this
      ensures var entry := NewEntry(uuid, inputFile, targetDate, status, createdAt, updatedAt, extra);
        var appended := Appended(Load(old(stored)), JObj(entry));
        && ok == (appended.Ok? && saveOk)
        && batchId == (if ok then Some(uuid) else None)
        && stored == (if ok then Some(appended.value) else old(stored))
    {
      var doc := GetControlData();
      var entry := NewEntry(uuid, inputFile, targetDate, status, createdAt, updatedAt, extra);
      var appended := Appended(doc, JObj(entry));
      if appended.Err? {
        return false, None;
      }
      var saved := UpdateControlData(appended.value, saveOk);
      if saved {
        ok, batchId := true, Some(uuid);
      } else {
        ok, batchId := false, None;
      }
    }

    /** `update_batch_status`: scans the batch list in order and updates the
        first record whose id or input file matches. Like the source's
        keyword arguments, the id and key default to None (JNull), the new
        status to none (`""`) and the additional data to none; the clock
        reading and the save outcome come first. */
    method UpdateBatchStatus(now: string, saveOk: bool, batchId: Json := JNull, s3Key: Json := JNull,
                             newStatus: string := "", extra: Record := map[])
      returns (r: Result<bool>)
      modifies this
      ensures Effect(r, stored) == UpdateEffect(old(stored), UpdateCall(batchId, s3Key, newStatus, extra), now, saveOk)
    {
      if !Truthy(batchId) && !Truthy(s3Key) {
        return Ok(false);
      }
      var doc := GetControlData();
      var bl := BatchList(doc);
      if bl.Err? {
        return Err(bl.error);
      }
      var bs := bl.value;
      var i := 0;
      while i < |bs|
        invariant 0 <= i <= |bs|
        invariant stored == old(stored)
        invariant LocateFrom(bs, batchId, s3Key, i) == LocateFrom(bs, batchId, s3Key, 0)
      {
        var batch := bs[i];
        if !batch.JObj? {
          return Err("AttributeError");
        }
        if Matches(batch.fields, batchId, s3Key) {
          var updated := UpdatedRecord(batch.fields, newStatus, extra, now);
          var newDoc := WithBatches(doc, bs[i := JObj(updated)]);
          var saved := UpdateControlData(newDoc, saveOk);
          return Ok(saved);
        }
        i := i + 1;
      }
      r := Ok(false);
    }
  }
}
