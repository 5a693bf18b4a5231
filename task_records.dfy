/** The pure half of the PocketBase service: how a stored record becomes a
    `Task` (`_parse_task`), and the request bodies `create_task` and
    `update_task_status` send. A stored record is written `RecordJson`; the
    store merges a PATCH body into it key by key. */
module TaskRecords {
  import opened JsonValue
  import opened Models
  import DatabaseRows

  // ----- reading a record -----

  /** The `result` of a record: when `record.get("result")` is truthy it is
      repaired by the database pass and then validated as an `ArticleData`;
      otherwise there is none. */
  function ParseResult(record: Json): (r: Outcome<Option<ArticleData>>)
    requires record.JObj?
    ensures r.Ok? && r.value.Some? <==>
      && HasKey(record, "result") && Truthy(record.fields["result"])
      && DatabaseRows.FixResult(record.fields["result"]).Ok?
      && ValidArticle(DatabaseRows.FixResult(record.fields["result"]).value)
    ensures r == Ok(None) <==> !HasKey(record, "result") || !Truthy(record.fields["result"])
  {
    if "result" !in record.fields || !Truthy(record.fields["result"]) then Ok(None)
    else
      match DatabaseRows.FixResult(record.fields["result"])
      case Raised => Raised
      case Ok(fixed) =>
        match ParseArticle(fixed)
        case None => Raised
        case Some(article) => Ok(Some(article))
  }

  /** `_parse_task`: `url` defaults to `""` and `status` to `"pending"`; a
      record that is not a dict, or whose fields do not validate, raises.
      The `created` / `updated` timestamps are not modelled. */
  function ParseTask(record: Json): (r: Outcome<Task>)
    ensures r.Ok? ==> record.JObj?
    ensures r.Ok? ==> JStr(r.value.url) == (if "url" in record.fields then record.fields["url"] else JStr(""))
    ensures r.Ok? ==> JStr(StatusName(r.value.status))
                      == (if "status" in record.fields then record.fields["status"] else JStr("pending"))
    ensures r.Ok? ==> (r.value.result.Some? <==> HasKey(record, "result") && Truthy(record.fields["result"]))
    ensures r.Ok? ==> (r.value.id.Some? <==> HasKey(record, "id") && !record.fields["id"].JNull?)
    ensures r.Ok? ==> (r.value.error.Some? <==> HasKey(record, "error") && !record.fields["error"].JNull?)
  {
    if !record.JObj? then Raised
    else
      var result := ParseResult(record);
      var id := ParseOptional(record, "id", ParseString);
      var url := ParseString(if "url" in record.fields then record.fields["url"] else JStr(""));
      var status := ParseStatus(if "status" in record.fields then record.fields["status"] else JStr("pending"));
      var error := ParseOptional(record, "error", ParseString);
      if result.Ok? && id.Some? && url.Some? && status.Some? && error.Some? then
        Ok(Task(id.value, url.value, status.value, result.value, error.value))
      else Raised
  }

  // ----- request bodies -----

  /** The body of `create_task`: a pending task with null result and error. */
  function CreateBody(url: string): (r: Json)
    ensures r.JObj? && r.keys == ["url", "status", "result", "error"]
    ensures r.fields.Keys == {"url", "status", "result", "error"}
    ensures r.fields["url"] == JStr(url) && r.fields["status"] == JStr("pending")
    ensures r.fields["result"] == JNull && r.fields["error"] == JNull
  {
    JObj(["url", "status", "result", "error"],
         map["url" := JStr(url), "status" := JStr("pending"), "result" := JNull, "error" := JNull])
  }

  /** The body of `update_task_status`: always the status, the dumped result
      only when one is given, the error only when one is given. */
  function UpdateBody(status: TaskStatus, result: Option<ArticleData>, error: Option<string>): (r: Json)
    ensures r.JObj? && "status" in r.fields && r.fields["status"] == JStr(StatusName(status))
    ensures "result" in r.fields <==> result.Some?
    ensures result.Some? ==> r.fields["result"] == DumpArticle(result.value)
    ensures "error" in r.fields <==> error.Some?
    ensures error.Some? ==> r.fields["error"] == JStr(error.value)
    ensures r.fields.Keys <= {"status", "result", "error"}
    ensures forall k :: k in r.fields <==> k in r.keys
  {
    Body(StatusName(status), if result.Some? then Some(DumpArticle(result.value)) else None, error)
  }

  /** `data = {"status": status}`, then `data["result"] = ...` and
      `data["error"] = ...` when given. */
  function Body(status: string, result: Option<Json>, error: Option<string>): (r: Json)
    ensures r.JObj? && r.fields.Keys <= {"status", "result", "error"}
  {
    var withStatus := JObj(["status"], map["status" := JStr(status)]);
    var withResult := if result.Some? then Set(withStatus, "result", result.value) else withStatus;
    if error.Some? then Set(withResult, "error", JStr(error.value)) else withResult
  }

  // ----- the store -----

  /** A record as the store holds it for a task. */
  function RecordJson(t: Task): (r: Json)
    ensures r.JObj? && r.fields.Keys == {"id", "url", "status", "result", "error"}
  {
    Record(DumpOptional(t.id, DumpString), t.url, StatusName(t.status),
           DumpOptional(t.result, DumpArticle), DumpOptional(t.error, DumpString))
  }

  function Record(id: Json, url: string, status: string, result: Json, error: Json): (r: Json)
    ensures r.JObj? && r.fields.Keys == {"id", "url", "status", "result", "error"}
  {
    JObj(["id", "url", "status", "result", "error"], map[
      "id" := id, "url" := JStr(url), "status" := JStr(status), "result" := result, "error" := error])
  }

  /** A PATCH: every key of the body overwrites the record's value; keys
      the body does not name keep their values; new keys go last. */
  function Patch(record: Json, body: Json): (r: Json)
    requires record.JObj? && body.JObj?
    ensures r.JObj? && r.fields.Keys == record.fields.Keys + body.fields.Keys
    ensures forall k :: k in body.fields ==> r.fields[k] == body.fields[k]
    ensures forall k :: k in record.fields && k !in body.fields ==> r.fields[k] == record.fields[k]
  {
    JObj(MergeKeys(record.keys, body.keys),
         map k | k in record.fields.Keys + body.fields.Keys ::
           if k in body.fields then body.fields[k] else record.fields[k])
  }

  /** The insertion order after a merge: `b`'s keys not already in `a` are
      appended in their order. */
  function MergeKeys(a: seq<string>, b: seq<string>): (r: seq<string>)
    ensures forall k :: k in r <==> k in a || k in b
    ensures |r| >= |a| && r[..|a|] == a
    decreases |b|
  {
    if b == [] then a
    else MergeKeys(if b[0] in a then a else a + [b[0]], b[1..])
  }

  /** The task `update_task_status` leaves in the store: the new status, and
      the result and error replaced only when given. */
  function Updated(t: Task, status: TaskStatus, result: Option<ArticleData>, error: Option<string>): (r: Task)
    ensures r.id == t.id && r.url == t.url && r.status == status
    ensures r.result == (if result.Some? then result else t.result)
    ensures r.error == (if error.Some? then error else t.error)
  {
    Task(t.id, t.url, status,
         if result.Some? then result else t.result,
         if error.Some? then error else t.error)
  }

  // ----- properties -----

  /** The database pass leaves a valid article as it is, so a stored
      result that already validates is not touched on the way back. */
  lemma {:induction false} ValidBlockUnfixed(block: Json)
    requires ValidBlock(block)
    ensures DatabaseRows.FixBlock(block) == Ok(block)
  {
    if DatabaseRows.Targets(block) {
      var rows := block.fields["rows"];
      assert rows.JArr?;
      assert !DatabaseRows.NeedsFix(rows.items) by {
        forall k | 0 <= k < |rows.items| ensures rows.items[k].JObj? {
          assert IsRow(rows.items[k]);
        }
      }
    }
  }

  lemma {:induction false} ValidSectionUnfixed(section: Json)
    requires ValidSection(section)
    ensures DatabaseRows.FixSection(section) == Ok(section)
  {
    var content := section.fields["content"];
    forall k | 0 <= k < |content.items| ensures DatabaseRows.FixBlock(content.items[k]) == Ok(content.items[k]) {
      ValidBlockUnfixed(content.items[k]);
    }
    MapElementsFixedPoint(content, DatabaseRows.FixBlock);
    SetSame(section, "content");
  }

  lemma {:induction false} ValidArticleUnfixed(data: Json)
    requires ValidArticle(data)
    ensures DatabaseRows.FixResult(data) == Ok(data)
  {
    var sections := data.fields["sections"];
    forall k | 0 <= k < |sections.items| ensures DatabaseRows.FixSection(sections.items[k]) == Ok(sections.items[k]) {
      ValidSectionUnfixed(sections.items[k]);
    }
    MapElementsFixedPoint(sections, DatabaseRows.FixSection);
    assert Truthy(data) by { assert "title" in data.fields; }
    SetSame(data, "sections");
  }

  /** Reading back a stored record gives the task that was stored. */
  lemma {:induction false} ParseRecord(t: Task)
    ensures ParseTask(RecordJson(t)) == Ok(t)
  {
    var record := RecordJson(t);
    if t.result.Some? {
      ParseDumpArticle(t.result.value);
      ValidArticleUnfixed(DumpArticle(t.result.value));
      assert Truthy(DumpArticle(t.result.value)) by {
        assert "title" in DumpArticle(t.result.value).fields;
      }
    }
    ParseOptionalDump(record, "id", ParseString, DumpString, t.id);
    ParseOptionalDump(record, "error", ParseString, DumpString, t.error);
    ParseStatusName(t.status);
  }

  /** A created record reads back as a fresh pending task with the id the
      store gave it. */
  lemma CreatedRecord(id: string, url: string)
    ensures var body := CreateBody(url);
      ParseTask(Set(body, "id", JStr(id))) == Ok(Task(Some(id), url, Pending, None, None))
  {
  }

  /** Merging an update body into a stored record and reading it back gives
      the updated task: a missing result or error keeps the stored one. */
  lemma {:induction false} PatchRecord(t: Task, status: TaskStatus, result: Option<ArticleData>, error: Option<string>)
    ensures var body := UpdateBody(status, result, error);
      ParseTask(Patch(RecordJson(t), body)) == Ok(Updated(t, status, result, error))
  {
    var body := UpdateBody(status, result, error);
    var record := RecordJson(t);
    var patched := Patch(record, body);
    var u := Updated(t, status, result, error);
    var expected := RecordJson(u);
    PatchedFields(t, status, result, error);
    assert patched.fields == expected.fields;
    ParseRecord(u);
    ParseTaskFields(patched, expected);
  }

  /** The record an update leaves holds the fields of the updated task. */
  lemma PatchedFields(t: Task, status: TaskStatus, result: Option<ArticleData>, error: Option<string>)
    ensures var body := UpdateBody(status, result, error);
      Patch(RecordJson(t), body).fields == RecordJson(Updated(t, status, result, error)).fields
  {
    var dumped := if result.Some? then Some(DumpArticle(result.value)) else None;
    var r0 := DumpOptional(t.result, DumpArticle);
    var e0 := DumpOptional(t.error, DumpString);
    PatchRecordBody(DumpOptional(t.id, DumpString), t.url, StatusName(t.status), r0, e0,
                    StatusName(status), dumped, error);
    var u := Updated(t, status, result, error);
    assert DumpOptional(u.result, DumpArticle) == if dumped.Some? then dumped.value else r0;
    assert DumpOptional(u.error, DumpString) == if error.Some? then JStr(error.value) else e0;
  }

  /** Merging a body into a record overwrites exactly the fields it names. */
  lemma PatchRecordBody(id: Json, url: string, s0: string, r0: Json, e0: Json,
                        s: string, result: Option<Json>, error: Option<string>)
    ensures Patch(Record(id, url, s0, r0, e0), Body(s, result, error)).fields
         == Record(id, url, s, if result.Some? then result.value else r0,
                   if error.Some? then JStr(error.value) else e0).fields
  {
    var patched := Patch(Record(id, url, s0, r0, e0), Body(s, result, error));
    var expected := Record(id, url, s, if result.Some? then result.value else r0,
                           if error.Some? then JStr(error.value) else e0);
    var body := Body(s, result, error);
    assert body.fields.Keys <= expected.fields.Keys;
    assert patched.fields.Keys == expected.fields.Keys;
  }

  /** `_parse_task` looks only at the values, not at the key order. */
  lemma ParseTaskFields(a: Json, b: Json)
    requires a.JObj? && b.JObj? && a.fields == b.fields
    ensures ParseTask(a) == ParseTask(b)
  {
  }
}
