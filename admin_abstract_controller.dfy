/**
 * The admin side of abstract handling at the HTTP boundary: the error
 * replies, the lenient JSON decoding of form fields, the normaliser for the
 * attachment ids an admin asks to remove, the admin edit endpoint (which
 * strips `status`, and update operators, before saving) and the colours of
 * the status cell in the spreadsheet export. `JSON.parse` is a supplied function (`None` for a
 * SyntaxError).
 */
module AdminAbstractController {
  import opened Wrappers
  import opened Strings
  import opened Js
  import opened Common
  import opened Objects
  import opened AbstractHelper
  import opened AbstractService
  import opened Server

  /** `JSON.parse(s)`, `None` when it throws. */
  type JsonParser = string -> Option<JsValue>

  // ---------------------------------------------------------------- errors

  /** `sendError(res, err)`: the error's own status, else 500; its message,
      else "Server error"; its details only when they are truthy. Unlike the
      application's error handler it does not mask server errors. */
  function SendError(e: Error): (r: Response)
    ensures !e.HttpError? || e.status == 0 ==> r.status == 500
    ensures e.HttpError? && e.status != 0 ==> r.status == e.status
    ensures r.message != "" && (Message(e) != "" ==> r.message == Message(e))
    ensures r.details.Some? <==> e.HttpError? && Truthy(e.details)
    ensures r.details.Some? ==> r.details.value == e.details
  {
    Response(if e.HttpError? && e.status != 0 then e.status else 500,
             if Message(e) != "" then Message(e) else "Server error",
             if e.HttpError? && Truthy(e.details) then Some(e.details) else None)
  }

  /** For a client error with a message, this controller and the
      application's error handler reply identically; for a server error the
      controller shows the message the handler hides. */
  lemma SendErrorAgainstHandler(e: Error)
    ensures e.HttpError? && 0 < e.status < 500 && e.message != "" ==> SendError(e) == ErrorResponse(e)
    ensures e.HttpError? && e.status >= 500 && e.message != "" ==>
              SendError(e).message == e.message && ErrorResponse(e).message == "Server error"
  {
  }

  // ---------------------------------------------------------------- decoding

  /** `parseJsonIfString(v)`: a non-blank string is decoded when it is valid
      JSON (leading and trailing blanks ignored); anything else comes back
      as it was. */
  function ParseJsonIfString(v: JsValue, parse: JsonParser): (r: JsValue)
    ensures !v.Str? ==> r == v
    ensures v.Str? && Trim(v.s) == "" ==> r == v
    ensures v.Str? && Trim(v.s) != "" ==> r == (if parse(Trim(v.s)).Some? then parse(Trim(v.s)).value else v)
  {
    if IsNullish(v) then v
    else if !v.Str? then v
    else
      var s := Trim(v.s);
      if s == "" then v
      else match parse(s)
        case Some(decoded) => decoded
        case None => v
  }

  /** What an admin asks to remove: every attachment, or the listed ids. */
  datatype RemoveIds = All | Ids(ids: seq<string>)

  /** `raw.map(String).filter(Boolean)` */
  function IdTexts(items: seq<JsValue>): (ids: seq<string>)
    ensures forall i :: 0 <= i < |ids| ==> ids[i] != ""
    ensures forall x :: x in ids <==> x != "" && exists i :: 0 <= i < |items| && ToStr(items[i]) == x
  {
    var texts := seq(|items|, i requires 0 <= i < |items| => ToStr(items[i]));
    var ids := NonEmpty(texts);
    assert forall x :: x in texts <==> exists i :: 0 <= i < |items| && ToStr(items[i]) == x by {
      forall x | exists i :: 0 <= i < |items| && ToStr(items[i]) == x
        ensures x in texts
      {
        var i :| 0 <= i < |items| && ToStr(items[i]) == x;
        assert texts[i] == x;
      }
    }
    ids
  }

  /** An array of ids: "ALL" anywhere in it means every attachment. */
  function ArrayIds(items: seq<JsValue>): (r: RemoveIds)
    ensures r.All? <==> Str("ALL") in items
    ensures r.Ids? ==> r.ids == IdTexts(items)
  {
    if Str("ALL") in items then All else Ids(IdTexts(items))
  }

  /** `normalizeRemoveAttachmentIds(raw)` */
  function NormalizeRemoveAttachmentIds(raw: JsValue, parse: JsonParser): (r: RemoveIds)
    ensures IsNullish(raw) ==> r == Ids([])
    ensures raw.Arr? ==> r == ArrayIds(raw.items)
    ensures raw.Str? && Trim(raw.s) == "" ==> r == Ids([])
    ensures !raw.Str? && !raw.Arr? ==> r == (if raw == Str("ALL") then All else Ids([]))
    ensures r.Ids? ==> forall i :: 0 <= i < |r.ids| ==> r.ids[i] != ""
  {
    if IsNullish(raw) then Ids([])
    else if raw == Str("ALL") then All
    else if raw.Arr? then ArrayIds(raw.items)
    else if raw.Str? then
      var s := Trim(raw.s);
      if s == "" then Ids([])
      else if s == "ALL" then All
      else
        var decoded := ParseJsonIfString(Str(s), parse);
        if decoded == Str("ALL") then All
        else if decoded.Arr? then ArrayIds(decoded.items)
        else Ids([s])
    else Ids([])
  }

  /** A string that, once trimmed, is "ALL" or decodes to "ALL" or to an
      array naming "ALL" asks for every attachment; any other non-blank
      string that does not decode to an array is one id, trimmed. */
  lemma RemoveIdsOfString(s: string, parse: JsonParser)
    requires Trim(s) != ""
    ensures var t := Trim(s);
            var decoded := if parse(t).Some? then parse(t).value else Str(t);
            NormalizeRemoveAttachmentIds(Str(s), parse) ==
              if t == "ALL" || decoded == Str("ALL") then All
              else if decoded.Arr? then ArrayIds(decoded.items)
              else Ids([t])
  {
    TrimIdempotent(s);
    if s == "ALL" {
      TrimUnpadded(s);
    }
  }

  /** Listing ids again as an array gives the same ids, unless one of them
      is the text "ALL" (which an array element that is itself `["ALL"]`
      produces). */
  lemma RemoveIdsStable(raw: JsValue, parse: JsonParser)
    requires NormalizeRemoveAttachmentIds(raw, parse).Ids?
    requires "ALL" !in NormalizeRemoveAttachmentIds(raw, parse).ids
    ensures var ids := NormalizeRemoveAttachmentIds(raw, parse).ids;
            NormalizeRemoveAttachmentIds(Arr(seq(|ids|, i requires 0 <= i < |ids| => Str(ids[i]))), parse) == Ids(ids)
  {
    var ids := NormalizeRemoveAttachmentIds(raw, parse).ids;
    var items := seq(|ids|, i requires 0 <= i < |ids| => Str(ids[i]));
    var texts := seq(|items|, i requires 0 <= i < |items| => ToStr(items[i]));
    assert texts == ids;
    NonEmptyFixed(ids);
    assert Str("ALL") !in items;
  }

  // ---------------------------------------------------------------- admin edit

  /** `delete updates.status` on an object that has it: an update operator
      such as `$set` stays, and can still carry a status
      (`StatusThroughSetAsWritten`). */
  function StripStatus(updates: JsValue): (r: JsValue)
    ensures updates.Obj? ==> r.Obj? && r.fields.Keys == updates.fields.Keys - {"status"}
    ensures updates.Obj? ==> forall k :: k in r.fields ==> r.fields[k] == updates.fields[k]
    ensures !updates.Obj? ==> r == updates
  {
    if updates.Obj? then Obj(updates.fields - {"status"}) else updates
  }

  /** The strip the endpoint relies on: `status` deleted, and operator and
      dotted keys refused as well, so that the admin edit sets plain fields
      only; updates that are not an object (an array would run as a
      pipeline) are replaced by the empty update. */
  function StripStatusIntended(updates: JsValue): (r: JsValue)
    ensures r.Obj? && "status" !in r.fields && forall k :: k in r.fields ==> PlainKey(k)
    ensures updates.Obj? ==> forall k :: k in updates.fields && k != "status" && PlainKey(k) ==>
              k in r.fields && r.fields[k] == updates.fields[k]
    ensures !updates.Obj? ==> r == Obj(map[])
  {
    if updates.Obj? then StripStatus(PlainBody(updates)) else Obj(map[])
  }

  /** What the endpoint sends back. */
  datatype Reply = Json(body: map<string, JsValue>) | Failure(response: Response)

  /** The tables after a request, and the reply. */
  datatype Handled = Handled(tables: Tables, reply: Reply)

  /** The updates the endpoint reads from the body: a string `updates` field
      is JSON, otherwise the `updates` field, else the body itself, else `{}`. */
  function BodyUpdates(body: JsValue, parse: JsonParser): (r: Outcome<JsValue>)
    ensures Get(body, "updates").Str? && parse(Get(body, "updates").s).None? ==>
              r == Err(Http(400, "Invalid JSON in request body."))
    ensures !Get(body, "updates").Str? ==> r == Ok(Or(Or(Get(body, "updates"), body), Obj(map[])))
  {
    var raw := Get(body, "updates");
    if raw.Str? then
      match parse(raw.s)
      case Some(decoded) => Ok(decoded)
      case None => Err(Http(400, "Invalid JSON in request body."))
    else Ok(Or(Or(raw, body), Obj(map[])))
  }

  /** `adminUpdateAbstractController(req, res)`: the body's updates, less a
      top-level `status`, go to `adminUpdateAbstract` (the all-in-one save it
      would prefer is not exported, so the fallback always runs, and the ids
      to remove are worked out but never used); the saved abstract is sent
      back without its declarations. */
  function AdminUpdateReply(t: Tables, id: string, body: JsValue, parse: JsonParser, protocol: string, host: string,
                            verdict: Verdict, pipeline: Pipeline): (h: Handled)
    ensures BodyUpdates(body, parse).Ok? ==>
              h.tables == AdminUpdateOutcome(t, id, StripStatus(BodyUpdates(body, parse).value), verdict, pipeline).tables
    ensures BodyUpdates(body, parse).Err? ==> h.tables == t
  {
    match BodyUpdates(body, parse)
    case Err(e) => Handled(t, Failure(SendError(e)))
    case Ok(updates) => SaveStripped(t, id, StripStatus(updates), protocol, host, verdict, pipeline)
  }

  /** The endpoint with the corrected strip. */
  function AdminUpdateReplyIntended(t: Tables, id: string, body: JsValue, parse: JsonParser, protocol: string, host: string,
                                    verdict: Verdict, pipeline: Pipeline): (h: Handled)
    ensures BodyUpdates(body, parse).Ok? ==>
              h.tables == AdminUpdateOutcome(t, id, StripStatusIntended(BodyUpdates(body, parse).value), verdict, pipeline).tables
    ensures BodyUpdates(body, parse).Err? ==> h.tables == t
  {
    match BodyUpdates(body, parse)
    case Err(e) => Handled(t, Failure(SendError(e)))
    case Ok(updates) => SaveStripped(t, id, StripStatusIntended(updates), protocol, host, verdict, pipeline)
  }

  /** The save and the reply once the updates are stripped. */
  function SaveStripped(t: Tables, id: string, updates: JsValue, protocol: string, host: string, verdict: Verdict, pipeline: Pipeline): (h: Handled)
    ensures h.tables == AdminUpdateOutcome(t, id, updates, verdict, pipeline).tables
  {
    var s := AdminUpdateOutcome(t, id, updates, verdict, pipeline);
    match s.result
    case Err(e) => Handled(s.tables, Failure(SendError(e)))
    case Ok(d) =>
      match ToAbstractDto(Obj(d), protocol, host, false)
      case Err(e) => Handled(s.tables, Failure(SendError(e)))
      case Ok(dto) => Handled(s.tables, Json(dto))
  }

  /** With the corrected strip the admin edit endpoint never changes an
      abstract's status, whatever the body holds, and it touches no other
      abstract. */
  lemma AdminEndpointKeepsStatus(t: Tables, id: string, body: JsValue, parse: JsonParser, protocol: string, host: string,
                                 verdict: Verdict, pipeline: Pipeline)
    ensures var h := AdminUpdateReplyIntended(t, id, body, parse, protocol, host, verdict, pipeline);
            h.tables == t || (id in t.abstracts && h.tables == t.(abstracts := t.abstracts[id := h.tables.abstracts[id]]))
    ensures var h := AdminUpdateReplyIntended(t, id, body, parse, protocol, host, verdict, pipeline);
            id in t.abstracts ==> Field(h.tables.abstracts[id], "status") == Field(t.abstracts[id], "status")
  {
    if BodyUpdates(body, parse).Ok? {
      var updates := StripStatusIntended(BodyUpdates(body, parse).value);
      var s := AdminUpdateOutcome(t, id, updates, verdict, pipeline);
      if s.result.Ok? {
        AdminEditKeepsStatus(t.abstracts[id], updates, pipeline);
      }
    }
  }

  /** Once `status` and the operators are stripped, the admin edit keeps the stored status. */
  lemma AdminEditKeepsStatus(current: Doc, updates: JsValue, pipeline: Pipeline)
    requires AdminEdit(current, updates, pipeline).Ok?
    requires updates.Obj? && "status" !in updates.fields && forall k :: k in updates.fields ==> PlainKey(k)
    ensures Field(AdminEdit(current, updates, pipeline).value, "status") == Field(current, "status")
  {
    AdminEditShape(current, updates, pipeline);
    PlainEditKeepsStatus(current, updates.fields, AdminOverrides(updates.fields, current + updates.fields));
  }

  lemma PlainEditKeepsStatus(current: Doc, fields: Doc, o: Doc)
    requires "status" !in fields && forall k :: k in fields ==> PlainKey(k)
    requires o.Keys <= AdminOverrideKeys
    ensures Field(ApplyUpdate(current, fields + o), "status") == Field(current, "status")
  {
    assert PlainKey("keywords") && PlainKey("coAuthorsRaw") && PlainKey("coAuthors");
    PlainUpdateIsMerge(current, fields + o);
  }

  /** A successful admin edit took an object or an array: an object is the
      database's update with the updates and the overrides written into
      them, an array the database's pipeline. */
  lemma AdminEditShape(current: Doc, updates: JsValue, pipeline: Pipeline)
    requires AdminEdit(current, updates, pipeline).Ok?
    ensures updates.Obj? || updates.Arr?
    ensures updates.Obj? ==>
              AdminEdit(current, updates, pipeline).value == ApplyUpdate(current, updates.fields + AdminOverrides(updates.fields, current + updates.fields))
    ensures updates.Arr? ==> AdminEdit(current, updates, pipeline) == pipeline(current, updates.items)
  {
    if updates.Obj? {
      assert Entries(updates) == updates.fields;
    }
  }

  /** As written, the endpoint deletes a top-level `status` only. The body
      `{ updates: { $set: { status } } }` keeps its operator, the rules judge
      the edit as they judge the stored abstract, and when the edit is saved
      the stored status becomes `status`. */
  lemma StatusThroughSetAsWritten(t: Tables, id: string, status: JsValue, parse: JsonParser, protocol: string, host: string,
                                  verdict: Verdict, pipeline: Pipeline)
    requires IsObjectId(id) && id in t.abstracts
    ensures var u := Obj(map["$set" := Obj(map["status" := status])]);
            var h := AdminUpdateReply(t, id, Obj(map["updates" := u]), parse, protocol, host, verdict, pipeline);
            var s := AdminUpdateOutcome(t, id, u, verdict, pipeline);
            && h.tables == s.tables
            && (ApplyBusinessValidation(Obj(t.abstracts[id]), false).Err? ==> s.result.Err?)
            && (s.result.Ok? ==> Field(h.tables.abstracts[id], "status") == status)
  {
    var u := Obj(map["$set" := Obj(map["status" := status])]);
    var body := Obj(map["updates" := u]);
    assert BodyUpdates(body, parse) == Ok(u);
    assert StripStatus(u) == u;
    AdminEditSetsStatus(t.abstracts[id], status, pipeline);
  }

  /** The admin edit with `{ $set: { status } }` passes exactly when the
      stored abstract passes the rules, and then writes `status`. */
  lemma AdminEditSetsStatus(current: Doc, status: JsValue, pipeline: Pipeline)
    ensures var updates := Obj(map["$set" := Obj(map["status" := status])]);
            AdminEdit(current, updates, pipeline).Ok? <==> ApplyBusinessValidation(Obj(current), false).Ok?
    ensures var updates := Obj(map["$set" := Obj(map["status" := status])]);
            AdminEdit(current, updates, pipeline).Ok? ==> Field(AdminEdit(current, updates, pipeline).value, "status") == status
  {
    var operand := Obj(map["status" := status]);
    var u := map["$set" := operand];
    assert Entries(Obj(u)) == u;
    assert current + u == current["$set" := operand];
    assert !PlainKey("$set");
    RulesIgnoreOperatorKey(current, "$set", operand);
    if ApplyBusinessValidation(Obj(current), false).Ok? {
      AdminRecheckPasses(current, u);
      StatusSetByOperand(current, status);
    }
  }

  /** As written, an array of updates is no object, so the endpoint strips
      nothing from it: the body `{ updates: [stage] }` reaches the database
      as a one-stage pipeline, and when the stored abstract passes the rules
      the abstract becomes whatever that stage makes of it, status included. */
  lemma StatusThroughPipelineAsWritten(t: Tables, id: string, stage: JsValue, parse: JsonParser, protocol: string, host: string,
                                       verdict: Verdict, pipeline: Pipeline)
    requires IsObjectId(id) && id in t.abstracts
    requires ApplyBusinessValidation(Obj(t.abstracts[id]), false).Ok?
    requires pipeline(t.abstracts[id], [stage]).Ok? && verdict(pipeline(t.abstracts[id], [stage]).value).None?
    ensures var h := AdminUpdateReply(t, id, Obj(map["updates" := Arr([stage])]), parse, protocol, host, verdict, pipeline);
            h.tables.abstracts == t.abstracts[id := pipeline(t.abstracts[id], [stage]).value]
  {
    var u := Arr([stage]);
    assert BodyUpdates(Obj(map["updates" := u]), parse) == Ok(u);
    assert StripStatus(u) == u;
    ArrayEditIsPipeline(t.abstracts[id], stage, pipeline);
  }

  /** The admin edit of a one-stage array over an abstract that passes the
      rules is the database's pipeline. */
  lemma ArrayEditIsPipeline(current: Doc, stage: JsValue, pipeline: Pipeline)
    requires ApplyBusinessValidation(Obj(current), false).Ok?
    ensures AdminEdit(current, Arr([stage]), pipeline) == pipeline(current, [stage])
  {
    OneStageEntries(stage);
    OneKeyEditIsPipeline(current, "0", stage, pipeline);
  }

  /** A one-stage array spreads as the single index key `"0"`. */
  lemma OneStageEntries(stage: JsValue)
    ensures Entries(Arr([stage])) == map["0" := stage]
    ensures "0" !in RuleFields
  {
    assert NatToString(0) == "0";
  }

  lemma OneKeyEditIsPipeline(current: Doc, k: string, stage: JsValue, pipeline: Pipeline)
    requires Entries(Arr([stage])) == map[k := stage] && k !in RuleFields
    requires ApplyBusinessValidation(Obj(current), false).Ok?
    ensures AdminEdit(current, Arr([stage]), pipeline) == pipeline(current, [stage])
  {
    assert current + Entries(Arr([stage])) == current[k := stage];
    RulesIgnoreOtherKey(current, k, stage);
    ArrayEditPasses(current, [stage], pipeline);
  }

  lemma StatusSetByOperand(current: Doc, status: JsValue)
    ensures var u := map["$set" := Obj(map["status" := status])];
            Field(ApplyUpdate(current, u + AdminOverrides(u, current + u)), "status") == status
  {
    var u := map["$set" := Obj(map["status" := status])];
    var o := AdminOverrides(u, current + u);
    assert PlainKey("keywords") && PlainKey("coAuthorsRaw") && PlainKey("coAuthors") && PlainKey("status");
    SetOperandWrites(current, "status", status, o);
  }

  /** `adminUpdateAbstractController`, with `status` deleted from the
      decoded updates in place before the save. */
  method AdminUpdateAbstractController(db: AbstractStore, id: string, body: JsValue, parse: JsonParser,
                                       protocol: string, host: string, verdict: Verdict, pipeline: Pipeline) returns (reply: Reply)
    modifies db
    ensures Handled(db.Snapshot(), reply) == AdminUpdateReply(old(db.Snapshot()), id, body, parse, protocol, host, verdict, pipeline)
  {
    var decoded := BodyUpdates(body, parse);
    if decoded.Err? {
      return Failure(SendError(decoded.error));
    }
    var updates := decoded.value;
    if updates.Obj? {
      updates := Obj(updates.fields - {"status"});
    }
    var removeIds := NormalizeRemoveAttachmentIds(Get(body, "removeAttachmentIds"), parse);
    var saved := AdminUpdateAbstract(db, id, updates, verdict, pipeline);
    if saved.Err? {
      return Failure(SendError(saved.error));
    }
    var dto := ToAbstractDto(Obj(saved.value), protocol, host, false);
    if dto.Err? {
      return Failure(SendError(dto.error));
    }
    return Json(dto.value);
  }

  // ---------------------------------------------------------------- export

  /** The fill and font colours (ARGB) of a status cell. */
  datatype CellColours = CellColours(fill: string, font: string)

  const SubmittedColours: CellColours := CellColours("FFDBEAFE", "FF0C4A6E")
  const UnderReviewColours: CellColours := CellColours("FFFEF9C3", "FF713F12")
  const ApprovedColours: CellColours := CellColours("FFDCFCE7", "FF14532D")
  const RejectedColours: CellColours := CellColours("FFFEE2E2", "FF7F1D1D")
  const DefaultColours: CellColours := CellColours("FFE2E8F0", "FF0F172A")

  /** The status as `styleStatusCell` compares it: text, trimmed, lower case. */
  function StatusKey(statusRaw: JsValue): string {
    Lower(Trim(ToStr(Or(statusRaw, Str("")))))
  }

  /** The colours `styleStatusCell(cell, statusRaw)` gives a cell. */
  function StatusColours(statusRaw: JsValue): (c: CellColours)
    ensures StatusKey(statusRaw) == "submitted" ==> c == SubmittedColours
    ensures StatusKey(statusRaw) in {"under-review", "under_review", "underreview"} ==> c == UnderReviewColours
    ensures StatusKey(statusRaw) == "approved" ==> c == ApprovedColours
    ensures StatusKey(statusRaw) == "rejected" ==> c == RejectedColours
    ensures StatusKey(statusRaw) !in {"submitted", "under-review", "under_review", "underreview", "approved", "rejected"} ==>
              c == DefaultColours
  {
    var s := StatusKey(statusRaw);
    if s == "submitted" then SubmittedColours
    else if s == "under-review" || s == "under_review" || s == "underreview" then UnderReviewColours
    else if s == "approved" then ApprovedColours
    else if s == "rejected" then RejectedColours
    else DefaultColours
  }

  /** Colours ignore case and surrounding blanks: a status written in any
      case, padded with blanks, is coloured like the plain one. */
  lemma StatusColoursIgnoreCase(s: string)
    ensures StatusColours(Str(s)) == StatusColours(Str(Lower(Trim(s))))
  {
    var k := Lower(Trim(s));
    StatusKeyOfText(s);
    StatusKeyOfText(k);
    TrimKeepsLower(s);
    LowerIdempotent(Trim(s));
    assert StatusKey(Str(s)) == StatusKey(Str(k));
  }

  lemma StatusKeyOfText(s: string)
    ensures StatusKey(Str(s)) == Lower(Trim(s))
  {
    assert ToStr(Or(Str(s), Str(""))) == s;
  }

  /** A missing status gets the default colours. */
  lemma StatusColoursOfMissing()
    ensures StatusColours(Undefined) == DefaultColours && StatusColours(Null) == DefaultColours
  {
    assert StatusKey(Undefined) == "";
    assert StatusKey(Null) == "";
  }

  /** "updated", the status an author's edit sets, gets the default colours. */
  lemma StatusColoursOfUpdated()
    ensures StatusColours(Str("updated")) == DefaultColours
  {
    var u := "updated";
    TrimUnpadded(u);
    assert forall i :: 0 <= i < |u| ==> LowerChar(u[i]) == u[i];
    assert Lower(u) == u;
    StatusKeyOfText(u);
  }

  lemma TrimKeepsLower(s: string)
    ensures Trim(Lower(Trim(s))) == Lower(Trim(s))
  {
    var t := Trim(s);
    if t != "" {
      TrimUnpadded(Lower(t));
    }
  }
}
