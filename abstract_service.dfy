/**
 * Abstract submissions: the business rules every save is checked against,
 * the author's create / edit / attachment operations, the admin listing and
 * the admin edit. Stored abstracts are plain documents keyed by their id; the
 * database's verdict on a write (schema validation) and the mail transport's
 * verdict on a message are supplied functions.
 */
module AbstractService {
  import opened Wrappers
  import opened Strings
  import opened Js
  import opened Common
  import opened Objects
  import opened AbstractHelper

  /** A stored abstract, as `toObject()` gives it. */
  type Doc = map<string, JsValue>

  /** `doc.key` */
  function Field(d: Doc, key: string): JsValue {
    Get(Obj(d), key)
  }

  /** The presenting-author profile fields the service selects. */
  datatype ProfileRef = ProfileRef(id: JsValue, firstName: JsValue)

  /** The "abstract submitted" mail handed to the transport. */
  datatype SubmittedMail = SubmittedMail(to: JsValue, firstName: JsValue, abstractId: string, abstractTitle: JsValue, presentation: string)

  /** The stored abstracts and the mail sent so far. */
  datatype Tables = Tables(abstracts: map<string, Doc>, outbox: seq<SubmittedMail>)

  /** The tables after an operation, and what it returned or threw. */
  datatype Step<T> = Step(tables: Tables, result: Outcome<T>)

  /** What the database throws when it writes a document, if anything. */
  type Verdict = Doc -> Option<Error>

  /** What the database makes of the stored abstract when it runs an array
      of update stages on it as an aggregation pipeline: the updated
      document, or what it throws. */
  type Pipeline = (Doc, seq<JsValue>) -> Outcome<Doc>

  /** An uploaded file as the upload middleware hands it over, with the id
      the database gives its attachment subdocument. */
  datatype Upload = Upload(id: string, originalname: JsValue, filename: JsValue, mimetype: JsValue, size: JsValue)

  // ---------------------------------------------------------------- rules

  /** `ensureAuthUser(user)` */
  function EnsureAuthUser(user: JsValue): (r: Outcome<()>)
    ensures r.Ok? <==> Truthy(Get(user, "_id"))
    ensures r.Err? ==> r.error == Http(401, "Not authenticated")
  {
    if Truthy(Get(user, "_id")) then Ok(()) else Err(Http(401, "Not authenticated"))
  }

  /** The owner key of the authenticated user. */
  function OwnerKey(user: JsValue): string {
    ToStr(Get(user, "_id"))
  }

  /** `findOne({ _id: id, owner: user._id })` matches this document. */
  predicate OwnedBy(d: Doc, user: JsValue) {
    ToStr(Field(d, "owner")) == OwnerKey(user)
  }

  const RequiredFields: seq<string> := ["presentingAuthorName", "correspondingAuthorName", "abstractTitle", "abstractText"]

  /** The position of the first listed field that is falsy in `payload`
      (`|fields|` when there is none). */
  function FirstMissing(payload: JsValue, fields: seq<string>): (k: nat)
    ensures k <= |fields|
    ensures forall j :: 0 <= j < k ==> Truthy(Get(payload, fields[j]))
    ensures k < |fields| ==> !Truthy(Get(payload, fields[k]))
  {
    if |fields| == 0 then 0
    else if !Truthy(Get(payload, fields[0])) then 0
    else 1 + FirstMissing(payload, fields[1..])
  }

  const TypesMessage: string := "Select at least one presentation type."
  const CategoriesMessage: string := "Select at least one scientific category."
  const OtherMessage: string := "Other category text is required when selecting OTHER."
  const WordsMessage: string := "Abstract text must be 300 words or less."
  const MaxWords: nat := 300
  const MaxKeywords: nat := 5

  /** `payload.scientificCategories?.includes("OTHER")` once the categories are an array. */
  predicate SelectsOther(categories: JsValue) {
    categories.Arr? && Str("OTHER") in categories.items
  }

  /** Every rule of `applyBusinessValidation`, stated declaratively. */
  ghost predicate Acceptable(payload: JsValue, requireDecls: bool) {
    && (forall f :: f in RequiredFields ==> Truthy(Get(payload, f)))
    && EnsureAtLeastOne(Get(payload, "preferredPresentationTypes"), TypesMessage).Ok?
    && EnsureAtLeastOne(Get(payload, "scientificCategories"), CategoriesMessage).Ok?
    && (SelectsOther(Get(payload, "scientificCategories")) ==> Truthy(Get(payload, "otherCategoryText")))
    && WordCount(Get(payload, "abstractText")) <= MaxWords
    && 1 <= |NormalizeKeywords(Get(payload, "keywords"))| <= MaxKeywords
    && (requireDecls ==> ValidateDeclarations(Get(payload, "declarations")).Ok?)
  }

  /** `applyBusinessValidation(payload, { requireDecls })`: the checks in
      order, the first failure thrown; on success the normalised keywords. */
  function ApplyBusinessValidation(payload: JsValue, requireDecls: bool): (r: Outcome<seq<string>>)
    ensures r.Ok? <==> Acceptable(payload, requireDecls)
    ensures r.Ok? ==> r.value == NormalizeKeywords(Get(payload, "keywords"))
    ensures FirstMissing(payload, RequiredFields) < |RequiredFields| ==>
              r == Err(Http(400, "Missing required field: " + RequiredFields[FirstMissing(payload, RequiredFields)]))
    ensures r.Err? && !requireDecls ==> r.error.HttpError? && r.error.status == 400
  {
    var k := FirstMissing(payload, RequiredFields);
    if k < |RequiredFields| then Err(Http(400, "Missing required field: " + RequiredFields[k]))
    else
      assert forall f :: f in RequiredFields ==> Truthy(Get(payload, f));
      ContentChecks(Get(payload, "preferredPresentationTypes"), Get(payload, "scientificCategories"),
                    Get(payload, "otherCategoryText"), Get(payload, "abstractText"), Get(payload, "keywords"),
                    Get(payload, "declarations"), requireDecls)
  }

  /** The checks after the required fields, on the values of the fields they read. */
  function ContentChecks(types: JsValue, categories: JsValue, otherText: JsValue, text: JsValue, keywords: JsValue,
                         declarations: JsValue, requireDecls: bool): Outcome<seq<string>>
  {
    var typesOk := EnsureAtLeastOne(types, TypesMessage);
    var categoriesOk := EnsureAtLeastOne(categories, CategoriesMessage);
    if typesOk.Err? then Err(typesOk.error)
    else if categoriesOk.Err? then Err(categoriesOk.error)
    else if SelectsOther(categories) && !Truthy(otherText) then Err(Http(400, OtherMessage))
    else if WordCount(text) > MaxWords then Err(Http(400, WordsMessage))
    else
      var normalized := NormalizeKeywords(keywords);
      if |normalized| < 1 then Err(Http(400, "Keywords are required."))
      else if |normalized| > MaxKeywords then Err(Http(400, "Maximum 5 keywords allowed."))
      else if requireDecls && ValidateDeclarations(declarations).Err? then Err(ValidateDeclarations(declarations).error)
      else Ok(normalized)
  }

  /** Declarations matter only on submit: an edit accepts exactly what a
      submit accepts, less the declaration check, with the same keywords. */
  lemma DeclarationsOnlyOnSubmit(payload: JsValue)
    ensures ApplyBusinessValidation(payload, true).Ok? ==>
              ApplyBusinessValidation(payload, false) == ApplyBusinessValidation(payload, true)
    ensures ApplyBusinessValidation(payload, false).Ok? ==>
              (ApplyBusinessValidation(payload, true).Ok? <==> ValidateDeclarations(Get(payload, "declarations")).Ok?)
  {
  }

  // ---------------------------------------------------------------- create

  const ProfileRequiredMessage: string := "Profile is required before submitting abstracts."

  /** One co-author as stored. */
  function CoAuthorValue(c: CoAuthor): JsValue {
    Obj(map["fullName" := Str(c.fullName), "institution" := Str(c.institution), "country" := Str(c.country),
            "email" := Str(c.email), "rawLine" := Str(c.rawLine)])
  }

  function CoAuthorList(cs: seq<CoAuthor>): (v: JsValue)
    ensures v.Arr? && |v.items| == |cs|
  {
    Arr(seq(|cs|, i requires 0 <= i < |cs| => CoAuthorValue(cs[i])))
  }

  /** The attachment subdocument for an uploaded file. */
  function NewAttachment(f: Upload, now: int): JsValue {
    Obj(map["_id" := Str(f.id), "originalName" := f.originalname, "storedName" := f.filename,
            "mimeType" := f.mimetype, "size" := f.size, "uploadedAt" := Num(now as real)])
  }

  function NewAttachments(files: seq<Upload>, now: int): (r: seq<JsValue>)
    ensures |r| == |files|
  {
    seq(|files|, i requires 0 <= i < |files| => NewAttachment(files[i], now))
  }

  /** The declarations a submit stores: all accepted, stamped now. */
  function AcceptedDeclarations(now: int): (v: JsValue)
    ensures ValidateDeclarations(v).Ok?
  {
    var v := Obj(map["originalWork" := Bool(true), "authorsApproved" := Bool(true), "agreeProceedings" := Bool(true),
                     "acceptedAt" := Num(now as real)]);
    assert Get(v, "originalWork") == Bool(true);
    assert Get(v, "authorsApproved") == Bool(true);
    assert Get(v, "agreeProceedings") == Bool(true);
    v
  }

  /** The author-supplied content of a new abstract. */
  function SubmittedContent(user: JsValue, profile: ProfileRef, payload: JsValue, keywords: seq<string>, block: CoAuthorBlock): (c: Doc)
    ensures "owner" in c && c["owner"] == Get(user, "_id")
    ensures "keywords" in c && c["keywords"] == KeywordArray(keywords)
  {
    map[
      "owner" := Get(user, "_id"),
      "presentingAuthorProfile" := profile.id,
      "presentingAuthorName" := Get(payload, "presentingAuthorName"),
      "correspondingAuthorName" := Get(payload, "correspondingAuthorName"),
      "correspondingAuthorEmail" := Or(Get(payload, "correspondingAuthorEmail"), Str("")),
      "abstractTitle" := Get(payload, "abstractTitle"),
      "preferredPresentationTypes" := Get(payload, "preferredPresentationTypes"),
      "scientificCategories" := Get(payload, "scientificCategories"),
      "otherCategoryText" := Or(Get(payload, "otherCategoryText"), Str("")),
      "abstractText" := Get(payload, "abstractText"),
      "keywords" := KeywordArray(keywords),
      "coAuthorsRaw" := Str(block.coAuthorsRaw),
      "coAuthors" := CoAuthorList(block.coAuthors)]
  }

  /** The document `createAbstract` stores: the content, then the
      submission bookkeeping (its own id, attachments, accepted
      declarations, status "submitted", no mail sent yet). */
  function NewSubmission(user: JsValue, profile: ProfileRef, payload: JsValue, keywords: seq<string>, block: CoAuthorBlock,
                         files: seq<Upload>, newId: string, now: int): (d: Doc)
    ensures Field(d, "_id") == Str(newId)
    ensures Field(d, "status") == Str("submitted")
    ensures Field(d, "declarations") == AcceptedDeclarations(now)
    ensures Field(d, "submissionEmailSentAt") == Null
    ensures Field(d, "owner") == Get(user, "_id")
    ensures Field(d, "keywords") == KeywordArray(keywords)
  {
    var content := SubmittedContent(user, profile, payload, keywords, block);
    var record := SubmissionRecord(files, newId, now);
    assert "owner" !in record && "keywords" !in record;
    content + record
  }

  /** The submission bookkeeping laid over the content. */
  function SubmissionRecord(files: seq<Upload>, newId: string, now: int): (m: Doc)
    ensures m.Keys == {"attachments", "declarations", "submittedAt", "status", "_id", "submissionEmailSentAt"}
  {
    map[
      "attachments" := Arr(NewAttachments(files, now)),
      "declarations" := AcceptedDeclarations(now),
      "submittedAt" := Num(now as real),
      "status" := Str("submitted"),
      "_id" := Str(newId),
      "submissionEmailSentAt" := Null]
  }

  /** `(doc.preferredPresentationTypes || []).join(", ")` */
  function Presentation(types: JsValue): string {
    if types.Arr? then Join(seq(|types.items|, i requires 0 <= i < |types.items| => ElementText(types.items[i])), ", ")
    else ""
  }

  /** The greeting name: the profile's first name, else the first word of the
      presenting author's name. */
  function GreetingName(profile: ProfileRef, payload: JsValue): JsValue {
    Or(profile.firstName, Str(Split(ToStr(Or(Get(payload, "presentingAuthorName"), Str("Author"))), ' ')[0]))
  }

  /** The "submitted" mail for a stored abstract. */
  function SubmittedMailFor(user: JsValue, profile: ProfileRef, payload: JsValue, newId: string, d: Doc): SubmittedMail {
    SubmittedMail(Get(user, "email"), GreetingName(profile, payload), newId, Field(d, "abstractTitle"),
                  Presentation(Field(d, "preferredPresentationTypes")))
  }

  /** The checks of `createAbstract` before anything is written: the user,
      the profile and the rules (declarations included). On success, the
      document to store and the mail to send. */
  function Submission(profiles: map<string, ProfileRef>, user: JsValue, payload: JsValue, files: seq<Upload>,
                      newId: string, now: int): (r: Outcome<(Doc, SubmittedMail)>)
    ensures r.Ok? <==> EnsureAuthUser(user).Ok? && OwnerKey(user) in profiles && Acceptable(payload, true)
    ensures EnsureAuthUser(user).Ok? && OwnerKey(user) !in profiles ==> r == Err(Http(409, ProfileRequiredMessage))
    ensures r.Ok? ==>
              var (d, mail) := r.value;
              && Field(d, "_id") == Str(newId)
              && Field(d, "owner") == Get(user, "_id")
              && Field(d, "status") == Str("submitted")
              && ValidateDeclarations(Field(d, "declarations")).Ok?
              && Field(d, "submissionEmailSentAt") == Null
              && Field(d, "keywords") == KeywordArray(NormalizeKeywords(Get(payload, "keywords")))
              && mail.to == Get(user, "email") && mail.abstractId == newId
  {
    match EnsureAuthUser(user)
    case Err(e) => Err(e)
    case Ok(_) =>
      if OwnerKey(user) !in profiles then Err(Http(409, ProfileRequiredMessage))
      else
        var profile := profiles[OwnerKey(user)];
        match ApplyBusinessValidation(payload, true)
        case Err(e) => Err(e)
        case Ok(keywords) =>
          var block := CoAuthorsOf(Or(Get(payload, "coAuthorsRaw"), Str("")));
          var d := NewSubmission(user, profile, payload, keywords, block, files, newId, now);
          Ok((d, SubmittedMailFor(user, profile, payload, newId, d)))
  }

  /** The writes of `createAbstract`: store the document (its id must be
      new), mail the author while the document records no mail, then record
      the time and save again. */
  function StoreAndMail(t: Tables, newId: string, d: Doc, mail: SubmittedMail, now: int,
                        verdict: Verdict, mailError: SubmittedMail -> Option<Error>): (s: Step<Doc>)
  {
    if newId in t.abstracts then Step(t, Err(DuplicateKey(Obj(map["_id" := Str(newId)]))))
    else if verdict(d).Some? then Step(t, Err(verdict(d).value))
    else
      var t1 := t.(abstracts := t.abstracts[newId := d]);
      if Truthy(Field(d, "submissionEmailSentAt")) then Step(t1, Ok(d))
      else if mailError(mail).Some? then Step(t1, Err(mailError(mail).value))
      else
        var sent := d["submissionEmailSentAt" := Num(now as real)];
        var t2 := Tables(t.abstracts[newId := sent], t.outbox + [mail]);
        if verdict(sent).Some? then Step(t2.(abstracts := t1.abstracts), Err(verdict(sent).value))
        else Step(t2, Ok(sent))
  }

  /** `createAbstract(user, payload, files)` */
  function CreateOutcome(t: Tables, profiles: map<string, ProfileRef>, user: JsValue, payload: JsValue, files: seq<Upload>,
                         newId: string, now: int, verdict: Verdict, mailError: SubmittedMail -> Option<Error>): (s: Step<Doc>)
    ensures s.result.Err? ==> s.result.error.HttpError?
  {
    match Submission(profiles, user, payload, files, newId, now)
    case Err(e) => Step(t, Err(CatchFailure(e, "Invalid abstract data.", "Failed to create abstract.")))
    case Ok((d, mail)) =>
      var s := StoreAndMail(t, newId, d, mail, now, verdict, mailError);
      Step(s.tables, if s.result.Ok? then s.result else Err(CatchFailure(s.result.error, "Invalid abstract data.", "Failed to create abstract.")))
  }

  /** A fresh document is mailed exactly once: when everything succeeds, the
      stored document is the submitted one with the mail time recorded, and
      the outbox gains exactly that one mail. */
  lemma StoreAndMailOnce(t: Tables, newId: string, d: Doc, mail: SubmittedMail, now: int,
                         verdict: Verdict, mailError: SubmittedMail -> Option<Error>)
    requires Field(d, "submissionEmailSentAt") == Null
    requires StoreAndMail(t, newId, d, mail, now, verdict, mailError).result.Ok?
    ensures var s := StoreAndMail(t, newId, d, mail, now, verdict, mailError);
            && newId !in t.abstracts
            && s.result.value == d["submissionEmailSentAt" := Num(now as real)]
            && s.tables == Tables(t.abstracts[newId := s.result.value], t.outbox + [mail])
  {
  }

  /** When the mail cannot be sent the document stays stored, still marked
      as not mailed, and nothing is sent. */
  lemma MailFailureKeepsAbstract(t: Tables, newId: string, d: Doc, mail: SubmittedMail, now: int,
                                 verdict: Verdict, mailError: SubmittedMail -> Option<Error>)
    requires Field(d, "submissionEmailSentAt") == Null
    requires newId !in t.abstracts && verdict(d).None? && mailError(mail).Some?
    ensures var s := StoreAndMail(t, newId, d, mail, now, verdict, mailError);
            && s.result == Err(mailError(mail).value)
            && s.tables == t.(abstracts := t.abstracts[newId := d])
  {
  }

  /** A successful submit passed every check, stores exactly one new
      abstract (the submitted document of `Submission`, with the mail time
      recorded) and sends exactly one mail, to the submitting user. */
  lemma CreateSubmitsOnce(t: Tables, profiles: map<string, ProfileRef>, user: JsValue, payload: JsValue, files: seq<Upload>,
                          newId: string, now: int, verdict: Verdict, mailError: SubmittedMail -> Option<Error>)
    requires CreateOutcome(t, profiles, user, payload, files, newId, now, verdict, mailError).result.Ok?
    ensures Submission(profiles, user, payload, files, newId, now).Ok?
    ensures Acceptable(payload, true)
    ensures var s := CreateOutcome(t, profiles, user, payload, files, newId, now, verdict, mailError);
            var (d, mail) := Submission(profiles, user, payload, files, newId, now).value;
            && newId !in t.abstracts
            && s.result.value == d["submissionEmailSentAt" := Num(now as real)]
            && s.tables == Tables(t.abstracts[newId := s.result.value], t.outbox + [mail])
            && mail.to == Get(user, "email")
  {
    var (d, mail) := Submission(profiles, user, payload, files, newId, now).value;
    StoreAndMailOnce(t, newId, d, mail, now, verdict, mailError);
  }

  // ---------------------------------------------------------------- author edit

  /** The keys `updateMyAbstract` writes over the sanitized updates. */
  const AuthorKeys: set<string> := {"keywords", "coAuthorsRaw", "coAuthors", "status"}

  /** What `updateMyAbstract` writes over the sanitized updates: the
      normalised keywords, the co-authors parsed from the raw text (the
      update's, else the stored one, else ""), and the status "updated". */
  function AuthorOverrides(safe: Doc, merged: Doc, keywords: seq<string>): (o: Doc)
    ensures o.Keys == AuthorKeys
    ensures o["status"] == Str("updated") && o["keywords"] == KeywordArray(keywords)
  {
    var block := CoAuthorsOf(Coalesce(Field(safe, "coAuthorsRaw"), Coalesce(Field(merged, "coAuthorsRaw"), Str(""))));
    map["keywords" := KeywordArray(keywords), "coAuthorsRaw" := Str(block.coAuthorsRaw),
        "coAuthors" := CoAuthorList(block.coAuthors), "status" := Str("updated")]
  }

  /** The document `updateMyAbstract` writes: the sanitized updates merged
      over the stored abstract must pass the rules (declarations not
      required); the database then applies the sanitized updates with the
      overrides over them to the stored abstract. */
  function AuthorEdit(current: Doc, updates: JsValue): (r: Outcome<Doc>)
    ensures r.Err? ==> r.error.HttpError? && r.error.status == 400
    ensures r.Ok? ==> Field(r.value, "status") == Str("updated")
  {
    var safe := if Truthy(updates) then Allowed(Entries(updates), AbstractDenied) else map[];
    var merged := current + safe;
    match ApplyBusinessValidation(Obj(merged), false)
    case Err(e) => Err(e)
    case Ok(keywords) =>
      AuthorOverridesWritten(safe, merged, keywords);
      Ok(ApplyUpdate(current, safe + AuthorOverrides(safe, merged, keywords)))
  }

  /** The overrides are plain paths, so the database writes each of them. */
  lemma AuthorOverridesWritten(safe: Doc, merged: Doc, keywords: seq<string>)
    ensures forall k :: k in AuthorOverrides(safe, merged, keywords) ==> PlainKey(k)
  {
    forall k | k in AuthorKeys
      ensures PlainKey(k)
    {
      if k == "keywords" {
      } else if k == "coAuthorsRaw" {
      } else if k == "coAuthors" {
      } else {
        assert k == "status";
      }
    }
  }

  /** `updateMyAbstract`'s edit with a sanitizer that also refuses operator
      and dotted keys: the code as written, handed the request's plain body
      (`Objects.PlainBodySanitized`). */
  function AuthorEditIntended(current: Doc, updates: JsValue): (r: Outcome<Doc>)
    ensures r.Err? ==> r.error.HttpError? && r.error.status == 400
  {
    AuthorEdit(current, PlainBody(updates))
  }

  /** With the corrected sanitizer an author's edit never changes the owner,
      the profile link, the attachments or the declarations; it always
      leaves the status "updated" and stores keywords that pass the rules
      and a co-author list that is the parse of the stored raw text. */
  lemma AuthorEditKeepsProtectedFields(current: Doc, updates: JsValue)
    requires AuthorEditIntended(current, updates).Ok?
    ensures var d := AuthorEditIntended(current, updates).value;
            && (forall k :: k in AbstractDenied && k != "status" ==> Field(d, k) == Field(current, k))
            && Field(d, "status") == Str("updated")
            && 1 <= |NormalizeKeywords(Field(d, "keywords"))| <= MaxKeywords
            && Field(d, "coAuthors") == CoAuthorList(CoAuthorsOf(Field(d, "coAuthorsRaw")).coAuthors)
  {
    var safe := if Truthy(updates) then Sanitized(Entries(updates), AbstractDenied) else map[];
    var merged := current + safe;
    IntendedAuthorEditIsMerge(current, updates);
    var keywords := ApplyBusinessValidation(Obj(merged), false).value;
    AcceptedContent(Obj(merged));
    OverriddenEdit(current, safe, merged, keywords);
  }

  /** The stored abstract with sanitized changes and the author's overrides
      laid over it keeps the denied fields and carries the overrides. */
  lemma OverriddenEdit(current: Doc, safe: Doc, merged: Doc, keywords: seq<string>)
    requires forall k :: k in safe ==> k !in AbstractDenied
    requires 1 <= |keywords| <= MaxKeywords && keywords == NormalizeKeywords(Field(merged, "keywords"))
    ensures var d := current + safe + AuthorOverrides(safe, merged, keywords);
            && (forall k :: k in AbstractDenied && k != "status" ==> Field(d, k) == Field(current, k))
            && Field(d, "status") == Str("updated")
            && 1 <= |NormalizeKeywords(Field(d, "keywords"))| <= MaxKeywords
            && Field(d, "coAuthors") == CoAuthorList(CoAuthorsOf(Field(d, "coAuthorsRaw")).coAuthors)
  {
    var o := AuthorOverrides(safe, merged, keywords);
    var d := current + safe + o;
    forall k | k in AbstractDenied && k != "status"
      ensures Field(d, k) == Field(current, k)
    {
      DeniedNotOverridden(k);
    }
    KeywordsStable(Field(merged, "keywords"));
    var raw := Coalesce(Field(safe, "coAuthorsRaw"), Coalesce(Field(merged, "coAuthorsRaw"), Str("")));
    ReparseCoAuthors(raw);
  }

  lemma DeniedNotOverridden(k: string)
    requires k in AbstractDenied && k != "status"
    ensures k !in AuthorKeys
  {
  }

  /** With the corrected sanitizer, what the edit stores is the sanitized
      updates and the overrides spread over the stored abstract. */
  lemma IntendedAuthorEditIsMerge(current: Doc, updates: JsValue)
    requires AuthorEditIntended(current, updates).Ok?
    ensures var safe := if Truthy(updates) then Sanitized(Entries(updates), AbstractDenied) else map[];
            var merged := current + safe;
            && ApplyBusinessValidation(Obj(merged), false).Ok?
            && AuthorEditIntended(current, updates).value ==
                 current + safe + AuthorOverrides(safe, merged, ApplyBusinessValidation(Obj(merged), false).value)
  {
    PlainBodySanitized(updates, AbstractDenied);
    var safe := if Truthy(updates) then Sanitized(Entries(updates), AbstractDenied) else map[];
    var merged := current + safe;
    var keywords := ApplyBusinessValidation(Obj(merged), false).value;
    var o := AuthorOverrides(safe, merged, keywords);
    assert AuthorEditIntended(current, updates).value == ApplyUpdate(current, safe + o);
    AuthorWriteIsMerge(current, safe, o);
  }

  lemma AuthorWriteIsMerge(current: Doc, safe: Doc, o: Doc)
    requires forall k :: k in safe ==> PlainKey(k)
    requires o.Keys == AuthorKeys
    ensures current + safe + o == ApplyUpdate(current, safe + o)
  {
    assert PlainKey("keywords") && PlainKey("coAuthorsRaw") && PlainKey("coAuthors") && PlainKey("status");
    PlainUpdateIsMerge(current, safe + o);
    UnionAssociates(current, safe, o);
  }

  /** The fields the rules read. */
  const RuleFields: set<string> := {"presentingAuthorName", "correspondingAuthorName", "abstractTitle", "abstractText",
                                    "keywords", "preferredPresentationTypes", "scientificCategories",
                                    "otherCategoryText", "declarations"}

  lemma RuleFieldsArePlain(f: string)
    requires f in RuleFields
    ensures PlainKey(f)
  {
    if f == "presentingAuthorName" {
    } else if f == "correspondingAuthorName" {
    } else if f == "abstractTitle" {
    } else if f == "abstractText" {
    } else if f == "keywords" {
    } else if f == "preferredPresentationTypes" {
    } else if f == "scientificCategories" {
    } else if f == "otherCategoryText" {
    } else {
      assert f == "declarations";
    }
  }

  /** Two payloads that agree on the fields the rules read get the same verdict. */
  lemma RulesReadRuleFields(p: JsValue, q: JsValue, requireDecls: bool)
    requires forall f :: f in RuleFields ==> Get(p, f) == Get(q, f)
    ensures ApplyBusinessValidation(p, requireDecls) == ApplyBusinessValidation(q, requireDecls)
  {
    forall j | 0 <= j < |RequiredFields|
      ensures Get(p, RequiredFields[j]) == Get(q, RequiredFields[j])
    {
      assert RequiredFields[j] in RuleFields;
    }
    SameRequiredFields(p, q, RequiredFields);
    assert Get(p, "preferredPresentationTypes") == Get(q, "preferredPresentationTypes");
    assert Get(p, "scientificCategories") == Get(q, "scientificCategories");
    assert Get(p, "otherCategoryText") == Get(q, "otherCategoryText");
    assert Get(p, "abstractText") == Get(q, "abstractText");
    assert Get(p, "keywords") == Get(q, "keywords");
    assert Get(p, "declarations") == Get(q, "declarations");
  }

  /** The rules read plain fields only: an operator key laid over a document
      does not change their verdict. */
  lemma RulesIgnoreOperatorKey(d: Doc, op: string, v: JsValue)
    requires !PlainKey(op)
    ensures ApplyBusinessValidation(Obj(d[op := v]), false) == ApplyBusinessValidation(Obj(d), false)
  {
    if op in RuleFields {
      RuleFieldsArePlain(op);
    }
    RulesIgnoreOtherKey(d, op, v);
  }

  /** The rules read none but their own fields. */
  lemma RulesIgnoreOtherKey(d: Doc, k: string, v: JsValue)
    requires k !in RuleFields
    ensures ApplyBusinessValidation(Obj(d[k := v]), false) == ApplyBusinessValidation(Obj(d), false)
  {
    RulesReadRuleFields(Obj(d[k := v]), Obj(d), false);
  }

  /** Two payloads that agree on the listed fields miss the same first one. */
  lemma {:induction false} SameRequiredFields(p: JsValue, q: JsValue, fields: seq<string>)
    requires forall j :: 0 <= j < |fields| ==> Get(p, fields[j]) == Get(q, fields[j])
    ensures FirstMissing(p, fields) == FirstMissing(q, fields)
  {
    if |fields| > 0 {
      SameRequiredFields(p, q, fields[1..]);
    }
  }

  /** As written, `updateMyAbstract`'s edit takes `{ $set: { owner } }`.
      The rules read the spread copy, where the operator is just another key,
      so they judge the edit as they judge the stored abstract; when that
      passes, the database moves the abstract to `owner`. */
  lemma AuthorSetsOwnerAsWritten(current: Doc, owner: JsValue)
    ensures var r := AuthorEdit(current, Obj(map["$set" := Obj(map["owner" := owner])]));
            && (r.Ok? <==> ApplyBusinessValidation(Obj(current), false).Ok?)
            && (r.Ok? ==> "owner" in r.value && r.value["owner"] == owner)
  {
    var operand := Obj(map["owner" := owner]);
    var safe := Allowed(Entries(Obj(map["$set" := operand])), AbstractDenied);
    assert "$set" !in AbstractDenied;
    assert safe == map["$set" := operand];
    var merged := current + safe;
    assert merged == current["$set" := operand];
    assert !PlainKey("$set");
    RulesIgnoreOperatorKey(current, "$set", operand);
    if ApplyBusinessValidation(Obj(merged), false).Ok? {
      AuthorWriteSetsOwner(current, owner, ApplyBusinessValidation(Obj(merged), false).value);
    }
  }

  lemma AuthorWriteSetsOwner(current: Doc, owner: JsValue, keywords: seq<string>)
    ensures var safe := map["$set" := Obj(map["owner" := owner])];
            var d := ApplyUpdate(current, safe + AuthorOverrides(safe, current + safe, keywords));
            "owner" in d && d["owner"] == owner
  {
    var safe := map["$set" := Obj(map["owner" := owner])];
    var o := AuthorOverrides(safe, current + safe, keywords);
    assert PlainKey("keywords") && PlainKey("coAuthorsRaw") && PlainKey("coAuthors") && PlainKey("status");
    SetOperandWrites(current, "owner", owner, o);
  }

  /** The corrected edit drops the same `$set` operand: the owner stays. */
  lemma IntendedAuthorEditKeepsOwner(current: Doc, owner: JsValue)
    requires AuthorEditIntended(current, Obj(map["$set" := Obj(map["owner" := owner])])).Ok?
    ensures Field(AuthorEditIntended(current, Obj(map["$set" := Obj(map["owner" := owner])])).value, "owner") == Field(current, "owner")
  {
    AuthorEditKeepsProtectedFields(current, Obj(map["$set" := Obj(map["owner" := owner])]));
  }

  /** `updateMyAbstract(user, id, updates)`: the sanitized updates merged over
      the author's own abstract must pass the rules (declarations not
      required); the stored abstract then takes them, with the status
      "updated", whatever its status was. */
  function UpdateOutcome(t: Tables, user: JsValue, id: string, updates: JsValue, verdict: Verdict): (s: Step<Doc>)
    ensures s.result.Err? ==> s.result.error.HttpError? && s.tables == t
    ensures s.tables.outbox == t.outbox
  {
    match EnsureAuthUser(user)
    case Err(e) => Step(t, Err(CatchFailure(e, "Invalid update data.", "Failed to update abstract.")))
    case Ok(_) =>
      if !IsObjectId(id) then Step(t, Err(Http(400, "Invalid abstract id.")))
      else if id !in t.abstracts || !OwnedBy(t.abstracts[id], user) then Step(t, Err(Http(404, "Abstract not found")))
      else
        match AuthorEdit(t.abstracts[id], updates)
        case Err(e) => Step(t, Err(CatchFailure(e, "Invalid update data.", "Failed to update abstract.")))
        case Ok(d) =>
          match verdict(d)
          case Some(e) => Step(t, Err(CatchFailure(e, "Invalid update data.", "Failed to update abstract.")))
          case None => Step(t.(abstracts := t.abstracts[id := d]), Ok(d))
  }

  /** An author's edit changes only their own abstract, and stores what
      `AuthorEdit` makes of it. */
  lemma UpdateChangesOnlyOwnAbstract(t: Tables, user: JsValue, id: string, updates: JsValue, verdict: Verdict)
    requires UpdateOutcome(t, user, id, updates, verdict).result.Ok?
    ensures id in t.abstracts && OwnedBy(t.abstracts[id], user) && AuthorEdit(t.abstracts[id], updates).Ok?
    ensures var s := UpdateOutcome(t, user, id, updates, verdict);
            && s.result.value == AuthorEdit(t.abstracts[id], updates).value
            && s.tables == t.(abstracts := t.abstracts[id := s.result.value])
  {
  }

  /** `updateMyAbstract` with the corrected sanitizer: the code as written,
      handed the request's plain body. */
  function UpdateOutcomeIntended(t: Tables, user: JsValue, id: string, updates: JsValue, verdict: Verdict): (s: Step<Doc>)
    ensures s.result.Err? ==> s.result.error.HttpError? && s.tables == t
    ensures s.result.Ok? ==>
              && id in t.abstracts && OwnedBy(t.abstracts[id], user) && AuthorEditIntended(t.abstracts[id], updates).Ok?
              && s.result.value == AuthorEditIntended(t.abstracts[id], updates).value
              && s.tables == t.(abstracts := t.abstracts[id := s.result.value])
  {
    var s := UpdateOutcome(t, user, id, PlainBody(updates), verdict);
    if s.result.Ok? then UpdateChangesOnlyOwnAbstract(t, user, id, PlainBody(updates), verdict); s else s
  }

  /** As written, an author who sends `{ $set: { owner } }` for their own
      abstract moves it to `owner` whenever the stored abstract passes the
      rules and the database accepts the result. */
  lemma UpdateMovesOwnerAsWritten(t: Tables, user: JsValue, id: string, owner: JsValue, verdict: Verdict)
    requires UpdateOutcome(t, user, id, Obj(map["$set" := Obj(map["owner" := owner])]), verdict).result.Ok?
    ensures var s := UpdateOutcome(t, user, id, Obj(map["$set" := Obj(map["owner" := owner])]), verdict);
            && id in t.abstracts && OwnedBy(t.abstracts[id], user)
            && id in s.tables.abstracts && Field(s.tables.abstracts[id], "owner") == owner
  {
    var body := Obj(map["$set" := Obj(map["owner" := owner])]);
    UpdateChangesOnlyOwnAbstract(t, user, id, body, verdict);
    AuthorSetsOwnerAsWritten(t.abstracts[id], owner);
  }

  // ---------------------------------------------------------------- attachments

  /** `addAttachments(user, id, files)`: the new files go after the existing
      attachments. */
  function AddOutcome(t: Tables, user: JsValue, id: string, files: seq<Upload>, now: int, verdict: Verdict): (s: Step<Doc>)
    ensures s.result.Err? ==> s.result.error.HttpError? && s.tables == t
    ensures s.tables.outbox == t.outbox
  {
    match EnsureAuthUser(user)
    case Err(e) => Step(t, Err(e))
    case Ok(_) =>
      if !IsObjectId(id) then Step(t, Err(Http(400, "Invalid abstract id.")))
      else if id !in t.abstracts || !OwnedBy(t.abstracts[id], user) then Step(t, Err(Http(404, "Abstract not found")))
      else
        var current := t.abstracts[id];
        var existing := Field(current, "attachments");
        if !existing.Arr? then Step(t, Err(Http(500, "Failed to add attachments.")))
        else
          var d := current["attachments" := Arr(existing.items + NewAttachments(files, now))];
          match verdict(d)
          case Some(e) => Step(t, Err(if e.HttpError? then e else Http(500, "Failed to add attachments.")))
          case None => Step(t.(abstracts := t.abstracts[id := d]), Ok(d))
  }

  /** Adding keeps every existing attachment, in place and in order, puts
      one new attachment per file after them, and changes nothing else. */
  lemma AddAppends(t: Tables, user: JsValue, id: string, files: seq<Upload>, now: int, verdict: Verdict)
    requires AddOutcome(t, user, id, files, now, verdict).result.Ok?
    ensures id in t.abstracts && Field(t.abstracts[id], "attachments").Arr?
    ensures var d := AddOutcome(t, user, id, files, now, verdict).result.value;
            var before := Field(t.abstracts[id], "attachments").items;
            && Field(d, "attachments").Arr?
            && |Field(d, "attachments").items| == |before| + |files|
            && Field(d, "attachments").items[..|before|] == before
            && (forall i :: 0 <= i < |files| ==>
                  Get(Field(d, "attachments").items[|before| + i], "_id") == Str(files[i].id))
            && (forall k :: k != "attachments" ==> Field(d, k) == Field(t.abstracts[id], k))
  {
    var before := Field(t.abstracts[id], "attachments").items;
    var d := AddOutcome(t, user, id, files, now, verdict).result.value;
    assert Field(d, "attachments").items == before + NewAttachments(files, now);
  }

  /** The attachments whose id does not print as `attachmentId`, in order. */
  function Without(items: seq<JsValue>, attachmentId: string): (r: seq<JsValue>)
    ensures |r| <= |items|
    ensures forall a :: a in r <==> a in items && ToStr(Get(a, "_id")) != attachmentId
    ensures |r| == |items| <==> forall i :: 0 <= i < |items| ==> ToStr(Get(items[i], "_id")) != attachmentId
  {
    if |items| == 0 then []
    else
      var rest := Without(items[1..], attachmentId);
      assert forall i :: 1 <= i < |items| ==> items[i] == items[1..][i - 1];
      if ToStr(Get(items[0], "_id")) != attachmentId then [items[0]] + rest else rest
  }

  /** Removing keeps the order of what stays. */
  lemma {:induction false} WithoutKeepsOrder(a: seq<JsValue>, b: seq<JsValue>, attachmentId: string)
    ensures Without(a + b, attachmentId) == Without(a, attachmentId) + Without(b, attachmentId)
  {
    if |a| == 0 {
      assert a + b == b;
    } else {
      assert (a + b)[0] == a[0];
      assert (a + b)[1..] == a[1..] + b;
      WithoutKeepsOrder(a[1..], b, attachmentId);
    }
  }

  /** `removeAttachment(user, id, attachmentId)` */
  function RemoveOutcome(t: Tables, user: JsValue, id: string, attachmentId: string, verdict: Verdict): (s: Step<Doc>)
    ensures s.result.Err? ==> s.result.error.HttpError? && s.tables == t
    ensures s.tables.outbox == t.outbox
  {
    match EnsureAuthUser(user)
    case Err(e) => Step(t, Err(e))
    case Ok(_) =>
      if !IsObjectId(id) then Step(t, Err(Http(400, "Invalid abstract id.")))
      else if !IsObjectId(attachmentId) then Step(t, Err(Http(400, "Invalid attachment id.")))
      else if id !in t.abstracts || !OwnedBy(t.abstracts[id], user) then Step(t, Err(Http(404, "Abstract not found")))
      else
        var current := t.abstracts[id];
        var existing := Field(current, "attachments");
        if !existing.Arr? then Step(t, Err(Http(500, "Failed to remove attachment.")))
        else
          var kept := Without(existing.items, attachmentId);
          if |kept| == |existing.items| then Step(t, Err(Http(404, "Attachment not found")))
          else
            var d := current["attachments" := Arr(kept)];
            match verdict(d)
            case Some(e) => Step(t, Err(if e.HttpError? then e else Http(500, "Failed to remove attachment.")))
            case None => Step(t.(abstracts := t.abstracts[id := d]), Ok(d))
  }

  /** Removing deletes exactly the attachments with that id (at least one),
      keeps every other one, and answers 404 when no attachment has it. */
  lemma RemoveDeletesOnlyMatching(t: Tables, user: JsValue, id: string, attachmentId: string, verdict: Verdict)
    ensures var s := RemoveOutcome(t, user, id, attachmentId, verdict);
            s.result.Ok? ==>
              && id in t.abstracts
              && var before := Field(t.abstracts[id], "attachments");
              && before.Arr?
              && (exists i :: 0 <= i < |before.items| && ToStr(Get(before.items[i], "_id")) == attachmentId)
              && Field(s.result.value, "attachments") == Arr(Without(before.items, attachmentId))
    ensures EnsureAuthUser(user).Ok? && IsObjectId(id) && IsObjectId(attachmentId) && id in t.abstracts
            && OwnedBy(t.abstracts[id], user) && Field(t.abstracts[id], "attachments").Arr?
            && (forall a :: a in Field(t.abstracts[id], "attachments").items ==> ToStr(Get(a, "_id")) != attachmentId) ==>
              RemoveOutcome(t, user, id, attachmentId, verdict) == Step(t, Err(Http(404, "Attachment not found")))
  {
  }

  // ---------------------------------------------------------------- admin listing

  /** `{ items, total, page, limit }` */
  datatype Listing = Listing(items: seq<Doc>, total: nat, page: int, limit: int)

  /** The admin filter: the owner when given, the status when given. */
  predicate Matches(d: Doc, ownerId: JsValue, status: JsValue) {
    && (Truthy(ownerId) ==> ToStr(Field(d, "owner")) == ToStr(ownerId))
    && (Truthy(status) ==> Field(d, "status") == status)
  }

  function Matching(docs: seq<Doc>, ownerId: JsValue, status: JsValue): (r: seq<Doc>)
    ensures |r| <= |docs|
    ensures forall d :: d in r <==> d in docs && Matches(d, ownerId, status)
  {
    if |docs| == 0 then []
    else
      var rest := Matching(docs[1..], ownerId, status);
      assert forall i :: 1 <= i < |docs| ==> docs[i] == docs[1..][i - 1];
      if Matches(docs[0], ownerId, status) then [docs[0]] + rest else rest
  }

  /** `.skip(skip).limit(limit)`: a limit of 0 means no limit, a negative one
      its absolute value. */
  function Window(docs: seq<Doc>, skip: nat, limit: int): (r: seq<Doc>)
    ensures skip >= |docs| ==> r == []
    ensures skip < |docs| && limit == 0 ==> r == docs[skip..]
    ensures limit != 0 ==> |r| <= if limit > 0 then limit else -limit
  {
    if skip >= |docs| then []
    else
      var n := if limit >= 0 then limit else -limit;
      if n == 0 || skip + n >= |docs| then docs[skip..] else docs[skip..skip + n]
  }

  /** `adminListAbstracts(filters, { page, limit })` over the stored
      abstracts, newest first. A negative skip is refused by the database. */
  function AdminListAbstracts(docs: seq<Doc>, ownerId: JsValue, status: JsValue, page: int, limit: int): (r: Outcome<Listing>)
    ensures r.Ok? ==> forall d :: d in r.value.items ==> d in docs && Matches(d, ownerId, status)
    ensures r.Ok? ==> r.value.total == |Matching(docs, ownerId, status)| && r.value.page == page && r.value.limit == limit
    ensures Truthy(ownerId) && !IsObjectId(ToStr(ownerId)) ==> r == Err(Http(400, "Invalid ownerId"))
  {
    if Truthy(ownerId) && !IsObjectId(ToStr(ownerId)) then Err(Http(400, "Invalid ownerId"))
    else
      var matching := Matching(docs, ownerId, status);
      var skip := (page - 1) * limit;
      if skip < 0 then Err(Http(500, "Failed to fetch abstracts."))
      else
        var items := Window(matching, skip, limit);
        assert forall d :: d in items ==> d in matching;
        Ok(Listing(items, |matching|, page, limit))
  }

  /** Consecutive pages tile the filtered list: page p followed by page p+1
      is the window of twice the size starting at page p. */
  lemma PagesTile(docs: seq<Doc>, ownerId: JsValue, status: JsValue, page: int, limit: int)
    requires page >= 1 && limit > 0
    requires !(Truthy(ownerId) && !IsObjectId(ToStr(ownerId)))
    ensures AdminListAbstracts(docs, ownerId, status, page, limit).Ok?
    ensures AdminListAbstracts(docs, ownerId, status, page + 1, limit).Ok?
    ensures AdminListAbstracts(docs, ownerId, status, page, limit).value.items
              + AdminListAbstracts(docs, ownerId, status, page + 1, limit).value.items
            == Window(Matching(docs, ownerId, status), (page - 1) * limit, 2 * limit)
  {
    var skip := (page - 1) * limit;
    assert (page + 1 - 1) * limit == skip + limit;
    WindowsTile(Matching(docs, ownerId, status), skip, limit);
  }

  /** Two adjacent windows of one size make the window of twice the size. */
  lemma WindowsTile(m: seq<Doc>, skip: nat, limit: nat)
    requires limit > 0
    ensures Window(m, skip, limit) + Window(m, skip + limit, limit) == Window(m, skip, 2 * limit)
  {
    if skip + 2 * limit < |m| {
      assert m[skip..skip + limit] + m[skip + limit..skip + 2 * limit] == m[skip..skip + 2 * limit];
    } else if skip + limit < |m| {
      assert m[skip..skip + limit] + m[skip + limit..] == m[skip..];
    }
  }

  // ---------------------------------------------------------------- admin edit

  /** The catch block of `adminUpdateAbstract`: anything but an HttpError is a 500. */
  function AdminFailure(e: Error): (r: Error)
    ensures r.HttpError?
    ensures e.HttpError? ==> r == e
    ensures !e.HttpError? ==> r == Http(500, "Failed to update abstract.")
  {
    if e.HttpError? then e else Http(500, "Failed to update abstract.")
  }

  /** The keywords `adminUpdateAbstract` stores: the update's, else the stored ones, normalised. */
  function AdminKeywords(updates: Doc, merged: Doc): seq<string> {
    NormalizeKeywords(Coalesce(Field(updates, "keywords"), Field(merged, "keywords")))
  }

  /** The keywords and a parsed co-author block as document fields. */
  function WithCoAuthors(keywords: JsValue, block: CoAuthorBlock): (o: Doc)
    ensures o.Keys == {"keywords", "coAuthorsRaw", "coAuthors"} && o["keywords"] == keywords
  {
    map["keywords" := keywords, "coAuthorsRaw" := Str(block.coAuthorsRaw), "coAuthors" := CoAuthorList(block.coAuthors)]
  }

  /** The keys `adminUpdateAbstract` may write into its `updates` object. */
  const AdminOverrideKeys: set<string> := {"keywords", "coAuthorsRaw", "coAuthors"}

  /** What `adminUpdateAbstract` writes into its `updates` object: the
      normalised keywords, and the parsed co-authors when raw text is given. */
  function AdminOverrides(updates: Doc, merged: Doc): (o: Doc)
    ensures o.Keys <= AdminOverrideKeys
    ensures "keywords" in o && o["keywords"] == KeywordArray(AdminKeywords(updates, merged))
    ensures o.Keys == if Field(updates, "coAuthorsRaw") != Undefined then {"keywords", "coAuthorsRaw", "coAuthors"} else {"keywords"}
  {
    var keywords := KeywordArray(AdminKeywords(updates, merged));
    var raw := Field(updates, "coAuthorsRaw");
    if raw != Undefined then WithCoAuthors(keywords, CoAuthorsOf(raw))
    else map["keywords" := keywords]
  }

  /** The document `adminUpdateAbstract` writes: the updates spread over the
      stored abstract must pass the rules (declarations not required); the
      checks that follow repeat them; the database then applies the updates,
      with the overrides written into them, as an update document. An array
      of updates has no own keywords or co-author text, so it is checked as
      the empty update is, and the database runs its elements as an
      aggregation pipeline, which drops the keywords written onto the array.
      Setting a property of `null` throws, and so does reading the keywords'
      length once a property write to a primitive is ignored. */
  function AdminEdit(current: Doc, updates: JsValue, pipeline: Pipeline): (r: Outcome<Doc>)
  {
    var merged := current + Entries(updates);
    match ApplyBusinessValidation(Obj(merged), false)
    case Err(e) => Err(e)
    case Ok(_) =>
      if updates.Arr? then
        match AdminRecheck(current, map[], merged)
        case Err(e) => Err(e)
        case Ok(_) => pipeline(current, updates.items)
      else if !updates.Obj? then Err(ScriptError("TypeError", "Cannot read properties of undefined (reading 'length')"))
      else AdminRecheck(current, updates.fields, merged)
  }

  /** The checks `adminUpdateAbstract` makes after validation, and the
      document it then writes. */
  function AdminRecheck(current: Doc, updates: Doc, merged: Doc): (r: Outcome<Doc>)
  {
    if EnsureAtLeastOne(Field(merged, "preferredPresentationTypes"), TypesMessage).Err? then Err(Http(400, TypesMessage))
    else if EnsureAtLeastOne(Field(merged, "scientificCategories"), CategoriesMessage).Err? then Err(Http(400, CategoriesMessage))
    else if SelectsOther(Field(merged, "scientificCategories")) && !Truthy(Field(merged, "otherCategoryText")) then
      Err(Http(400, OtherMessage))
    else if WordCount(Field(merged, "abstractText")) > MaxWords then Err(Http(400, WordsMessage))
    else if |AdminKeywords(updates, merged)| > MaxKeywords then Err(Http(400, "Maximum 5 keywords allowed."))
    else Ok(ApplyUpdate(current, updates + AdminOverrides(updates, merged)))
  }

  /** `adminUpdateAbstract(id, updates)` */
  function AdminUpdateOutcome(t: Tables, id: string, updates: JsValue, verdict: Verdict, pipeline: Pipeline): (s: Step<Doc>)
    ensures s.result.Err? ==> s.result.error.HttpError? && s.tables == t
    ensures s.result.Ok? ==> id in t.abstracts && AdminEdit(t.abstracts[id], updates, pipeline) == s.result
    ensures s.result.Ok? ==> s.tables == t.(abstracts := t.abstracts[id := s.result.value])
  {
    if !IsObjectId(id) then Step(t, Err(Http(400, "Invalid abstract id.")))
    else if id !in t.abstracts then Step(t, Err(Http(404, "Abstract not found")))
    else
      match AdminEdit(t.abstracts[id], updates, pipeline)
      case Err(e) => Step(t, Err(AdminFailure(e)))
      case Ok(d) =>
        match verdict(d)
        case Some(e) => Step(t, Err(AdminFailure(e)))
        case None => Step(t.(abstracts := t.abstracts[id := d]), Ok(d))
  }

  /** The keywords the admin path stores are the ones validation accepted. */
  lemma AdminKeywordsValidated(current: Doc, updates: Doc)
    requires ApplyBusinessValidation(Obj(current + updates), false).Ok?
    ensures AdminKeywords(updates, current + updates) == ApplyBusinessValidation(Obj(current + updates), false).value
  {
    var merged := current + updates;
    if "keywords" in updates {
      assert Field(merged, "keywords") == updates["keywords"];
    } else {
      assert Field(updates, "keywords") == Undefined;
    }
  }

  /** Once the merged document passes the rules, the admin path's later
      checks can never fail: the edit goes through, and the only outcomes
      left are the database's. */
  lemma AdminRechecksRedundant(current: Doc, updates: Doc, pipeline: Pipeline)
    requires ApplyBusinessValidation(Obj(current + updates), false).Ok?
    ensures AdminEdit(current, Obj(updates), pipeline) == Ok(ApplyUpdate(current, updates + AdminOverrides(updates, current + updates)))
  {
    var merged := current + updates;
    assert Entries(Obj(updates)) == updates;
    AdminRecheckPasses(current, updates);
  }

  lemma AdminRecheckPasses(current: Doc, updates: Doc)
    requires ApplyBusinessValidation(Obj(current + updates), false).Ok?
    ensures AdminRecheck(current, updates, current + updates) == Ok(ApplyUpdate(current, updates + AdminOverrides(updates, current + updates)))
  {
    AcceptedContent(Obj(current + updates));
    AdminKeywordsValidated(current, updates);
  }

  /** An array of updates whose spread passes the rules passes the admin
      path's repeated checks. */
  lemma ArrayRecheckPasses(current: Doc, merged: Doc)
    requires ApplyBusinessValidation(Obj(merged), false).Ok?
    ensures AdminRecheck(current, map[], merged).Ok?
  {
    AcceptedContent(Obj(merged));
    assert merged + map[] == merged;
    AdminKeywordsValidated(merged, map[]);
  }

  /** An array of updates whose spread passes the rules is run as the
      database's pipeline. */
  lemma ArrayEditPasses(current: Doc, items: seq<JsValue>, pipeline: Pipeline)
    requires ApplyBusinessValidation(Obj(current + Entries(Arr(items))), false).Ok?
    ensures AdminEdit(current, Arr(items), pipeline) == pipeline(current, items)
  {
    ArrayRecheckPasses(current, current + Entries(Arr(items)));
  }

  /** What an accepted payload satisfies beyond its required fields. */
  lemma AcceptedContent(payload: JsValue)
    requires ApplyBusinessValidation(payload, false).Ok?
    ensures EnsureAtLeastOne(Get(payload, "preferredPresentationTypes"), TypesMessage).Ok?
    ensures EnsureAtLeastOne(Get(payload, "scientificCategories"), CategoriesMessage).Ok?
    ensures SelectsOther(Get(payload, "scientificCategories")) ==> Truthy(Get(payload, "otherCategoryText"))
    ensures WordCount(Get(payload, "abstractText")) <= MaxWords
    ensures 1 <= |ApplyBusinessValidation(payload, false).value| <= MaxKeywords
  {
    assert Acceptable(payload, false);
  }

  /** What a successful admin edit stores: every path the admin's update
      sets, as a plain key or under `$set` and status included, holds the
      given value, except the keywords and co-authors, which are normalised;
      every `$unset` path it does not also set is gone; and the stored
      keywords pass the rules. */
  lemma AdminEditStores(current: Doc, updates: Doc)
    requires ApplyBusinessValidation(Obj(current + updates), false).Ok?
    ensures var d := ApplyUpdate(current, updates + AdminOverrides(updates, current + updates));
            && (forall k :: k in SetPaths(updates) && k !in AdminOverrideKeys ==> k in d && d[k] == SetPaths(updates)[k])
            && (forall k :: k in UnsetPaths(updates) && k !in SetPaths(updates) && k !in AdminOverrideKeys ==> k !in d)
            && "keywords" in d && 1 <= |NormalizeKeywords(d["keywords"])| <= MaxKeywords
  {
    var merged := current + updates;
    OverlaidUpdate(current, updates, AdminOverrides(updates, merged));
    AdminKeywordsValidated(current, updates);
    KeywordsStable(Field(merged, "keywords"));
  }

  /** The database's update with override keys written into the admin's
      document: the overrides win, every other path behaves as the admin's
      document alone says. */
  lemma OverlaidUpdate(current: Doc, updates: Doc, o: Doc)
    requires o.Keys <= AdminOverrideKeys
    ensures var d := ApplyUpdate(current, updates + o);
            && (forall k :: k in SetPaths(updates) && k !in AdminOverrideKeys ==> k in d && d[k] == SetPaths(updates)[k])
            && (forall k :: k in UnsetPaths(updates) && k !in SetPaths(updates) && k !in AdminOverrideKeys ==> k !in d)
            && (forall k :: k in o ==> k in d && d[k] == o[k])
  {
    assert PlainKey("keywords") && PlainKey("coAuthorsRaw") && PlainKey("coAuthors");
    PlainOverlay(updates, o);
  }

  // ---------------------------------------------------------------- the database

  /** The abstracts collection and the mail transport, updated in place. */
  class AbstractStore {
    var abstracts: map<string, Doc>
    var outbox: seq<SubmittedMail>

    function Snapshot(): Tables
      reads this
    {
      Tables(abstracts, outbox)
    }

    constructor(t: Tables)
      ensures Snapshot() == t
    {
      abstracts := t.abstracts;
      outbox := t.outbox;
    }

    /** `doc.save()`, `create` or `findByIdAndUpdate` of one abstract. */
    method Save(id: string, d: Doc)
      modifies this
      ensures Snapshot() == old(Snapshot()).(abstracts := old(abstracts)[id := d])
    {
      abstracts := abstracts[id := d];
    }

    /** Hand a mail to the transport. */
    method Send(m: SubmittedMail)
      modifies this
      ensures Snapshot() == old(Snapshot()).(outbox := old(outbox) + [m])
    {
      outbox := outbox + [m];
    }
  }

  /** `createAbstract` */
  method CreateAbstract(db: AbstractStore, profiles: map<string, ProfileRef>, user: JsValue, payload: JsValue, files: seq<Upload>,
                        newId: string, now: int, verdict: Verdict, mailError: SubmittedMail -> Option<Error>)
    returns (r: Outcome<Doc>)
    modifies db
    ensures Step(db.Snapshot(), r) == CreateOutcome(old(db.Snapshot()), profiles, user, payload, files, newId, now, verdict, mailError)
  {
    var checked := Submission(profiles, user, payload, files, newId, now);
    if checked.Err? {
      return Err(CatchFailure(checked.error, "Invalid abstract data.", "Failed to create abstract."));
    }
    var (doc, mail) := checked.value;
    r := SaveAndNotify(db, newId, doc, mail, now, verdict, mailError);
    if r.Err? {
      r := Err(CatchFailure(r.error, "Invalid abstract data.", "Failed to create abstract."));
    }
  }

  /** The writes of `createAbstract`: the created document is saved, then,
      while it records no mail, the mail goes out and the document is saved
      again with the time set on it. */
  method SaveAndNotify(db: AbstractStore, newId: string, doc: Doc, mail: SubmittedMail, now: int,
                       verdict: Verdict, mailError: SubmittedMail -> Option<Error>) returns (r: Outcome<Doc>)
    modifies db
    ensures Step(db.Snapshot(), r) == StoreAndMail(old(db.Snapshot()), newId, doc, mail, now, verdict, mailError)
  {
    if newId in db.abstracts {
      return Err(DuplicateKey(Obj(map["_id" := Str(newId)])));
    }
    var failure := verdict(doc);
    if failure.Some? {
      return Err(failure.value);
    }
    db.Save(newId, doc);
    var d := doc;
    if !Truthy(Field(d, "submissionEmailSentAt")) {
      var sendFailure := mailError(mail);
      if sendFailure.Some? {
        return Err(sendFailure.value);
      }
      db.Send(mail);
      d := d["submissionEmailSentAt" := Num(now as real)];
      failure := verdict(d);
      if failure.Some? {
        return Err(failure.value);
      }
      db.Save(newId, d);
    }
    return Ok(d);
  }

  /** `updateMyAbstract` */
  method UpdateMyAbstract(db: AbstractStore, user: JsValue, id: string, updates: JsValue, verdict: Verdict)
    returns (r: Outcome<Doc>)
    modifies db
    ensures Step(db.Snapshot(), r) == UpdateOutcome(old(db.Snapshot()), user, id, updates, verdict)
  {
    var auth := EnsureAuthUser(user);
    if auth.Err? {
      return Err(CatchFailure(auth.error, "Invalid update data.", "Failed to update abstract."));
    }
    if !IsObjectId(id) {
      return Err(Http(400, "Invalid abstract id."));
    }
    if id !in db.abstracts || !OwnedBy(db.abstracts[id], user) {
      return Err(Http(404, "Abstract not found"));
    }
    var edited := PrepareAuthorEdit(db.abstracts[id], updates);
    if edited.Err? {
      return Err(CatchFailure(edited.error, "Invalid update data.", "Failed to update abstract."));
    }
    var failure := verdict(edited.value);
    if failure.Some? {
      return Err(CatchFailure(failure.value, "Invalid update data.", "Failed to update abstract."));
    }
    db.Save(id, edited.value);
    return Ok(edited.value);
  }

  /** The body of `updateMyAbstract` up to the write: the sanitizer's loop,
      then the keywords and the parsed co-authors written into the
      sanitized updates, which are spread with the status "updated". */
  method PrepareAuthorEdit(current: Doc, updates: JsValue) returns (r: Outcome<Doc>)
    ensures r == AuthorEdit(current, updates)
  {
    var safe := SanitizeUserAbstractUpdates(updates);
    var merged := current + safe;
    var checked := ApplyBusinessValidation(Obj(merged), false);
    if checked.Err? {
      return Err(checked.error);
    }
    ghost var sanitized := safe;
    var block := CoAuthorsOf(Coalesce(Field(safe, "coAuthorsRaw"), Coalesce(Field(merged, "coAuthorsRaw"), Str(""))));
    safe := safe["keywords" := KeywordArray(checked.value)];
    safe := safe["coAuthorsRaw" := Str(block.coAuthorsRaw)];
    safe := safe["coAuthors" := CoAuthorList(block.coAuthors)];
    AuthorWrites(sanitized, merged, checked.value, safe);
    return Ok(ApplyUpdate(current, safe + map["status" := Str("updated")]));
  }

  /** The property writes of `updateMyAbstract`, spread with the status, are
      the overrides laid over the sanitized updates. */
  lemma AuthorWrites(safe: Doc, merged: Doc, keywords: seq<string>, written: Doc)
    requires var block := CoAuthorsOf(Coalesce(Field(safe, "coAuthorsRaw"), Coalesce(Field(merged, "coAuthorsRaw"), Str(""))));
             written == safe["keywords" := KeywordArray(keywords)]["coAuthorsRaw" := Str(block.coAuthorsRaw)]
                            ["coAuthors" := CoAuthorList(block.coAuthors)]
    ensures written + map["status" := Str("updated")] == safe + AuthorOverrides(safe, merged, keywords)
  {
    var block := CoAuthorsOf(Coalesce(Field(safe, "coAuthorsRaw"), Coalesce(Field(merged, "coAuthorsRaw"), Str(""))));
    var three := map["keywords" := KeywordArray(keywords), "coAuthorsRaw" := Str(block.coAuthorsRaw),
                     "coAuthors" := CoAuthorList(block.coAuthors)];
    MapWrites3(safe, "keywords", KeywordArray(keywords), "coAuthorsRaw", Str(block.coAuthorsRaw),
               "coAuthors", CoAuthorList(block.coAuthors));
    assert three + map["status" := Str("updated")] == AuthorOverrides(safe, merged, keywords);
    UnionAssociates(safe, three, map["status" := Str("updated")]);
  }

  /** `addAttachments`: the new attachments are pushed onto the stored
      document's list, which is then saved. */
  method AddAttachments(db: AbstractStore, user: JsValue, id: string, files: seq<Upload>, now: int, verdict: Verdict)
    returns (r: Outcome<Doc>)
    modifies db
    ensures Step(db.Snapshot(), r) == AddOutcome(old(db.Snapshot()), user, id, files, now, verdict)
  {
    var auth := EnsureAuthUser(user);
    if auth.Err? {
      return Err(auth.error);
    }
    if !IsObjectId(id) {
      return Err(Http(400, "Invalid abstract id."));
    }
    if id !in db.abstracts || !OwnedBy(db.abstracts[id], user) {
      return Err(Http(404, "Abstract not found"));
    }
    var doc := db.abstracts[id];
    var attachments := Field(doc, "attachments");
    if !attachments.Arr? {
      return Err(Http(500, "Failed to add attachments."));
    }
    doc := doc["attachments" := Arr(attachments.items + NewAttachments(files, now))];
    var failure := verdict(doc);
    if failure.Some? {
      return Err(if failure.value.HttpError? then failure.value else Http(500, "Failed to add attachments."));
    }
    db.Save(id, doc);
    return Ok(doc);
  }

  /** `removeAttachment`: the stored document's list is replaced by the
      filtered one, which is then saved. */
  method RemoveAttachment(db: AbstractStore, user: JsValue, id: string, attachmentId: string, verdict: Verdict)
    returns (r: Outcome<Doc>)
    modifies db
    ensures Step(db.Snapshot(), r) == RemoveOutcome(old(db.Snapshot()), user, id, attachmentId, verdict)
  {
    var auth := EnsureAuthUser(user);
    if auth.Err? {
      return Err(auth.error);
    }
    if !IsObjectId(id) {
      return Err(Http(400, "Invalid abstract id."));
    }
    if !IsObjectId(attachmentId) {
      return Err(Http(400, "Invalid attachment id."));
    }
    if id !in db.abstracts || !OwnedBy(db.abstracts[id], user) {
      return Err(Http(404, "Abstract not found"));
    }
    var doc := db.abstracts[id];
    var attachments := Field(doc, "attachments");
    if !attachments.Arr? {
      return Err(Http(500, "Failed to remove attachment."));
    }
    var before := |attachments.items|;
    doc := doc["attachments" := Arr(Without(attachments.items, attachmentId))];
    if |Field(doc, "attachments").items| == before {
      return Err(Http(404, "Attachment not found"));
    }
    var failure := verdict(doc);
    if failure.Some? {
      return Err(if failure.value.HttpError? then failure.value else Http(500, "Failed to remove attachment."));
    }
    db.Save(id, doc);
    return Ok(doc);
  }

  /** `adminUpdateAbstract` */
  method AdminUpdateAbstract(db: AbstractStore, id: string, updates: JsValue, verdict: Verdict, pipeline: Pipeline)
    returns (r: Outcome<Doc>)
    modifies db
    ensures Step(db.Snapshot(), r) == AdminUpdateOutcome(old(db.Snapshot()), id, updates, verdict, pipeline)
  {
    if !IsObjectId(id) {
      return Err(Http(400, "Invalid abstract id."));
    }
    if id !in db.abstracts {
      return Err(Http(404, "Abstract not found"));
    }
    var edited := PrepareAdminEdit(db.abstracts[id], updates, pipeline);
    if edited.Err? {
      return Err(AdminFailure(edited.error));
    }
    var failure := verdict(edited.value);
    if failure.Some? {
      return Err(AdminFailure(failure.value));
    }
    db.Save(id, edited.value);
    return Ok(edited.value);
  }

  /** The body of `adminUpdateAbstract` up to the write: the keywords and the
      parsed co-authors are written into the caller's `updates` before the
      checks that repeat the rules; an array of updates goes to the database
      as a pipeline. */
  method PrepareAdminEdit(current: Doc, updates: JsValue, pipeline: Pipeline) returns (r: Outcome<Doc>)
    ensures r == AdminEdit(current, updates, pipeline)
  {
    var merged := current + Entries(updates);
    var checked := ApplyBusinessValidation(Obj(merged), false);
    if checked.Err? {
      return Err(checked.error);
    }
    if updates.Arr? {
      r := RecheckAdminEdit(current, map[], merged);
      if r.Ok? {
        r := pipeline(current, updates.items);
      }
      return;
    }
    if !updates.Obj? {
      return Err(ScriptError("TypeError", "Cannot read properties of undefined (reading 'length')"));
    }
    r := RecheckAdminEdit(current, updates.fields, merged);
  }

  /** The property writes into `updates`, then the repeated checks. */
  method RecheckAdminEdit(current: Doc, updates: Doc, merged: Doc) returns (r: Outcome<Doc>)
    ensures r == AdminRecheck(current, updates, merged)
  {
    var keywords := AdminKeywords(updates, merged);
    var up := updates;
    up := up["keywords" := KeywordArray(keywords)];
    if Field(up, "coAuthorsRaw") != Undefined {
      var block := CoAuthorsOf(Field(up, "coAuthorsRaw"));
      up := up["coAuthorsRaw" := Str(block.coAuthorsRaw)];
      up := up["coAuthors" := CoAuthorList(block.coAuthors)];
    }
    AdminWrites(updates, merged, up);
    if EnsureAtLeastOne(Field(merged, "preferredPresentationTypes"), TypesMessage).Err? {
      return Err(Http(400, TypesMessage));
    }
    if EnsureAtLeastOne(Field(merged, "scientificCategories"), CategoriesMessage).Err? {
      return Err(Http(400, CategoriesMessage));
    }
    if SelectsOther(Field(merged, "scientificCategories")) && !Truthy(Field(merged, "otherCategoryText")) {
      return Err(Http(400, OtherMessage));
    }
    if WordCount(Field(merged, "abstractText")) > MaxWords {
      return Err(Http(400, WordsMessage));
    }
    if |keywords| > MaxKeywords {
      return Err(Http(400, "Maximum 5 keywords allowed."));
    }
    return Ok(ApplyUpdate(current, up));
  }

  /** The property writes of `adminUpdateAbstract` are the overrides laid over the updates. */
  lemma AdminWrites(updates: Doc, merged: Doc, up: Doc)
    requires var withKeywords := updates["keywords" := KeywordArray(AdminKeywords(updates, merged))];
             var block := CoAuthorsOf(Field(withKeywords, "coAuthorsRaw"));
             up == if Field(withKeywords, "coAuthorsRaw") != Undefined
                   then withKeywords["coAuthorsRaw" := Str(block.coAuthorsRaw)]["coAuthors" := CoAuthorList(block.coAuthors)]
                   else withKeywords
    ensures up == updates + AdminOverrides(updates, merged)
  {
    var kw := KeywordArray(AdminKeywords(updates, merged));
    var withKeywords := updates["keywords" := kw];
    assert Field(withKeywords, "coAuthorsRaw") == Field(updates, "coAuthorsRaw");
    var o := AdminOverrides(updates, merged);
    if Field(updates, "coAuthorsRaw") != Undefined {
      var block := CoAuthorsOf(Field(updates, "coAuthorsRaw"));
      assert o == map["keywords" := kw, "coAuthorsRaw" := Str(block.coAuthorsRaw), "coAuthors" := CoAuthorList(block.coAuthors)];
      MapWrites3(updates, "keywords", kw, "coAuthorsRaw", Str(block.coAuthorsRaw), "coAuthors", CoAuthorList(block.coAuthors));
    } else {
      assert o == map["keywords" := kw];
    }
  }

  /** Spreading two objects in turn is spreading their union. */
  lemma UnionAssociates(a: Doc, b: Doc, c: Doc)
    ensures a + (b + c) == a + b + c
  {
  }

  /** Three property writes in a row are the union with the map of them. */
  lemma MapWrites3(m: Doc, k1: string, v1: JsValue, k2: string, v2: JsValue, k3: string, v3: JsValue)
    ensures m[k1 := v1][k2 := v2][k3 := v3] == m + map[k1 := v1, k2 := v2, k3 := v3]
  {
  }
}
