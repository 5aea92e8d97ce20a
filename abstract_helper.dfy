/**
 * Validators and parsers for abstract submissions: the word count of the
 * abstract text, keyword normalisation, the co-author block, the declaration
 * check, the update sanitizer, the response shape and the edit lock.
 */
module AbstractHelper {
  import opened Wrappers
  import opened Strings
  import opened Js
  import opened Common
  import opened Objects

  // ---------------------------------------------------------------- words

  /** Split at every whitespace character (the pieces between consecutive
      whitespace characters; empty pieces where whitespace repeats). */
  function SplitAtSpaces(s: string): (parts: seq<string>)
    ensures |parts| >= 1
    ensures forall i, j :: 0 <= i < |parts| && 0 <= j < |parts[i]| ==> !IsSpace(parts[i][j])
  {
    if |s| == 0 then [""]
    else
      var rest := SplitAtSpaces(s[1..]);
      if IsSpace(s[0]) then [""] + rest else [[s[0]] + rest[0]] + rest[1..]
  }

  /** `t.split(/\s+/).filter(Boolean)`: the maximal runs of non-whitespace
      characters. Splitting at every whitespace character and dropping the
      empty pieces gives the same runs as splitting at whole runs. */
  function Words(t: string): (words: seq<string>)
    ensures forall i :: 0 <= i < |words| ==> words[i] != ""
    ensures forall i, j :: 0 <= i < |words| && 0 <= j < |words[i]| ==> !IsSpace(words[i][j])
  {
    var parts := SplitAtSpaces(t);
    var words := NonEmpty(parts);
    forall i, j | 0 <= i < |words| && 0 <= j < |words[i]|
      ensures !IsSpace(words[i][j])
    {
      assert words[i] in parts;
    }
    words
  }

  /** The text `wordCount` counts in: an omitted argument is "". */
  function CountedText(text: JsValue): string {
    if text.Undefined? then "" else ToStr(text)
  }

  /** `wordCount(text)` */
  function WordCount(text: JsValue): nat {
    |Words(Trim(CountedText(text)))|
  }

  function Concat(parts: seq<string>): string {
    if |parts| == 0 then "" else parts[0] + Concat(parts[1..])
  }

  /** The characters of `s` that are not whitespace, in order. */
  function NonSpace(s: string): (r: string)
    ensures forall i :: 0 <= i < |r| ==> !IsSpace(r[i])
  {
    if |s| == 0 then ""
    else if IsSpace(s[0]) then NonSpace(s[1..])
    else [s[0]] + NonSpace(s[1..])
  }

  lemma {:induction false} NonSpaceAppend(a: string, b: string)
    ensures NonSpace(a + b) == NonSpace(a) + NonSpace(b)
  {
    if |a| == 0 {
      assert a + b == b;
    } else {
      assert (a + b)[0] == a[0];
      assert (a + b)[1..] == a[1..] + b;
      NonSpaceAppend(a[1..], b);
    }
  }

  lemma {:induction false} NonSpaceOfBlank(s: string)
    ensures NonSpace(s) == "" <==> AllSpace(s)
  {
    if |s| > 0 {
      NonSpaceOfBlank(s[1..]);
      if AllSpace(s) {
        assert AllSpace(s[1..]);
      }
      if AllSpace(s[1..]) && IsSpace(s[0]) {
        assert forall i :: 1 <= i < |s| ==> s[i] == s[1..][i - 1];
      }
    }
  }

  lemma NonSpaceSlices(s: string, a: nat, b: nat)
    requires a <= b <= |s|
    ensures NonSpace(s) == NonSpace(s[..a]) + NonSpace(s[a..b]) + NonSpace(s[b..])
  {
    SlicesJoin(s, a, b);
    NonSpaceAppend(s[..b], s[b..]);
    NonSpaceAppend(s[..a], s[a..b]);
  }

  lemma SlicesJoin(s: string, a: nat, b: nat)
    requires a <= b <= |s|
    ensures s[..a] + s[a..b] == s[..b] && s[..b] + s[b..] == s
  {
  }

  /** Trimming removes whitespace only. */
  lemma NonSpaceTrim(s: string)
    ensures NonSpace(Trim(s)) == NonSpace(s)
  {
    TrimIsSlice(s);
    var a, b :| 0 <= a <= b <= |s| && Trim(s) == s[a..b] && AllSpace(s[..a]) && AllSpace(s[b..]);
    NonSpaceSlices(s, a, b);
    NonSpaceOfBlank(s[..a]);
    NonSpaceOfBlank(s[b..]);
  }

  lemma {:induction false} ConcatNonEmpty(parts: seq<string>)
    ensures Concat(NonEmpty(parts)) == Concat(parts)
  {
    if |parts| > 0 {
      ConcatNonEmpty(parts[1..]);
      if parts[0] != "" {
        assert ([parts[0]] + NonEmpty(parts[1..]))[1..] == NonEmpty(parts[1..]);
      }
    }
  }

  lemma {:induction false} ConcatSplitAtSpaces(s: string)
    ensures Concat(SplitAtSpaces(s)) == NonSpace(s)
  {
    if |s| > 0 {
      var rest := SplitAtSpaces(s[1..]);
      ConcatSplitAtSpaces(s[1..]);
      if IsSpace(s[0]) {
        assert ([""] + rest)[1..] == rest;
      } else {
        var parts := [[s[0]] + rest[0]] + rest[1..];
        assert parts[1..] == rest[1..];
        assert Concat(rest) == rest[0] + Concat(rest[1..]);
      }
    }
  }

  /** The length of the run of non-whitespace characters that starts `s`. */
  function RunLength(s: string): (n: nat)
    ensures n <= |s|
    ensures forall i :: 0 <= i < n ==> !IsSpace(s[i])
    ensures n < |s| ==> IsSpace(s[n])
  {
    if |s| == 0 || IsSpace(s[0]) then 0 else 1 + RunLength(s[1..])
  }

  /** The maximal runs of non-whitespace characters of `s`, left to right:
      skip whitespace, take a whole run, repeat. */
  function Runs(s: string): seq<string>
    decreases |s|
  {
    if |s| == 0 then []
    else if IsSpace(s[0]) then Runs(s[1..])
    else
      var n := RunLength(s);
      [s[..n]] + Runs(s[n..])
  }

  /** Splitting a text that starts with a run gives that run, then the
      pieces after the whitespace character that ends it. */
  lemma {:induction false} SplitOfRun(s: string)
    requires |s| > 0 && !IsSpace(s[0])
    ensures var n := RunLength(s);
            SplitAtSpaces(s) == [s[..n]] + (if n == |s| then [] else SplitAtSpaces(s[n + 1..]))
    decreases |s|
  {
    var n := RunLength(s);
    var rest := SplitAtSpaces(s[1..]);
    assert SplitAtSpaces(s) == [[s[0]] + rest[0]] + rest[1..];
    if |s| == 1 {
      assert s[1..] == "";
      assert rest == [""];
      assert n == 1;
      assert [s[0]] + rest[0] == s[..n];
      assert rest[1..] == [];
    } else if IsSpace(s[1]) {
      assert n == 1;
      assert s[1..][1..] == s[2..];
      assert rest == [""] + SplitAtSpaces(s[2..]);
      assert [s[0]] + rest[0] == s[..1];
      assert rest[1..] == SplitAtSpaces(s[2..]);
    } else {
      SplitOfRun(s[1..]);
      assert RunLength(s[1..]) == n - 1;
      assert [s[0]] + s[1..][..n - 1] == s[..n];
      if n < |s| {
        assert s[1..][n..] == s[n + 1..];
      }
    }
  }

  /** The words are exactly the maximal runs of non-whitespace characters. */
  lemma {:induction false} WordsAreRuns(t: string)
    ensures Words(t) == Runs(t)
    decreases |t|
  {
    if |t| > 0 {
      if IsSpace(t[0]) {
        WordsAreRuns(t[1..]);
      } else {
        var n := RunLength(t);
        SplitOfRun(t);
        if n < |t| {
          WordsAreRuns(t[n + 1..]);
          assert t[n..][1..] == t[n + 1..];
        }
        var parts := SplitAtSpaces(t);
        assert parts[1..] == (if n == |t| then [] else SplitAtSpaces(t[n + 1..]));
      }
    }
  }

  /** The words, read one after another, spell exactly the non-whitespace
      characters of the text, and they are its maximal runs; so the count is
      0 iff the text is blank. */
  lemma WordsSpellText(text: JsValue)
    ensures Words(Trim(CountedText(text))) == Runs(Trim(CountedText(text)))
    ensures Concat(Words(Trim(CountedText(text)))) == NonSpace(CountedText(text))
    ensures WordCount(text) == 0 <==> AllSpace(CountedText(text))
  {
    var s := CountedText(text);
    WordsAreRuns(Trim(s));
    ConcatNonEmpty(SplitAtSpaces(Trim(s)));
    ConcatSplitAtSpaces(Trim(s));
    NonSpaceTrim(s);
    NonSpaceOfBlank(s);
    var words := Words(Trim(s));
    if |words| > 0 {
      assert Concat(words) == words[0] + Concat(words[1..]);
    }
  }

  // ---------------------------------------------------------------- keywords

  /** `normalizeKeywords(input)`: an array's elements as trimmed strings, a
      string's comma-separated entries trimmed, blanks dropped; anything else
      has no keywords. */
  function NormalizeKeywords(input: JsValue): (keywords: seq<string>)
    ensures forall i :: 0 <= i < |keywords| ==> keywords[i] != "" && Trim(keywords[i]) == keywords[i]
    ensures input.Str? ==> keywords == Pieces(input.s, ',')
    ensures !input.Arr? && !input.Str? ==> keywords == []
  {
    match input
    case Arr(items) =>
      var texts := seq(|items|, i requires 0 <= i < |items| => Trim(ToStr(items[i])));
      var keywords := NonEmpty(texts);
      forall i | 0 <= i < |keywords|
        ensures Trim(keywords[i]) == keywords[i]
      {
        assert keywords[i] in texts;
        var j :| 0 <= j < |items| && texts[j] == keywords[i];
        TrimIdempotent(ToStr(items[j]));
      }
      keywords
    case Str(s) => Pieces(s, ',')
    case _ => []
  }

  /** The keywords as the database stores them: an array of strings. */
  function KeywordArray(keywords: seq<string>): (v: JsValue)
    ensures v.Arr? && |v.items| == |keywords|
  {
    Arr(seq(|keywords|, i requires 0 <= i < |keywords| => Str(keywords[i])))
  }

  /** An array element is a keyword iff it is not blank once trimmed. */
  lemma KeywordsOfArray(items: seq<JsValue>, k: string)
    ensures k in NormalizeKeywords(Arr(items)) <==> k != "" && exists i :: 0 <= i < |items| && Trim(ToStr(items[i])) == k
  {
    var texts := seq(|items|, i requires 0 <= i < |items| => Trim(ToStr(items[i])));
    if k != "" && exists i :: 0 <= i < |items| && Trim(ToStr(items[i])) == k {
      var i :| 0 <= i < |items| && Trim(ToStr(items[i])) == k;
      assert texts[i] == k;
    }
  }

  /** Normalising is stable: stored keywords, normalised again (as every later
      edit does), are unchanged, and so is their comma-joined form. */
  lemma KeywordsStable(input: JsValue)
    ensures NormalizeKeywords(KeywordArray(NormalizeKeywords(input))) == NormalizeKeywords(input)
    ensures input.Str? ==> NormalizeKeywords(Str(Join(NormalizeKeywords(input), ","))) == NormalizeKeywords(input)
  {
    var keywords := NormalizeKeywords(input);
    var items := KeywordArray(keywords).items;
    var texts := seq(|items|, i requires 0 <= i < |items| => Trim(ToStr(items[i])));
    assert texts == keywords;
    NonEmptyFixed(keywords);
    if input.Str? {
      PiecesOfJoin(keywords, ',');
    }
  }

  // ---------------------------------------------------------------- co-authors

  /** The field separator of a co-author line (an en dash). */
  const FieldDash: char := '\U{2013}'

  /** One parsed co-author line. */
  datatype CoAuthor = CoAuthor(fullName: string, institution: string, country: string, email: string, rawLine: string)

  /** `{ coAuthorsRaw, coAuthors }` */
  datatype CoAuthorBlock = CoAuthorBlock(coAuthorsRaw: string, coAuthors: seq<CoAuthor>)

  /** The text `parseCoAuthors` reads: an omitted argument is "". */
  function BlockText(raw: JsValue): string {
    if raw.Undefined? then "" else ToStr(raw)
  }

  /** `s.split(/\r?\n/)`: split at line feeds, and drop the carriage return
      that precedes a line feed. */
  function SplitLines(s: string): (lines: seq<string>)
    ensures |lines| == |Split(s, '\n')| >= 1
    ensures forall i :: 0 <= i < |lines| ==> '\n' !in lines[i]
  {
    var parts := Split(s, '\n');
    SplitPiecesAvoidSeparator(s, '\n');
    seq(|parts|, i requires 0 <= i < |parts| =>
      var p := parts[i];
      if i < |parts| - 1 && |p| > 0 && p[|p| - 1] == '\r' then p[..|p| - 1] else p)
  }

  /** The co-author lines: trimmed, blank ones dropped. */
  function CoAuthorLines(raw: JsValue): (lines: seq<string>)
    ensures |lines| <= |SplitLines(BlockText(raw))|
  {
    NonEmpty(TrimAll(SplitLines(BlockText(raw))))
  }

  /** Every co-author line is non-blank, already trimmed and a single line. */
  lemma CoAuthorLinesClean(raw: JsValue)
    ensures var lines := CoAuthorLines(raw);
            forall i :: 0 <= i < |lines| ==> lines[i] != "" && Trim(lines[i]) == lines[i] && '\n' !in lines[i]
  {
    var split := SplitLines(BlockText(raw));
    var lines := CoAuthorLines(raw);
    TrimAllAt(split);
    forall i | 0 <= i < |lines|
      ensures Trim(lines[i]) == lines[i] && '\n' !in lines[i]
    {
      assert lines[i] in TrimAll(split);
      var j :| 0 <= j < |split| && TrimAll(split)[j] == lines[i];
      TrimIdempotent(split[j]);
      TrimKeepsAbsence(split[j], '\n');
    }
  }

  /** `parts[k] || ""` */
  function Part(parts: seq<string>, k: nat): string {
    if k < |parts| then parts[k] else ""
  }

  /** One line `Full Name – Institution – Country – Email`: the trimmed
      dash-separated fields, missing ones "", the email lower-cased. */
  function CoAuthorOf(line: string): (c: CoAuthor)
    ensures c.rawLine == line
    ensures FieldDash !in c.fullName
    ensures c.email == Lower(c.email)
  {
    SplitPiecesAvoidSeparator(line, FieldDash);
    TrimAllAt(Split(line, FieldDash));
    TrimKeepsAbsence(Split(line, FieldDash)[0], FieldDash);
    LowerIdempotent(FieldOf(line, 3));
    CoAuthor(FieldOf(line, 0), FieldOf(line, 1), FieldOf(line, 2), Lower(FieldOf(line, 3)), line)
  }

  /** The `k`-th dash-separated field of a line, trimmed; "" when missing. */
  function FieldOf(line: string, k: nat): string {
    Part(TrimAll(Split(line, FieldDash)), k)
  }

  /** The co-authors of the cleaned lines, one per line, in order. */
  function CoAuthorsOfLines(lines: seq<string>): (r: seq<CoAuthor>)
    ensures |r| == |lines|
  {
    ParseEach(CoAuthorOf, lines)
  }

  /** `parse` applied to each line, in order. */
  function ParseEach(parse: string -> CoAuthor, lines: seq<string>): (r: seq<CoAuthor>)
    ensures |r| == |lines|
  {
    if |lines| == 0 then [] else ParseEach(parse, lines[..|lines| - 1]) + [parse(lines[|lines| - 1])]
  }

  /** What `parseCoAuthors(raw)` returns: one co-author per non-blank line,
      and the cleaned lines joined by line feeds. */
  function CoAuthorsOf(raw: JsValue): (b: CoAuthorBlock)
    ensures |b.coAuthors| == |CoAuthorLines(raw)|
  {
    var lines := CoAuthorLines(raw);
    CoAuthorBlock(Join(lines, "\n"), CoAuthorsOfLines(lines))
  }

  /** `parseCoAuthors(raw)`: the loop over the cleaned lines. */
  method ParseCoAuthors(raw: JsValue) returns (b: CoAuthorBlock)
    ensures b == CoAuthorsOf(raw)
  {
    var lines := CoAuthorLines(raw);
    var result := ParseLines(lines);
    b := CoAuthorBlock(Join(lines, "\n"), result);
  }

  /** The loop body of `parseCoAuthors`: one co-author per line, in order. */
  method ParseLines(lines: seq<string>) returns (result: seq<CoAuthor>)
    ensures result == CoAuthorsOfLines(lines)
  {
    result := [];
    for k := 0 to |lines|
      invariant result == ParseEach(CoAuthorOf, lines[..k])
    {
      assert lines[..k + 1][..k] == lines[..k];
      result := result + [CoAuthorOf(lines[k])];
    }
    assert lines[..|lines|] == lines;
  }

  /** The raw lines a list of co-authors keeps, in order. */
  function RawLinesOf(cs: seq<CoAuthor>): (lines: seq<string>)
    ensures |lines| == |cs|
    ensures forall i :: 0 <= i < |cs| ==> lines[i] == cs[i].rawLine
  {
    seq(|cs|, i requires 0 <= i < |cs| => cs[i].rawLine)
  }

  /** Parsing keeps each line as its co-author's raw line. */
  lemma RawLinesOfParsed(lines: seq<string>)
    ensures RawLinesOf(CoAuthorsOfLines(lines)) == lines
  {
    RawLinesOfEach(CoAuthorOf, lines);
  }

  lemma {:induction false} RawLinesOfEach(parse: string -> CoAuthor, lines: seq<string>)
    requires forall line :: parse(line).rawLine == line
    ensures RawLinesOf(ParseEach(parse, lines)) == lines
  {
    if |lines| > 0 {
      var init := lines[..|lines| - 1];
      RawLinesOfEach(parse, init);
      assert lines == init + [lines[|lines| - 1]];
      RawLinesSnoc(ParseEach(parse, init), parse(lines[|lines| - 1]));
    }
  }

  lemma RawLinesSnoc(cs: seq<CoAuthor>, c: CoAuthor)
    ensures RawLinesOf(cs + [c]) == RawLinesOf(cs) + [c.rawLine]
  {
    assert forall i :: 0 <= i < |cs| ==> (cs + [c])[i] == cs[i];
  }

  /** The raw block is the co-authors' own lines, in order, one per line. */
  lemma BlockListsRawLines(raw: JsValue)
    ensures var b := CoAuthorsOf(raw);
            b.coAuthorsRaw == Join(RawLinesOf(b.coAuthors), "\n")
  {
    RawLinesOfParsed(CoAuthorLines(raw));
  }

  /** A trimmed non-empty line does not end in a carriage return, so line
      splitting leaves the pieces of such lines as they are. */
  lemma SplitLinesKeepsTrimmed(s: string)
    requires forall i :: 0 <= i < |Split(s, '\n')| ==> Split(s, '\n')[i] != "" && Trim(Split(s, '\n')[i]) == Split(s, '\n')[i]
    ensures SplitLines(s) == Split(s, '\n')
  {
    var parts := Split(s, '\n');
    forall i | 0 <= i < |parts|
      ensures SplitLines(s)[i] == parts[i]
    {
      var p := parts[i];
      assert !IsSpace(p[|p| - 1]);
    }
  }

  /** Splitting lines joined by line feeds gives them back. */
  lemma SplitLinesOfJoin(lines: seq<string>)
    requires forall i :: 0 <= i < |lines| ==> lines[i] != "" && Trim(lines[i]) == lines[i] && '\n' !in lines[i]
    ensures NonEmpty(TrimAll(SplitLines(Join(lines, "\n")))) == lines
  {
    if |lines| == 0 {
      NoLinesOfEmpty();
    } else {
      SplitJoin(lines, '\n');
      SplitLinesKeepsTrimmed(Join(lines, "\n"));
      TrimAllFixed(lines);
      NonEmptyFixed(lines);
    }
  }

  lemma NoLinesOfEmpty()
    ensures NonEmpty(TrimAll(SplitLines(""))) == []
  {
    assert Split("", '\n') == [""];
    assert SplitLines("") == [""];
    assert TrimAll([""]) == [""];
  }

  /** Parsing the stored raw block again gives the same block: the stored
      text and the co-authors are a fixed point of the parser. */
  lemma ReparseCoAuthors(raw: JsValue)
    ensures CoAuthorsOf(Str(CoAuthorsOf(raw).coAuthorsRaw)) == CoAuthorsOf(raw)
  {
    var lines := CoAuthorLines(raw);
    var text := Join(lines, "\n");
    assert CoAuthorsOf(raw).coAuthorsRaw == text;
    CoAuthorLinesClean(raw);
    LinesOfText(text);
    SplitLinesOfJoin(lines);
    assert CoAuthorLines(Str(text)) == lines;
  }

  lemma LinesOfText(text: string)
    ensures CoAuthorLines(Str(text)) == NonEmpty(TrimAll(SplitLines(text)))
  {
    assert BlockText(Str(text)) == text;
  }

  // ---------------------------------------------------------------- checks

  /** `ensureAtLeastOne(arr, msg)` */
  function EnsureAtLeastOne(arr: JsValue, msg: string): (r: Outcome<()>)
    ensures r.Ok? <==> arr.Arr? && |arr.items| >= 1
    ensures r.Err? ==> r.error == Http(400, msg)
  {
    if arr.Arr? && |arr.items| >= 1 then Ok(()) else Err(Http(400, msg))
  }

  const DeclarationsMessage: string := "All declarations must be accepted to submit."

  /** `validateDeclarations(decls)`: every declaration must be the boolean
      `true`; an omitted argument is `{}`; reading a flag of `null` throws. */
  function ValidateDeclarations(decls: JsValue): (r: Outcome<()>)
    ensures r.Ok? <==>
              && Get(decls, "originalWork") == Bool(true)
              && Get(decls, "authorsApproved") == Bool(true)
              && Get(decls, "agreeProceedings") == Bool(true)
    ensures r.Err? && !decls.Null? ==> r.error == Http(400, DeclarationsMessage)
    ensures decls.Null? ==> r.Err? && r.error.ScriptError? && r.error.name == "TypeError"
  {
    if decls.Null? then
      Err(ScriptError("TypeError", "Cannot read properties of null (reading 'originalWork')"))
    else if Get(decls, "originalWork") == Bool(true) && Get(decls, "authorsApproved") == Bool(true)
            && Get(decls, "agreeProceedings") == Bool(true) then
      Ok(())
    else
      Err(Http(400, DeclarationsMessage))
  }

  /** Keys an author may not change on their own abstract. */
  const AbstractDenied: set<string> := {
    "owner", "presentingAuthorProfile", "attachments", "declarations", "status", "_id", "__v", "createdAt", "updatedAt"}

  /** `sanitizeUserAbstractUpdates(updates)`: a falsy argument is `{}`. Only
      the listed keys are dropped, so an update operator such as `$set`
      passes (`Objects.DenyListMissesOperators`). */
  method SanitizeUserAbstractUpdates(updates: JsValue) returns (safe: map<string, JsValue>)
    ensures !Truthy(updates) ==> safe == map[]
    ensures Truthy(updates) ==> safe == Allowed(Entries(updates), AbstractDenied)
  {
    var source := if Truthy(updates) then updates else Obj(map[]);
    safe := CopyAllowed(Entries(source), AbstractDenied);
  }

  // ---------------------------------------------------------------- response shape

  /** `buildAttachmentUrl(req, storedName)` */
  function AttachmentUrl(protocol: string, host: string, storedName: JsValue): string {
    protocol + "://" + host + "/uploads/abstracts/" + ToStr(storedName)
  }

  /** One attachment as the client sees it: its metadata and a download link,
      never the stored file name. */
  function AttachmentView(a: JsValue, protocol: string, host: string): (r: Outcome<JsValue>)
    ensures r.Ok? <==> !IsNullish(a)
    ensures r.Ok? ==> Get(r.value, "url") == Str(AttachmentUrl(protocol, host, Get(a, "storedName")))
    ensures r.Ok? ==> Get(r.value, "storedName") == Undefined
    ensures r.Ok? ==> Get(r.value, "originalName") == Get(a, "originalName")
  {
    if IsNullish(a) then Err(ScriptError("TypeError", "Cannot read properties of " + ToStr(a) + " (reading '_id')"))
    else
      Ok(Obj(map[
        "_id" := Get(a, "_id"), "originalName" := Get(a, "originalName"), "mimeType" := Get(a, "mimeType"),
        "size" := Get(a, "size"), "uploadedAt" := Get(a, "uploadedAt"),
        "url" := Str(AttachmentUrl(protocol, host, Get(a, "storedName")))]))
  }

  /** `attachments.map(...)`: the first attachment that cannot be read stops the map. */
  function AttachmentViews(items: seq<JsValue>, protocol: string, host: string): (r: Outcome<seq<JsValue>>)
    ensures r.Ok? <==> forall i :: 0 <= i < |items| ==> !IsNullish(items[i])
    ensures r.Ok? ==> |r.value| == |items|
    ensures r.Ok? ==> forall i :: 0 <= i < |items| ==> Ok(r.value[i]) == AttachmentView(items[i], protocol, host)
  {
    if |items| == 0 then Ok([])
    else
      match AttachmentView(items[0], protocol, host)
      case Err(e) => Err(e)
      case Ok(view) =>
        match AttachmentViews(items[1..], protocol, host)
        case Err(e) => Err(e)
        case Ok(rest) =>
          assert forall i :: 1 <= i < |items| ==> items[i] == items[1..][i - 1];
          Ok([view] + rest)
  }

  /** The plain fields an abstract's response carries. */
  const DtoFields: set<string> := {
    "_id", "owner", "presentingAuthorProfile", "presentingAuthorName", "correspondingAuthorName",
    "correspondingAuthorEmail", "abstractTitle", "preferredPresentationTypes", "scientificCategories",
    "otherCategoryText", "abstractText", "keywords", "coAuthorsRaw", "coAuthors", "status",
    "createdAt", "updatedAt"}

  /** The response shape's own keys are not the declarations. */
  lemma DeclarationsNotAField()
    ensures "declarations" !in DtoFields && "attachments" !in DtoFields
  {
  }

  /** `toAbstractDTO(doc, req, { includeDeclarations })` on the document's
      plain object: the listed fields, the attachments as links (missing
      attachments: none; a non-array: `.map` throws), and the declarations
      only when asked for. */
  function ToAbstractDto(obj: JsValue, protocol: string, host: string, includeDeclarations: bool): (r: Outcome<map<string, JsValue>>)
    ensures r.Ok? ==> ("declarations" in r.value <==> includeDeclarations)
    ensures r.Ok? ==> forall k :: k in DtoFields ==> k in r.value && r.value[k] == Get(obj, k)
    ensures r.Ok? ==> forall k :: k in r.value ==> k in DtoFields || k == "attachments" || k == "declarations"
    ensures r.Ok? ==> "attachments" in r.value && r.value["attachments"].Arr?
  {
    var source := Or(Get(obj, "attachments"), Arr([]));
    if !source.Arr? then Err(ScriptError("TypeError", "(obj.attachments || []).map is not a function"))
    else
      match AttachmentViews(source.items, protocol, host)
      case Err(e) => Err(e)
      case Ok(views) =>
        DeclarationsNotAField();
        var dto := (map k | k in DtoFields :: Get(obj, k))["attachments" := Arr(views)];
        Ok(if includeDeclarations then dto["declarations" := Get(obj, "declarations")] else dto)
  }

  // ---------------------------------------------------------------- edit lock

  const LockedStatuses: set<string> := {"under-review", "approved", "rejected"}

  /** The status `assertUserCanModify` looks at: lower-cased, "" when missing. */
  function EditStatus(doc: JsValue): string {
    Lower(ToStr(Or(Get(doc, "status"), Str(""))))
  }

  function LockedMessage(status: string): string {
    "This abstract is " + status + " and can no longer be modified. You can only view it."
  }

  /** `assertUserCanModify(doc)`: only a submitted abstract may be edited. The
      locked-status branch is subsumed by the general one: both refuse with
      the same message. */
  function AssertUserCanModify(doc: JsValue): (r: Outcome<()>)
    ensures r.Ok? <==> EditStatus(doc) == "submitted"
    ensures r.Err? ==> r.error == Http(409, LockedMessage(if EditStatus(doc) == "" then "not editable" else EditStatus(doc)))
  {
    var status := EditStatus(doc);
    if status != "" && status != "submitted" && status in LockedStatuses then Err(Http(409, LockedMessage(status)))
    else if status != "submitted" then Err(Http(409, LockedMessage(if status == "" then "not editable" else status)))
    else Ok(())
  }
}
