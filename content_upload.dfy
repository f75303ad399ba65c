/** The checks and the text analysis of the content upload service: the
    file-format whitelist, the minimum-length checks, HTML tag removal, the
    insights computed over uploaded text and the chunk estimate. Reading
    and writing files, PDF/DOCX extraction and the knowledge-base insert are
    parameters. */
module ContentUpload {
  import opened Wrappers
  import opened Text
  import opened Models

  /** `supported_formats`. */
  function SupportedFormats(): seq<string>
  {
    [".pdf", ".txt", ".md", ".docx", ".html"]
  }

  /** Index of the last occurrence of `c`. */
  function LastIndexOf(s: string, c: char): (r: Option<nat>)
    ensures r.Some? ==> r.value < |s| && s[r.value] == c && forall k :: r.value < k < |s| ==> s[k] != c
    ensures r.None? ==> forall k :: 0 <= k < |s| ==> s[k] != c
  {
    if s == [] then None
    else if s[|s| - 1] == c then Some(|s| - 1)
    else LastIndexOf(s[..|s| - 1], c)
  }

  /** The path without its trailing slashes, which a path object drops. */
  function TrimSlashes(path: string): (r: string)
    ensures |r| <= |path| && r == path[..|r|]
    ensures forall k :: |r| <= k < |path| ==> path[k] == '/'
    ensures r != [] ==> r[|r| - 1] != '/'
  {
    if path != [] && path[|path| - 1] == '/' then TrimSlashes(path[..|path| - 1]) else path
  }

  /** `PurePath(path).name`: the last component of a `/`-separated path,
      trailing slashes ignored. */
  function BaseName(path: string): (r: string)
    ensures '/' !in r
    ensures var t := TrimSlashes(path);
      && |r| <= |t| && r == t[|t| - |r|..]
      && (|r| < |t| ==> t[|t| - |r| - 1] == '/')
  {
    var t := TrimSlashes(path);
    match LastIndexOf(t, '/')
    case None => t
    case Some(i) =>
      var r := t[i + 1..];
      assert forall k :: 0 <= k < |r| ==> r[k] == t[i + 1 + k];
      r
  }

  /** A trailing slash does not hide the file name or its suffix. */
  lemma TrailingSlashSuffix()
    ensures BaseName("notes.txt/") == "notes.txt"
    ensures Suffix("notes.txt/") == ".txt"
  {
    var p, n := "notes.txt/", "notes.txt";
    assert p[..|p| - 1] == n;
    assert TrimSlashes(p) == n;
    assert forall k :: 0 <= k < |n| ==> n[k] != '/';
    assert LastIndexOf(n, '/').None?;
    assert n[5] == '.' && forall k :: 5 < k < |n| ==> n[k] != '.';
    assert LastIndexOf(n, '.') == Some(5);
    assert n[5..] == ".txt";
  }

  /** `Path(name).suffix`: from the last `.` of the base name, when that dot
      is neither its first nor its last character; otherwise empty. */
  function Suffix(path: string): (r: string)
    ensures r != [] ==> r[0] == '.' && 2 <= |r| < |BaseName(path)| && r == BaseName(path)[|BaseName(path)| - |r|..]
    ensures r != [] ==> forall k :: 1 <= k < |r| ==> r[k] != '.'
  {
    var name := BaseName(path);
    match LastIndexOf(name, '.')
    case None => []
    case Some(i) => if 0 < i < |name| - 1 then name[i..] else []
  }

  /** The accepted formats as the error message lists them. */
  lemma FormatsJoined(f: seq<string>)
    requires f == SupportedFormats()
    ensures Join(f, ", ") == ".pdf, .txt, .md, .docx, .html"
  {
    var p1: seq<string> := [".pdf"];
    var p2 := p1 + [".txt"];
    var p3 := p2 + [".md"];
    var p4 := p3 + [".docx"];
    assert p4 + [".html"] == f;
    JoinAppend(p1, ".txt", ", ");
    var j2 := Join(p2, ", ");
    assert j2 == ".pdf, .txt";
    JoinAppend(p2, ".md", ", ");
    var j3 := Join(p3, ", ");
    assert j3 == j2 + ", .md";
    JoinAppend(p3, ".docx", ", ");
    var j4 := Join(p4, ", ");
    assert j4 == j3 + ", .docx";
    JoinAppend(p4, ".html", ", ");
    assert Join(f, ", ") == j4 + ", .html";
  }

  /** The format check of `upload_and_process_file`: the lower-cased
      suffix, or the error message listing the accepted formats. */
  function CheckFormat(filename: string): (r: Result<string, string>)
    ensures r.Ok? <==> Lower(Suffix(filename)) in SupportedFormats()
    ensures r.Ok? ==> r.value == Lower(Suffix(filename))
    ensures r.Err? ==> r.error == "Unsupported file format: " + Lower(Suffix(filename)) + ". Supported: " + Join(SupportedFormats(), ", ")
  {
    var ext := Lower(Suffix(filename));
    if ext in SupportedFormats() then Ok(ext)
    else Err("Unsupported file format: " + ext + ". Supported: " + Join(SupportedFormats(), ", "))
  }

  // ---------------------------------------------------------------------
  // HTML tag removal: re.sub(r'<[^>]+>', '', content)
  // ---------------------------------------------------------------------

  /** Length of the tag `<…>` at the start of `s` (one or more characters
      other than `>` between the brackets), if there is one. */
  function TagLength(s: string): (n: Option<nat>)
    requires s != [] && s[0] == '<'
    ensures n.Some? ==> 3 <= n.value <= |s| && s[n.value - 1] == '>' && forall k :: 0 < k < n.value - 1 ==> s[k] != '>'
    ensures n.None? ==> (forall k :: 0 < k < |s| ==> s[k] != '>') || (|s| > 1 && s[1] == '>')
  {
    match IndexOf(s[1..], '>')
    case None => None
    case Some(k) => if k >= 1 then Some(k + 2) else None
  }

  /** No tag starts anywhere in `s`. */
  predicate TagFree(s: string)
  {
    forall i :: 0 <= i < |s| && s[i] == '<' ==> TagLength(s[i..]).None?
  }

  /** Deletes, left to right, every tag the pattern matches; all other
      characters stay, in order. */
  function StripTags(s: string): (r: string)
    ensures |r| <= |s|
    ensures forall c :: c in r ==> c in s
    ensures s != [] && s[0] != '<' ==> r != [] && r[0] == s[0]
    decreases |s|
  {
    if s == [] then []
    else if s[0] == '<' && TagLength(s).Some? then
      var r := StripTags(s[TagLength(s).value..]);
      assert forall c :: c in s[TagLength(s).value..] ==> c in s;
      r
    else
      var r := [s[0]] + StripTags(s[1..]);
      assert forall c :: c in s[1..] ==> c in s;
      r
  }

  lemma TagFreeTail(s: string)
    requires s != [] && TagFree(s)
    ensures TagFree(s[1..])
  {
    forall i | 0 <= i < |s[1..]| && s[1..][i] == '<' ensures TagLength(s[1..][i..]).None? {
      assert s[1..][i..] == s[i + 1..];
    }
  }

  /** What is left after tag removal holds no tag. */
  lemma {:induction false} StripTagsTagFree(s: string)
    ensures TagFree(StripTags(s))
    decreases |s|
  {
    if s == [] {
    } else if s[0] == '<' && TagLength(s).Some? {
      StripTagsTagFree(s[TagLength(s).value..]);
    } else {
      var rest := StripTags(s[1..]);
      StripTagsTagFree(s[1..]);
      var r := [s[0]] + rest;
      forall i | 0 <= i < |r| && r[i] == '<' ensures TagLength(r[i..]).None? {
        if i > 0 {
          assert r[i..] == rest[i - 1..];
        } else if forall k :: 0 < k < |s| ==> s[k] != '>' {
          assert '>' !in s[1..];
          assert '>' !in rest;
          assert r[1..] == rest;
        } else {
          assert s[1] == '>';
          assert rest[0] == '>';
          assert r[1..] == rest;
        }
      }
    }
  }

  /** Text that holds no tag comes back unchanged. */
  lemma {:induction false} TagFreeUnchanged(s: string)
    requires TagFree(s)
    ensures StripTags(s) == s
    decreases |s|
  {
    if s != [] {
      TagFreeTail(s);
      TagFreeUnchanged(s[1..]);
      assert s == [s[0]] + s[1..];
    }
  }

  /** Removing tags twice removes no more than once. */
  lemma StripTagsIdempotent(s: string)
    ensures StripTags(StripTags(s)) == StripTags(s)
  {
    StripTagsTagFree(s);
    TagFreeUnchanged(StripTags(s));
  }

  // ---------------------------------------------------------------------
  // Insights
  // ---------------------------------------------------------------------

  /** The fourteen medical terms looked for, in their order. */
  function MedicalTerms(): seq<string>
  {
    ["patient", "diagnosis", "treatment", "symptoms", "medication",
     "cardiac", "respiratory", "neurological", "gastrointestinal",
     "hypertension", "diabetes", "cancer", "infection", "surgery"]
  }

  /** The terms, in their order, that occur in `text`. */
  function TermsIn(terms: seq<string>, text: string): (r: seq<string>)
    ensures |r| <= |terms|
    ensures forall t :: t in r <==> t in terms && Contains(text, t)
    decreases |terms|
  {
    if terms == [] then []
    else
      var r := TermsIn(terms[..|terms| - 1], text);
      assert forall t :: t in terms <==> t in terms[..|terms| - 1] || t == terms[|terms| - 1];
      var last := terms[|terms| - 1];
      if Contains(text, last) then r + [last] else r
  }

  /** `r` can be obtained from `s` by deleting elements: the elements of
      `r` occur in `s` in the same order. */
  predicate Subsequence(r: seq<string>, s: seq<string>)
    decreases |s|
  {
    if r == [] then true
    else if s == [] then false
    else if r[0] == s[0] then Subsequence(r[1..], s[1..])
    else Subsequence(r, s[1..])
  }

  /** Appending to the longer sequence keeps a subsequence. */
  lemma {:induction false} SubsequenceExtend(r: seq<string>, s: seq<string>, x: string)
    requires Subsequence(r, s)
    ensures Subsequence(r, s + [x])
    decreases |s|
  {
    if r != [] {
      assert (s + [x])[1..] == s[1..] + [x];
      if r[0] == s[0] {
        SubsequenceExtend(r[1..], s[1..], x);
      } else {
        SubsequenceExtend(r, s[1..], x);
      }
    }
  }

  /** Appending the same element to both keeps a subsequence. */
  lemma {:induction false} SubsequenceSnoc(r: seq<string>, s: seq<string>, x: string)
    requires Subsequence(r, s)
    ensures Subsequence(r + [x], s + [x])
    decreases |s|
  {
    if s != [] {
      assert (s + [x])[1..] == s[1..] + [x];
      if r != [] {
        assert (r + [x])[1..] == r[1..] + [x];
      }
      if r != [] && r[0] == s[0] {
        SubsequenceSnoc(r[1..], s[1..], x);
      } else {
        SubsequenceSnoc(r, s[1..], x);
      }
    }
  }

  /** The terms found keep the order of the list. */
  lemma {:induction false} TermsInOrdered(terms: seq<string>, text: string)
    ensures Subsequence(TermsIn(terms, text), terms)
    decreases |terms|
  {
    if terms != [] {
      var init := terms[..|terms| - 1];
      var last := terms[|terms| - 1];
      var r := TermsIn(init, text);
      TermsInOrdered(init, text);
      assert init + [last] == terms;
      if Contains(text, last) {
        SubsequenceSnoc(r, init, last);
      } else {
        SubsequenceExtend(r, init, last);
      }
    }
  }

  /** A list without repeats gives found terms without repeats. */
  lemma {:induction false} TermsInDistinct(terms: seq<string>, text: string)
    requires Distinct(terms)
    ensures Distinct(TermsIn(terms, text))
    decreases |terms|
  {
    if terms != [] {
      var init := terms[..|terms| - 1];
      var last := terms[|terms| - 1];
      TermsInDistinct(init, text);
      if Contains(text, last) {
        assert last !in init;
        assert TermsIn(terms, text) == TermsIn(init, text) + [last];
      }
    }
  }

  /** No element occurs twice. */
  predicate Distinct(s: seq<string>)
  {
    forall i, j :: 0 <= i < j < |s| ==> s[i] != s[j]
  }

  /** The topics named by the keywords, in fixed order. */
  function TopicsIn(text: string): (r: seq<string>)
    ensures "cardiology" in r <==> Contains(text, "cardiac") || Contains(text, "heart")
    ensures "pulmonology" in r <==> Contains(text, "respiratory") || Contains(text, "lung")
    ensures "neurology" in r <==> Contains(text, "neurological") || Contains(text, "brain")
    ensures |r| <= 3 && forall i :: 0 <= i < |r| ==> r[i] in ["cardiology", "pulmonology", "neurology"]
    ensures forall i, j :: 0 <= i < j < |r| ==> TopicRank(r[i]) < TopicRank(r[j])
  {
    (if Contains(text, "cardiac") || Contains(text, "heart") then ["cardiology"] else [])
    + (if Contains(text, "respiratory") || Contains(text, "lung") then ["pulmonology"] else [])
    + (if Contains(text, "neurological") || Contains(text, "brain") then ["neurology"] else [])
  }

  function TopicRank(t: string): nat
  {
    if t == "cardiology" then 0 else if t == "pulmonology" then 1 else 2
  }

  /** The four quality factors, in order. */
  function QualityFactors(content: string, terms: seq<string>, topics: seq<string>): seq<bool>
  {
    var lower := Lower(content);
    [|content| > 500, |terms| > 3, |topics| > 0, Contains(lower, "conclusion") || Contains(lower, "summary")]
  }

  function CountTrue(bs: seq<bool>): (n: nat)
    ensures n <= |bs|
  {
    if bs == [] then 0 else (if bs[0] then 1 else 0) + CountTrue(bs[1..])
  }

  /** All true exactly when the count is the length; none when it is 0. */
  lemma {:induction false} CountTrueBounds(bs: seq<bool>)
    ensures CountTrue(bs) == |bs| ==> forall i :: 0 <= i < |bs| ==> bs[i]
    ensures CountTrue(bs) == 0 ==> forall i :: 0 <= i < |bs| ==> !bs[i]
    decreases |bs|
  {
    if bs != [] {
      CountTrueBounds(bs[1..]);
      assert forall i :: 1 <= i < |bs| ==> bs[i] == bs[1..][i - 1];
    }
  }

  /** What `_extract_content_insights` returns; the quality score
      `sum(factors) / 4` is kept as its numerator, in quarters. */
  datatype Insights = Insights(
    wordCount: nat, characterCount: nat, medicalTermsFound: seq<string>,
    keyTopics: seq<string>, qualityQuarters: nat)

  function InsightsOf(content: string): (r: Insights)
    ensures r.qualityQuarters <= 4
    ensures r.characterCount == |content|
  {
    var lower := Lower(content);
    var terms := TermsIn(MedicalTerms(), lower);
    var topics := TopicsIn(lower);
    var q := CountTrue(QualityFactors(content, terms, topics));
    assert |QualityFactors(content, terms, topics)| == 4;
    Insights(WordCount(content), |content|, terms, topics, q)
  }

  /** The term loop of `_extract_content_insights`: each term, in order,
      is appended when the text contains it. */
  method ScanTerms(terms: seq<string>, lower: string) returns (found: seq<string>)
    ensures found == TermsIn(terms, lower)
  {
    found := [];
    var i := 0;
    while i < |terms|
      invariant 0 <= i <= |terms|
      invariant found == TermsIn(terms[..i], lower)
    {
      assert terms[..i + 1][..i] == terms[..i];
      if Contains(lower, terms[i]) {
        found := found + [terms[i]];
      }
      i := i + 1;
    }
    assert terms[..|terms|] == terms;
  }

  /** The three topic checks of `_extract_content_insights`, in order. */
  method ScanTopics(lower: string) returns (topics: seq<string>)
    ensures topics == TopicsIn(lower)
  {
    topics := [];
    if Contains(lower, "cardiac") || Contains(lower, "heart") {
      topics := topics + ["cardiology"];
    }
    if Contains(lower, "respiratory") || Contains(lower, "lung") {
      topics := topics + ["pulmonology"];
    }
    if Contains(lower, "neurological") || Contains(lower, "brain") {
      topics := topics + ["neurology"];
    }
  }

  /** `_extract_content_insights`: the term scan, then the topic checks,
      then the score. */
  method ExtractInsights(content: string) returns (ins: Insights)
    ensures ins == InsightsOf(content)
  {
    var lower := Lower(content);
    var found := ScanTerms(MedicalTerms(), lower);
    var topics := ScanTopics(lower);
    ins := Insights(WordCount(content), |content|, found, topics,
                    CountTrue(QualityFactors(content, found, topics)));
  }

  /** The reported terms are exactly the listed terms the lower-cased text
      contains, and the score is a whole number of quarters, full only when
      all four factors hold. */
  lemma InsightsMeaning(content: string)
    ensures forall t :: t in InsightsOf(content).medicalTermsFound <==> t in MedicalTerms() && Contains(Lower(content), t)
    ensures InsightsOf(content).qualityQuarters == 4 ==>
      && |content| > 500 && |InsightsOf(content).medicalTermsFound| > 3 && InsightsOf(content).keyTopics != []
      && (Contains(Lower(content), "conclusion") || Contains(Lower(content), "summary"))
    ensures InsightsOf(content).qualityQuarters == 0 ==>
      && |content| <= 500 && |InsightsOf(content).medicalTermsFound| <= 3 && InsightsOf(content).keyTopics == []
      && !(Contains(Lower(content), "conclusion") || Contains(Lower(content), "summary"))
  {
    var ins := InsightsOf(content);
    var fs := QualityFactors(content, ins.medicalTermsFound, ins.keyTopics);
    CountTrueBounds(fs);
    assert fs[0] == (|content| > 500) && fs[1] == (|ins.medicalTermsFound| > 3) && fs[2] == (|ins.keyTopics| > 0);
    assert fs[3] == (Contains(Lower(content), "conclusion") || Contains(Lower(content), "summary"));
  }

  /** The reported terms follow the fourteen terms' order, each once. */
  lemma InsightsTermsOrdered(content: string)
    ensures Distinct(InsightsOf(content).medicalTermsFound)
    ensures Subsequence(InsightsOf(content).medicalTermsFound, MedicalTerms())
  {
    MedicalTermsDistinct();
    TermsInOrdered(MedicalTerms(), Lower(content));
    TermsInDistinct(MedicalTerms(), Lower(content));
  }

  /** The fourteen terms are all different. */
  lemma MedicalTermsDistinct()
    ensures Distinct(MedicalTerms())
  {
  }

  /** `len(content) // 1000 + 1`: one chunk per started thousand characters,
      plus one when the length is a multiple of a thousand. */
  function ContentChunks(content: string): (n: nat)
    ensures n >= 1 && (n - 1) * 1000 <= |content| < n * 1000
  {
    |content| / 1000 + 1
  }

  // ---------------------------------------------------------------------
  // Upload handlers
  // ---------------------------------------------------------------------

  /** The caller's metadata; absent keys take the defaults. */
  datatype MetadataInput = MetadataInput(
    contentType: Option<string>, category: Option<string>,
    tags: Option<seq<string>>, uploader: Option<string>)

  datatype DocMetadata = DocMetadata(
    source: string, contentType: string, category: string, tags: seq<string>,
    uploader: string, processingMethod: string)

  datatype Processing =
    | Learned(insights: Insights, contentChunks: nat, metadata: DocMetadata)
    | NotLearned(error: string)

  /** `_process_content_for_learning`; `stored` is whether the knowledge
      base accepted the document. */
  function ProcessForLearning(content: string, source: string, meta: MetadataInput, stored: bool): (r: Processing)
    ensures r.Learned? <==> stored
    ensures r.Learned? ==>
      && r.insights == InsightsOf(content) && r.contentChunks == ContentChunks(content)
      && r.metadata.source == source && r.metadata.processingMethod == "content_upload"
      && r.metadata.contentType == (if meta.contentType.Some? then meta.contentType.value else "uploaded_content")
      && r.metadata.category == (if meta.category.Some? then meta.category.value else "general")
      && r.metadata.tags == (if meta.tags.Some? then meta.tags.value else [])
      && r.metadata.uploader == (if meta.uploader.Some? then meta.uploader.value else "system")
    ensures r.NotLearned? ==> r.error == "Failed to add content to knowledge base"
  {
    var md := DocMetadata(source, meta.contentType.GetOr("uploaded_content"), meta.category.GetOr("general"),
                          meta.tags.GetOr([]), meta.uploader.GetOr("system"), "content_upload");
    if stored then Learned(InsightsOf(content), ContentChunks(content), md)
    else NotLearned("Failed to add content to knowledge base")
  }

  datatype TextUpload =
    | TextUploaded(title: string, contentLength: nat, processing: Processing)
    | TextRejected(error: string, title: string)

  /** `upload_text_content`: content whose stripped length is under 50 is
      refused with a result, not an exception. */
  function UploadText(content: string, title: string, meta: MetadataInput, stored: bool): (r: TextUpload)
    ensures r.TextRejected? <==> |Strip(content)| < 50
    ensures r.TextRejected? ==> r == TextRejected("Content is too short for meaningful processing", title)
    ensures r.TextUploaded? ==> r.title == title && r.contentLength == |content| && r.processing == ProcessForLearning(content, title, meta, stored)
  {
    if content == [] || |Strip(content)| < 50 then TextRejected("Content is too short for meaningful processing", title)
    else TextUploaded(title, |content|, ProcessForLearning(content, title, meta, stored))
  }

  datatype FileUpload =
    | FileUploaded(filename: string, fileSize: nat, contentLength: nat, processing: Processing)
    | FileRejected(error: string, filename: string)

  /** The text an accepted file yields: tags removed for HTML, the
      extracted text otherwise. */
  function ExtractedText(ext: string, raw: string): string
  {
    if ext == ".html" then StripTags(raw) else raw
  }

  /** `upload_and_process_file`: the format check, then the write of the
      temporary copy (`written` is its outcome: the error text of a failed
      `open`, such as for a name with a directory part that does not exist
      under the upload directory), then extraction (`raw` is the file's text
      or the extractor's error), then the length check on the stripped
      text. */
  function UploadFile(fileSize: nat, filename: string, written: Result<(), string>, raw: Result<string, string>,
                      meta: MetadataInput, stored: bool): (r: FileUpload)
    ensures r.filename == filename
    ensures CheckFormat(filename).Err? ==> r == FileRejected(CheckFormat(filename).error, filename)
    ensures CheckFormat(filename).Ok? && written.Err? ==> r == FileRejected(written.error, filename)
    ensures CheckFormat(filename).Ok? && written.Ok? && raw.Err? ==>
      r == FileRejected("Error extracting text from " + CheckFormat(filename).value + " file: " + raw.error, filename)
    ensures (CheckFormat(filename).Ok? && written.Ok? && raw.Ok?
             && |Strip(ExtractedText(CheckFormat(filename).value, raw.value))| < 100) ==>
      r == FileRejected("File contains insufficient text content for processing", filename)
    ensures r.FileUploaded? <==>
      && CheckFormat(filename).Ok? && written.Ok? && raw.Ok?
      && |Strip(ExtractedText(CheckFormat(filename).value, raw.value))| >= 100
    ensures r.FileUploaded? ==>
      var text := ExtractedText(CheckFormat(filename).value, raw.value);
      r.contentLength == |text| && r.fileSize == fileSize && r.processing == ProcessForLearning(text, filename, meta, stored)
    ensures r.FileUploaded? && CheckFormat(filename).value == ".html" ==>
      TagFree(ExtractedText(CheckFormat(filename).value, raw.value))
  {
    match CheckFormat(filename)
    case Err(msg) => FileRejected(msg, filename)
    case Ok(ext) =>
      if written.Err? then FileRejected(written.error, filename)
      else
        match raw
        case Err(msg) => FileRejected("Error extracting text from " + ext + " file: " + msg, filename)
        case Ok(t) =>
          var text := ExtractedText(ext, t);
          if text == [] || |Strip(text)| < 100 then
            FileRejected("File contains insufficient text content for processing", filename)
          else
            StripTagsTagFree(t);
            FileUploaded(filename, fileSize, |text|, ProcessForLearning(text, filename, meta, stored))
  }
}
