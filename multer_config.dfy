/**
 * The upload middleware's configuration (server/multer-config.ts): the
 * mimetype allowlist, the size limit and the stored file's name.
 */
module MulterConfig {
  import opened Wrappers
  import opened Text

  const PdfType: string := "application/pdf"
  const DocxType: string := "application/vnd.openxmlformats-officedocument.wordprocessingml.document"
  const TextType: string := "text/plain"

  const AllowedTypes: seq<string> := [PdfType, DocxType, TextType]

  const InvalidFileTypeMessage: string := "Invalid file type. Only PDF, DOCX, and TXT files are allowed."

  /** `limits.fileSize`: 10 MB. */
  const MaxFileSize: nat := 10 * 1024 * 1024

  lemma MaxFileSizeInBytes()
    ensures MaxFileSize == 10485760
  {
  }

  datatype FilterDecision = Accept | Reject(message: string)

  /** `fileFilter`: accept exactly the allowlisted mimetypes. */
  function FileFilter(mimetype: string): (d: FilterDecision)
    ensures d == Accept <==> mimetype == PdfType || mimetype == DocxType || mimetype == TextType
    ensures d != Accept ==> d == Reject(InvalidFileTypeMessage)
  {
    if mimetype in AllowedTypes then Accept else Reject(InvalidFileTypeMessage)
  }

  /** The last segment of a path: everything after its last `/`, or all of it when it has none. */
  function BaseName(path: string): (r: string)
    ensures '/' !in r
    ensures |r| <= |path| && path[|path| - |r|..] == r
  {
    match LastIndexOf(path, '/')
    case None => path
    case Some(i) => path[i + 1..]
  }

  /** The last segment is the whole path, or what follows a `/`. */
  lemma BaseNameAfterSlash(path: string)
    ensures var b := BaseName(path); b == path || (|b| < |path| && path[|path| - |b| - 1] == '/')
  {
    match LastIndexOf(path, '/')
    case None =>
    case Some(i) =>
      assert BaseName(path) == path[i + 1..];
  }

  /**
   * `path.extname`: the last segment from its last `.` to its end; empty
   * when that segment has no `.`, has its only `.` in front, or is `..`.
   */
  function ExtName(path: string): (r: string)
    ensures r != "" <==> HasExtension(BaseName(path))
    ensures r != "" ==> r[0] == '.' && '.' !in r[1..] && '/' !in r
    ensures r != "" ==> |r| < |BaseName(path)| && BaseName(path)[|BaseName(path)| - |r|..] == r
  {
    SegmentExtension(BaseName(path))
  }

  /** A segment has an extension when it has a `.` that is neither its only, leading one nor part of `..`. */
  predicate HasExtension(base: string) {
    '.' in base && base != ".." && !(base[0] == '.' && '.' !in base[1..])
  }

  /** The extension of one path segment (a name without `/`). */
  function SegmentExtension(base: string): (r: string)
    ensures r != "" <==> HasExtension(base)
    ensures r != "" ==> |r| < |base| && r[0] == '.' && '.' !in r[1..]
    ensures |r| <= |base| && base[|base| - |r|..] == r
    ensures '/' !in base ==> '/' !in r
  {
    match LastIndexOf(base, '.')
    case None => ""
    case Some(i) =>
      if i == 0 then
        assert base[0] == '.' && '.' !in base[1..];
        ""
      else if base == ".." then ""
      else
        assert base[i..][1..] == base[i + 1..];
        assert base[1..][i - 1] == '.';
        base[i..]
  }

  /** A suffix of a suffix of `s` is a suffix of `s`. */
  lemma SuffixOfSuffix(s: string, t: string, u: string)
    requires |t| <= |s| && s[|s| - |t|..] == t
    requires |u| <= |t| && t[|t| - |u|..] == u
    ensures s[|s| - |u|..] == u
  {
    assert s[|s| - |u|..] == s[|s| - |t|..][|t| - |u|..];
  }

  lemma ConcatAssoc(a: string, b: string, c: string)
    ensures a + b + c == a + (b + c)
  {
  }

  /** Two suffixes of `s` that start with the only `.` they contain are the same. */
  lemma DotSuffixUnique(s: string, r: string, e: string)
    requires |r| <= |s| && s[|s| - |r|..] == r && r != [] && r[0] == '.' && '.' !in r[1..]
    requires |e| <= |s| && s[|s| - |e|..] == e && e != [] && e[0] == '.' && '.' !in e[1..]
    ensures r == e
  {
  }

  /** The last segment of a path keeps every `/`-free suffix of it. */
  lemma BaseNameKeepsSuffix(s: string, t: string)
    requires |t| <= |s| && s[|s| - |t|..] == t && '/' !in t
    ensures |t| <= |BaseName(s)| && BaseName(s)[|BaseName(s)| - |t|..] == t
  {
    var b := BaseName(s);
    BaseNameAfterSlash(s);
    SuffixOfSuffix(s, b, b[|b| - |t|..]);
  }

  /** The `filename` callback: `fieldname-<unique suffix><extension of the original name>`. */
  function StoredFilename(fieldname: string, uniqueSuffix: string, originalname: string): string
  {
    fieldname + "-" + uniqueSuffix + ExtName(originalname)
  }

  /**
   * A name ending in `q` and then an extension `e` has extension `e`, when `q`
   * has no `/` and does not start with `.`.
   */
  lemma ExtNameOfSuffixed(p: string, q: string, e: string)
    requires q != [] && q[0] != '.' && '/' !in q
    requires e != [] && e[0] == '.' && '.' !in e[1..] && '/' !in e
    ensures ExtName(p + q + e) == e
  {
    var s := p + q + e;
    var t := q + e;
    assert s == p + t;
    assert s[|s| - |t|..] == t;
    BaseNameKeepsSuffix(s, t);
    var b := BaseName(s);
    assert b[|b| - |t|] == q[0];
    assert b != "..";
    assert b[|b| - |e|] == '.';
    assert b[1..][|b| - |e| - 1] == '.';
    var r := ExtName(s);
    assert r != "";
    assert t[|t| - |e|..] == e;
    SuffixOfSuffix(b, t, e);
    DotSuffixUnique(b, r, e);
  }

  /** The stored name keeps the original's extension, whatever the field name (the unique suffix has no `/`). */
  lemma StoredFilenameKeepsExtension(fieldname: string, uniqueSuffix: string, originalname: string)
    requires '/' !in uniqueSuffix && ExtName(originalname) != ""
    ensures ExtName(StoredFilename(fieldname, uniqueSuffix, originalname)) == ExtName(originalname)
  {
    var q := "-" + uniqueSuffix;
    assert q[0] == '-' && '/' !in q;
    ConcatAssoc(fieldname, "-", uniqueSuffix);
    ExtNameOfSuffixed(fieldname, q, ExtName(originalname));
  }

  /** A name without any `.` has no extension. */
  lemma ExtNameWithoutDot(p: string)
    requires '.' !in p
    ensures ExtName(p) == ""
  {
    var b := BaseName(p);
    assert '.' !in b by {
      forall k | 0 <= k < |b| ensures b[k] != '.' {
        assert b[k] == p[|p| - |b| + k];
      }
    }
  }

  /** Without a `.` in the original's extension, the field name or the suffix, the stored name has no extension. */
  lemma StoredFilenameWithoutExtension(fieldname: string, uniqueSuffix: string, originalname: string)
    requires ExtName(originalname) == "" && '.' !in fieldname && '.' !in uniqueSuffix
    ensures ExtName(StoredFilename(fieldname, uniqueSuffix, originalname)) == ""
  {
    var p := fieldname + "-" + uniqueSuffix;
    assert '.' !in p by {
      assert '.' !in "-";
    }
    assert StoredFilename(fieldname, uniqueSuffix, originalname) == p + "" == p;
    ExtNameWithoutDot(p);
  }

  /** A file part as the client sent it. */
  datatype IncomingFile = IncomingFile(fieldname: string, originalname: string, mimetype: string, size: nat)

  /** `req.file` once the middleware has stored it. */
  datatype UploadedFile = UploadedFile(
    fieldname: string, originalname: string, mimetype: string, size: nat, filename: string, path: string)

  /** What the `upload.single("file")` stage hands on: the request (with or without a file), or an error. */
  datatype Received = Passed(file: Option<UploadedFile>) | Failed(message: string)

  /** multer's message for a file over `limits.fileSize`. */
  const FileTooLargeMessage: string := "File too large"

  /**
   * The middleware stage: a request without a file passes without one; a file
   * whose type is not allowed, or that is larger than the limit, fails the
   * request; any other file is stored as `uploadsDir/filename`.
   */
  function Receive(incoming: Option<IncomingFile>, uploadsDir: string, uniqueSuffix: string): (r: Received)
    ensures incoming.None? ==> r == Passed(None)
    ensures incoming.Some? && FileFilter(incoming.value.mimetype) != Accept ==> r == Failed(InvalidFileTypeMessage)
    ensures incoming.Some? && FileFilter(incoming.value.mimetype) == Accept && incoming.value.size > MaxFileSize
            ==> r == Failed(FileTooLargeMessage)
    ensures incoming.Some? && FileFilter(incoming.value.mimetype) == Accept && incoming.value.size <= MaxFileSize
            ==> r.Passed? && r.file.Some?
    ensures r.Passed? && r.file.Some? ==>
              incoming.Some? && incoming.value.mimetype in AllowedTypes && incoming.value.size <= MaxFileSize
              && r.file.value.fieldname == incoming.value.fieldname
              && r.file.value.originalname == incoming.value.originalname
              && r.file.value.size == incoming.value.size
              && r.file.value.mimetype == incoming.value.mimetype
              && r.file.value.filename == StoredFilename(incoming.value.fieldname, uniqueSuffix, incoming.value.originalname)
              && r.file.value.path == uploadsDir + "/" + r.file.value.filename
  {
    match incoming
    case None => Passed(None)
    case Some(f) =>
      match FileFilter(f.mimetype)
      case Reject(message) => Failed(message)
      case Accept =>
        if f.size > MaxFileSize then Failed(FileTooLargeMessage)
        else
          var filename := StoredFilename(f.fieldname, uniqueSuffix, f.originalname);
          Passed(Some(UploadedFile(f.fieldname, f.originalname, f.mimetype, f.size, filename, uploadsDir + "/" + filename)))
  }
}
