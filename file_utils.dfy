/** File filters, metadata derivation and size formatting. What the file
    system would say about a path (existence, `stat`, the resolved path,
    the MD5 digest) is passed in as a `FileFacts` value. */
module FileUtils {
  import opened Wrappers
  import opened Text
  import opened Models
  import opened Config

  datatype Stat = Stat(size: int, mtime: real, ctime: real)

  /** The file system's answers for one path: `name` and `parts` are
      `Path.name` and `Path.parts`, `stat` is None when `stat()` raises,
      `hash` is None when the content cannot be read for hashing. */
  datatype FileFacts = FileFacts(
    path: string,
    name: string,
    parts: seq<string>,
    present: bool,
    stat: Option<Stat>,
    resolved: string,
    hash: Option<string>)

  /** Index of the last `c` in `s`, or -1 (`str.rfind`). */
  function RFind(s: string, c: char): (r: int)
    ensures -1 <= r < |s|
    ensures r >= 0 ==> s[r] == c && forall k :: r < k < |s| ==> s[k] != c
    ensures r == -1 ==> forall k :: 0 <= k < |s| ==> s[k] != c
  {
    if s == [] then -1
    else if s[|s| - 1] == c then |s| - 1
    else RFind(s[..|s| - 1], c)
  }

  /** `PurePath.suffix`: from the last dot of the final component, unless
      that dot is the first or the last character. */
  function Suffix(name: string): (r: string)
    ensures r == [] || (r[0] == '.' && 2 <= |r| < |name| && r == name[|name| - |r|..])
  {
    var i := RFind(name, '.');
    if 0 < i < |name| - 1 then name[i..] else []
  }

  lemma {:induction false} RFindLower(s: string, c: char)
    requires !('A' <= c <= 'Z') && !('a' <= c <= 'z')
    ensures RFind(Lower(s), c) == RFind(s, c)
  {
    if s != [] {
      assert Lower(s)[..|s| - 1] == Lower(s[..|s| - 1]);
      RFindLower(s[..|s| - 1], c);
    }
  }

  /** Lower-casing a name and taking its suffix commute. */
  lemma SuffixLower(name: string)
    ensures Suffix(Lower(name)) == Lower(Suffix(name))
  {
    RFindLower(name, '.');
  }

  /** The lowercased suffix: `path.suffix.lower()`. */
  function Extension(name: string): string {
    Lower(Suffix(name))
  }

  /** `should_index_file`, check by check in the source's order. */
  function ShouldIndexFile(f: FileFacts, config: IndexingConfig): (r: bool)
    ensures r ==> f.present && f.stat.Some?
  {
    if !f.present then false
    else if Extension(f.name) in config.excludedExtensions then false
    else if exists d :: d in config.excludedDirs && d in f.parts then false
    else if f.stat.None? then false
    else if f.stat.value.size > config.maxFileSize then false
    else true
  }

  /** The four checks are the only reasons for rejection: a file is indexed
      exactly when it exists, its lowercased suffix is not excluded, no path
      component is an excluded directory, and `stat` works and reports a
      size of at most `max_file_size` (equality allowed). */
  lemma ShouldIndexFileExactly(f: FileFacts, config: IndexingConfig)
    ensures ShouldIndexFile(f, config) <==>
      && f.present
      && Extension(f.name) !in config.excludedExtensions
      && (forall d :: d in config.excludedDirs ==> d !in f.parts)
      && f.stat.Some?
      && f.stat.value.size <= config.maxFileSize
  {
  }

  /** An excluded-extension entry containing an upper-case letter can never
      reject anything: the suffix is compared after lower-casing. */
  lemma UpperCaseExclusionNeverMatches(f: FileFacts, config: IndexingConfig, entry: string)
    requires HasUpper(entry)
    ensures ShouldIndexFile(f, config) == ShouldIndexFile(f, config.(excludedExtensions := config.excludedExtensions + {entry}))
  {
    LowerHasNoUpper(Suffix(f.name), entry);
  }

  /** The shipped exclusion ".DS_Store" is such an entry. */
  lemma DefaultDSStoreEntryIsInert(f: FileFacts)
    ensures ShouldIndexFile(f, DefaultIndexingConfig) ==
            ShouldIndexFile(f, DefaultIndexingConfig.(excludedExtensions := DefaultIndexingConfig.excludedExtensions - {".DS_Store"}))
  {
    var c := DefaultIndexingConfig.(excludedExtensions := DefaultIndexingConfig.excludedExtensions - {".DS_Store"});
    assert HasUpper(".DS_Store") by { assert 'A' <= ".DS_Store"[1] <= 'Z'; }
    assert c.excludedExtensions + {".DS_Store"} == DefaultIndexingConfig.excludedExtensions;
    UpperCaseExclusionNeverMatches(f, c, ".DS_Store");
  }

  /** `file_type`: the lowercased suffix without its dot, or "unknown". */
  function FileTypeOf(name: string): string {
    if Suffix(name) != [] then Extension(name)[1..] else "unknown"
  }

  /** Field derivation of `get_file_metadata`; None when the path is missing,
      `stat` fails, hashing fails, or validation rejects the record. */
  function GetFileMetadata(f: FileFacts): (r: Option<FileMetadata>)
    ensures r.Some? <==> f.present && f.stat.Some? && f.hash.Some? && f.stat.value.size >= 0
    ensures r.Some? ==>
      && r.value.path == f.resolved
      && r.value.filename == f.name
      && r.value.extension == Extension(f.name)
      && r.value.fileType == FileTypeOf(f.name)
      && r.value.mimeType == ""
      && r.value.size == f.stat.value.size
      && r.value.contentHash == f.hash
      && r.value.indexedTime == None
  {
    if !f.present || f.stat.None? || f.hash.None? then None
    else
      var st := f.stat.value;
      match NewFileMetadata(f.resolved, f.name, Extension(f.name), st.size, st.mtime, st.ctime,
                            FileTypeOf(f.name), "", true, f.hash)
      case Ok(m) => Some(m)
      case Err(_) => None
  }

  /** The extension and the file type agree: with a suffix, the extension is
      "." followed by the type; without one, the extension is empty and the
      type is "unknown". */
  lemma ExtensionAndFileType(name: string)
    ensures Extension(name) != [] ==> Extension(name) == "." + FileTypeOf(name)
    ensures Extension(name) == [] ==> FileTypeOf(name) == "unknown"
  {
  }

  const TextExtensions: set<string> := {
    ".txt", ".md", ".py", ".js", ".html", ".css", ".json", ".xml", ".yaml", ".yml",
    ".toml", ".ini", ".cfg", ".conf", ".log", ".csv", ".tsv", ".sql", ".sh", ".bash",
    ".zsh", ".fish", ".c", ".cpp", ".h", ".hpp", ".java", ".kt", ".swift", ".go",
    ".rs", ".php", ".rb", ".pl", ".r", ".scala", ".clj", ".hs", ".elm", ".fs",
    ".ml", ".ex", ".exs", ".lua", ".dart", ".ts"}

  const DocumentExtensions: set<string> := {
    ".pdf", ".docx", ".doc", ".xlsx", ".xls", ".pptx", ".ppt", ".odt", ".ods", ".odp", ".rtf"}

  predicate IsTextFile(name: string) {
    Extension(name) in TextExtensions
  }

  predicate IsDocumentFile(name: string) {
    Extension(name) in DocumentExtensions
  }

  /** Both tests ignore letter case: names equal up to case get the same
      answer. */
  lemma FileKindCaseInsensitive(a: string, b: string)
    requires Lower(a) == Lower(b)
    ensures IsTextFile(a) == IsTextFile(b)
    ensures IsDocumentFile(a) == IsDocumentFile(b)
  {
    SuffixLower(a);
    SuffixLower(b);
  }

  const SizeNames: seq<string> := ["B", "KB", "MB", "GB", "TB"]

  function Pow1024(i: nat): (r: real)
    ensures r >= 1.0
  {
    if i == 0 then 1.0 else 1024.0 * Pow1024(i - 1)
  }

  /** A formatted size: the literal "0 B", or a value with a unit index into
      `SizeNames` (the "%.1f" rendering of the value is not modelled). */
  datatype HumanSize = ZeroBytes | Scaled(value: real, unitIndex: nat) {
    function Unit(): string
      requires Scaled? && unitIndex < |SizeNames|
    {
      SizeNames[unitIndex]
    }
  }

  /** `get_file_size_human`: divides by 1024 while the value is at least
      1024 and a larger unit exists. The unit index is the number of
      divisions, capped at "TB". */
  method FileSizeHuman(sizeBytes: int) returns (r: HumanSize)
    ensures sizeBytes == 0 <==> r == ZeroBytes
    ensures r.Scaled? ==>
      && r.unitIndex < |SizeNames|
      && r.value * Pow1024(r.unitIndex) == sizeBytes as real
      && (r.unitIndex < |SizeNames| - 1 ==> r.value < 1024.0)
      && (r.unitIndex > 0 ==> r.value >= 1.0)
  {
    if sizeBytes == 0 {
      return ZeroBytes;
    }
    var i: nat := 0;
    var size: real := sizeBytes as real;
    while size >= 1024.0 && i < |SizeNames| - 1
      invariant i < |SizeNames|
      invariant size * Pow1024(i) == sizeBytes as real
      invariant i > 0 ==> size >= 1.0
    {
      assert Pow1024(i + 1) == 1024.0 * Pow1024(i);
      size := size / 1024.0;
      i := i + 1;
    }
    r := Scaled(size, i);
  }
}
