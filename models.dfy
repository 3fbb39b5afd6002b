/** The indexing system's data models: job priorities, indexing jobs and
    the validated file metadata record. */
module Models {
  import opened Wrappers

  /** Priority levels; a smaller value is more urgent. */
  datatype IndexingPriority = Immediate | High | Normal | Low {
    function Value(): (v: nat)
      ensures v <= 3
    {
      match this
      case Immediate => 0
      case High => 1
      case Normal => 2
      case Low => 3
    }
  }

  /** The four levels are ordered IMMEDIATE < HIGH < NORMAL < LOW, and the
      value identifies the level. */
  lemma PriorityValues(a: IndexingPriority, b: IndexingPriority)
    ensures Immediate.Value() == 0 && High.Value() == 1
    ensures Normal.Value() == 2 && Low.Value() == 3
    ensures a.Value() == b.Value() <==> a == b
  {
  }

  /** Operation names carried by jobs. */
  const CreateOp: string := "create"
  const UpdateOp: string := "update"
  const DeleteOp: string := "delete"

  /** A file indexing job; `timestamp` is the clock reading when it was made. */
  datatype IndexingJob = IndexingJob(
    filePath: string,
    priority: IndexingPriority,
    operation: string,
    timestamp: real)

  /** `IndexingJob.__lt__`: compares priority values only. */
  predicate JobLess(a: IndexingJob, b: IndexingJob) {
    a.priority.Value() < b.priority.Value()
  }

  /** `<` on jobs is a strict order that ignores path, operation and time. */
  lemma JobLessIsStrictOrder(a: IndexingJob, b: IndexingJob, c: IndexingJob)
    ensures !JobLess(a, a)
    ensures JobLess(a, b) ==> !JobLess(b, a)
    ensures JobLess(a, b) && JobLess(b, c) ==> JobLess(a, c)
  {
  }

  lemma JobLessIgnoresOtherFields(a: IndexingJob, a': IndexingJob, b: IndexingJob, b': IndexingJob)
    requires a.priority == a'.priority && b.priority == b'.priority
    ensures JobLess(a, b) == JobLess(a', b')
  {
  }

  /** Two jobs are unordered exactly when their priorities are equal. */
  lemma JobLessTotalOnPriorities(a: IndexingJob, b: IndexingJob)
    ensures !JobLess(a, b) && !JobLess(b, a) <==> a.priority == b.priority
  {
    PriorityValues(a.priority, b.priority);
  }

  /** Validated metadata of one file. Times are clock readings. */
  datatype FileMetadata = FileMetadata(
    path: string,
    filename: string,
    extension: string,
    size: int,
    modifiedTime: real,
    createdTime: real,
    fileType: string,
    mimeType: string,
    contentHash: Option<string>,
    indexedTime: Option<real>)

  /** The validation error lists the failing fields in declaration order. */
  datatype ValidationError = ValidationError(fields: seq<string>)

  /** Builds a `FileMetadata`, running its two validators: the path must
      exist (`pathExists` is the file system's answer) and the size must
      not be negative. `content_hash` and `indexed_time` default to None. */
  function NewFileMetadata(
    path: string, filename: string, extension: string, size: int,
    modifiedTime: real, createdTime: real, fileType: string, mimeType: string,
    pathExists: bool,
    contentHash: Option<string> := None, indexedTime: Option<real> := None
  ): (r: Result<FileMetadata, ValidationError>)
    ensures r.Ok? <==> pathExists && size >= 0
    ensures r.Ok? ==> r.value == FileMetadata(path, filename, extension, size, modifiedTime,
                                              createdTime, fileType, mimeType, contentHash, indexedTime)
    ensures r.Ok? ==> r.value.size >= 0
    ensures r.Err? ==> ("path" in r.error.fields <==> !pathExists)
    ensures r.Err? ==> ("size" in r.error.fields <==> size < 0)
  {
    var errors := (if pathExists then [] else ["path"]) + (if size >= 0 then [] else ["size"]);
    if errors == [] then
      Ok(FileMetadata(path, filename, extension, size, modifiedTime, createdTime,
                      fileType, mimeType, contentHash, indexedTime))
    else
      Err(ValidationError(errors))
  }

  /** Without the optional arguments, hash and indexing time are absent. */
  lemma NewFileMetadataDefaults(path: string, filename: string, extension: string, size: nat,
                                mtime: real, ctime: real, fileType: string, mimeType: string)
    ensures var r := NewFileMetadata(path, filename, extension, size, mtime, ctime,
                                     fileType, mimeType, true);
            r.Ok? && r.value.contentHash == None && r.value.indexedTime == None
  {
  }
}
