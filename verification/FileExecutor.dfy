/** The file capabilities: reads, writes and edits confined to the executor's root. */
module FileExecutors {
  import opened Basics
  import opened Lines
  import opened Paging
  import opened Paths

  datatype FileError = OutsideRoot | NotFound | ReadFailed | MkdirFailed | WriteFailed | OldTextMissing

  datatype ReadResult = ReadError(error: FileError) | ReadOk(outcome: Outcome)

  /** Outcome of one os.WriteFile; a failed write may leave other bytes at the path. */
  datatype WriteIo = Written | Refused(left: Option<Bytes>)

  function AfterWrite(files: map<string, Bytes>, path: string, content: Bytes, io: WriteIo): map<string, Bytes> {
    match io
    case Written => files[path := content]
    case Refused(None) => files
    case Refused(Some(left)) => files[path := left]
  }

  class FileExecutor {
    const rootPath: string
    var files: map<string, Bytes>  // regular files by cleaned path

    constructor (rootPath: string, files: map<string, Bytes>)
      ensures this.rootPath == rootPath && this.files == files
    {
      this.rootPath, this.files := rootPath, files;
    }

    /** The one file an operation on `path` may touch. */
    function Resolved(path: string): string {
      Render(Target(rootPath, path))
    }

    predicate Allowed(path: string) {
      Inside(Parse(rootPath), Target(rootPath, path))
    }

    method Read(path: string, offset: Option<int>, limit: Option<int>, readable: bool) returns (r: ReadResult)
      ensures r == ReadError(OutsideRoot) <==> !Allowed(path)
      ensures Allowed(path) && Resolved(path) !in files ==> r == ReadError(NotFound)
      ensures Allowed(path) && Resolved(path) in files ==>
                r == if readable then ReadOk(ReadPage(files[Resolved(path)], offset, limit)) else ReadError(ReadFailed)
      ensures Allowed(path) && Resolved(path) in files && readable && offset.None? && limit.None? ==>
                var lines := Split(files[Resolved(path)], 10);
                var text := Join(lines[..Min(2000, |lines|)], 10);
                r == ReadOk(if |text| > 51_200 then Page(text[..51_200], Min(2000, |lines|), true)
                            else Page(text, Min(2000, |lines|), |lines| > 2000))
    {
      ValidateExactly(rootPath, path);
      var valid := ValidatePath(rootPath, path);
      if valid.None? { return ReadError(OutsideRoot); }
      if valid.value !in files { return ReadError(NotFound); }
      if !readable { return ReadError(ReadFailed); }
      if offset.None? && limit.None? { PageExactly(files[valid.value], offset, limit, 0, 2000); }
      return ReadOk(ReadPage(files[valid.value], offset, limit));
    }

    method Write(path: string, content: Bytes, mkdirOk: bool, io: WriteIo) returns (e: Option<FileError>)
      modifies this
      ensures e == Some(OutsideRoot) <==> !Allowed(path)
      ensures e == Some(MkdirFailed) <==> Allowed(path) && !mkdirOk
      ensures e.None? <==> Allowed(path) && mkdirOk && io.Written?
      ensures e.None? || e.value in {OutsideRoot, MkdirFailed, WriteFailed}
      ensures files == if Allowed(path) && mkdirOk then AfterWrite(old(files), Resolved(path), content, io)
        else old(files)
      ensures e.None? ==> files == old(files)[Resolved(path) := content]
      ensures e == Some(WriteFailed) ==>
                files == if io.left.Some? then old(files)[Resolved(path) := io.left.value] else old(files)
    {
      ValidateExactly(rootPath, path);
      var valid := ValidatePath(rootPath, path);
      if valid.None? { return Some(OutsideRoot); }
      if !mkdirOk { return Some(MkdirFailed); }
      files := AfterWrite(files, valid.value, content, io);
      return if io.Written? then None else Some(WriteFailed);
    }

    /** On success the first occurrence has been replaced, and no other file has changed. */
    method Edit(path: string, oldText: Bytes, newText: Bytes, readable: bool, io: WriteIo)
        returns (e: Option<FileError>)
      modifies this
      ensures e == Some(OutsideRoot) <==> !Allowed(path)
      ensures e == Some(NotFound) <==> Allowed(path) && Resolved(path) !in old(files)
      ensures e == Some(OldTextMissing) <==>
                Allowed(path) && Resolved(path) in old(files) && readable &&
                forall i :: !Matches(old(files)[Resolved(path)], oldText, i)
      ensures e == Some(ReadFailed) <==> Allowed(path) && Resolved(path) in old(files) && !readable
      ensures e.None? || e == Some(WriteFailed) ==>
                && (e.None? <==> io.Written?)
                && Resolved(path) in old(files)
                && EditText(old(files)[Resolved(path)], oldText, newText).Some?
                && files == AfterWrite(old(files), Resolved(path),
                     EditText(old(files)[Resolved(path)], oldText, newText).value, io)
      ensures e.None? ==>
                files == old(files)[Resolved(path) := EditText(old(files)[Resolved(path)], oldText, newText).value]
      ensures e == Some(WriteFailed) ==>
                files == if io.left.Some? then old(files)[Resolved(path) := io.left.value] else old(files)
      ensures e.Some? && e != Some(WriteFailed) ==> files == old(files)
      ensures e.None? || e.value in {OutsideRoot, NotFound, ReadFailed, OldTextMissing, WriteFailed}
      ensures forall q :: q != Resolved(path) ==>
            (q in files <==> q in old(files)) &&
            (q in files ==> files[q] == old(files)[q])
    {
      ValidateExactly(rootPath, path);
      var valid := ValidatePath(rootPath, path);
      if valid.None? { return Some(OutsideRoot); }
      if valid.value !in files { return Some(NotFound); }
      if !readable { return Some(ReadFailed); }
      var content := files[valid.value];
      var idx := Index(content, oldText);
      if idx.None? { return Some(OldTextMissing); }
      var newContent := content[..idx.value] + newText + content[idx.value + |oldText|..];
      files := AfterWrite(files, valid.value, newContent, io);
      return if io.Written? then None else Some(WriteFailed);
    }
  }
}
