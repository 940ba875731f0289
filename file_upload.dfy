/** The template media upload hook (apps/web/src/app/modules/campaigns/templates/hooks/useFileUpload.ts).
    The hook's three state variables are the fields of a class; `uploadFiles` is a method that
    checks the batch, runs the per-file progress loop and appends the batch. The upload is
    simulated in the source, so the model has no failure during it. `Date.now()` for each file is
    the `clock` parameter and `URL.createObjectURL` the `objectUrl` parameter. The `onError` and
    `onUploadComplete` callbacks are the method's results. file-upload.types.ts is not part of
    this model; its records are written from the fields the hook uses. */
module FileUpload {
  import opened Wrappers
  import opened Strings
  import opened Seqs

  datatype FileUploadConfig = FileUploadConfig(maxSize: nat, acceptedTypes: seq<string>, maxFiles: nat)

  /** A browser `File` as the hook reads it. */
  datatype FileInfo = FileInfo(name: string, size: nat, fileType: string)

  datatype UploadedFile = UploadedFile(id: string, name: string, size: nat, fileType: string, url: string, uploadedAt: nat)

  datatype UploadError =
    | TooManyFiles(maxFiles: nat)
    | TooLarge(fileName: string, maxSize: nat)
    | UnsupportedType(fileType: string)

  const MiB := 1048576

  /** The text `onError` receives. */
  function ErrorMessage(e: UploadError): string {
    match e
    case TooManyFiles(m) => "Nombre maximum de fichiers dépassé (max: " + NatToString(m) + ")"
    case TooLarge(n, m) => "Le fichier " + n + " est trop volumineux (max: " + NatToString(m / MiB) + "MB)"
    case UnsupportedType(t) => "Type de fichier non supporté: " + t
  }

  /** Each kind of error has its own opening words, followed by the limit or the type. */
  lemma {:induction false} ErrorMessageExamples(t: string)
    ensures ErrorMessage(TooManyFiles(5)) == "Nombre maximum de fichiers dépassé (max: 5)"
    ensures ErrorMessage(UnsupportedType(t)) == "Type de fichier non supporté: " + t
  {
    assert NatToString(5) == "5";
  }

  lemma {:induction false} ErrorMessageTooLarge()
    ensures ErrorMessage(TooLarge("a.png", MiB)) == "Le fichier a.png est trop volumineux (max: 1MB)"
  {
    assert NatToString(MiB / MiB) == "1";
    assert ErrorMessage(TooLarge("a.png", MiB)) == "Le fichier " + "a.png" + " est trop volumineux (max: " + "1" + "MB)";
  }

  /** `validateFile`: the size is checked before the type. */
  function ValidateFile(config: FileUploadConfig, f: FileInfo): (r: Option<UploadError>)
    ensures r == Some(TooLarge(f.name, config.maxSize)) <==> f.size > config.maxSize
    ensures r == Some(UnsupportedType(f.fileType)) <==> f.size <= config.maxSize && f.fileType !in config.acceptedTypes
    ensures r.None? <==> f.size <= config.maxSize && f.fileType in config.acceptedTypes
  {
    if f.size > config.maxSize then Some(TooLarge(f.name, config.maxSize))
    else if f.fileType !in config.acceptedTypes then Some(UnsupportedType(f.fileType))
    else None
  }

  /** The error of the first invalid file, if any. */
  function FirstInvalid(config: FileUploadConfig, files: seq<FileInfo>): Option<UploadError>
    decreases |files|
  {
    if files == [] then None
    else if ValidateFile(config, files[0]).Some? then ValidateFile(config, files[0])
    else FirstInvalid(config, files[1..])
  }

  lemma {:induction false} FirstInvalidMeaning(config: FileUploadConfig, files: seq<FileInfo>)
    ensures FirstInvalid(config, files).None? <==> forall i :: 0 <= i < |files| ==> ValidateFile(config, files[i]).None?
    ensures FirstInvalid(config, files).Some? ==>
      exists i :: 0 <= i < |files| && FirstInvalid(config, files) == ValidateFile(config, files[i])
        && forall j :: 0 <= j < i ==> ValidateFile(config, files[j]).None?
    decreases |files|
  {
    if files != [] && ValidateFile(config, files[0]).None? {
      FirstInvalidMeaning(config, files[1..]);
      assert forall i :: 0 < i < |files| ==> files[i] == files[1..][i - 1];
      if FirstInvalid(config, files).Some? {
        var i :| 0 <= i < |files[1..]| && FirstInvalid(config, files[1..]) == ValidateFile(config, files[1..][i])
          && forall j :: 0 <= j < i ==> ValidateFile(config, files[1..][j]).None?;
        assert forall j :: 0 < j < i + 1 ==> files[j] == files[1..][j - 1];
      }
    }
  }

  /** The record made for the `i`-th file of a batch. */
  function Uploaded(f: FileInfo, i: nat, clock: nat -> nat, objectUrl: (FileInfo, nat) -> string): UploadedFile {
    UploadedFile("file-" + NatToString(clock(i)) + "-" + NatToString(i), f.name, f.size, f.fileType, objectUrl(f, i), clock(i))
  }

  function UploadedBatch(files: seq<FileInfo>, clock: nat -> nat, objectUrl: (FileInfo, nat) -> string): (r: seq<UploadedFile>)
    ensures |r| == |files|
    ensures forall i :: 0 <= i < |files| ==> r[i] == Uploaded(files[i], i, clock, objectUrl)
  {
    seq(|files|, i requires 0 <= i < |files| => Uploaded(files[i], i, clock, objectUrl))
  }

  datatype Outcome = Rejected(error: UploadError) | Completed(added: seq<UploadedFile>)

  /** What one `uploadFiles` call does, given the files already uploaded: too many files reject the
      whole batch, then the first invalid file does; otherwise every file is uploaded. */
  function Upload(current: seq<UploadedFile>, config: FileUploadConfig, files: seq<FileInfo>,
                  clock: nat -> nat, objectUrl: (FileInfo, nat) -> string): Outcome
  {
    if |current| + |files| > config.maxFiles then Rejected(TooManyFiles(config.maxFiles))
    else if FirstInvalid(config, files).Some? then Rejected(FirstInvalid(config, files).value)
    else Completed(UploadedBatch(files, clock, objectUrl))
  }

  /** The batch rules: the file limit is checked first, then every file, and a rejected batch adds
      nothing; an accepted batch adds one record per file, in order, with its name, size and type. */
  lemma {:induction false} UploadRules(current: seq<UploadedFile>, config: FileUploadConfig, files: seq<FileInfo>,
                    clock: nat -> nat, objectUrl: (FileInfo, nat) -> string)
    ensures var o := Upload(current, config, files, clock, objectUrl);
      && (|current| + |files| > config.maxFiles ==> o == Rejected(TooManyFiles(config.maxFiles)))
      && (o.Completed? <==> (&& |current| + |files| <= config.maxFiles
                             && forall i :: 0 <= i < |files| ==>
                                  files[i].size <= config.maxSize && files[i].fileType in config.acceptedTypes))
      && (|current| + |files| <= config.maxFiles && o.Rejected? ==>
            exists i :: 0 <= i < |files| && Some(o.error) == ValidateFile(config, files[i])
              && forall j :: 0 <= j < i ==> ValidateFile(config, files[j]).None?)
      && (o.Completed? ==> |o.added| == |files| && forall i :: 0 <= i < |files| ==>
            o.added[i].name == files[i].name && o.added[i].size == files[i].size
            && o.added[i].fileType == files[i].fileType && o.added[i].uploadedAt == clock(i))
  {
    FirstInvalidMeaning(config, files);
  }

  /** A file over the size limit is reported as too large even when its type is not accepted. */
  lemma {:induction false} SizeCheckedFirst(config: FileUploadConfig, f: FileInfo)
    requires f.size > config.maxSize && f.fileType !in config.acceptedTypes
    ensures Upload([], config.(maxFiles := 1), [f], n => n, (g, i) => "") == Rejected(TooLarge(f.name, config.maxSize))
  {
  }

  class Uploader {
    const config: FileUploadConfig
    var uploading: bool
    var progress: nat
    var uploadedFiles: seq<UploadedFile>

    constructor (config: FileUploadConfig)
      ensures this.config == config && !uploading && progress == 0 && uploadedFiles == []
    {
      this.config := config;
      uploading, progress, uploadedFiles := false, 0, [];
    }

    /** The simulated transfer of one file: the progress grows by 10 until it reaches 100. */
    method SimulateTransfer()
      modifies this`progress
      ensures progress == 100
    {
      var next := progress + 10;
      while next < 100
        invariant next == progress + 10
        decreases 100 - next
      {
        progress := next;
        next := progress + 10;
      }
      progress := 100;
    }

    /** `uploadFiles`: the result is the error given to `onError`, or the batch given to
        `onUploadComplete`, which is then appended to the uploaded files. */
    method UploadFiles(files: seq<FileInfo>, clock: nat -> nat, objectUrl: (FileInfo, nat) -> string) returns (o: Outcome)
      modifies this`uploading, this`progress, this`uploadedFiles
      ensures o == Upload(old(uploadedFiles), config, files, clock, objectUrl)
      ensures o.Rejected? ==> uploadedFiles == old(uploadedFiles) && uploading == old(uploading) && progress == old(progress)
      ensures o.Completed? ==> uploadedFiles == old(uploadedFiles) + o.added && !uploading && progress == 0
    {
      if |uploadedFiles| + |files| > config.maxFiles {
        return Rejected(TooManyFiles(config.maxFiles));
      }
      var k := 0;
      while k < |files|
        invariant 0 <= k <= |files|
        invariant FirstInvalid(config, files) == FirstInvalid(config, files[k..])
      {
        assert files[k..][1..] == files[k + 1..];
        var v := ValidateFile(config, files[k]);
        if v.Some? {
          return Rejected(v.value);
        }
        k := k + 1;
      }
      assert files[k..] == [];
      uploading, progress := true, 0;
      var added: seq<UploadedFile> := [];
      var i := 0;
      while i < |files|
        invariant 0 <= i <= |files|
        invariant added == UploadedBatch(files[..i], clock, objectUrl)
        invariant uploadedFiles == old(uploadedFiles)
      {
        SimulateTransfer();
        added := added + [Uploaded(files[i], i, clock, objectUrl)];
        assert files[..i + 1][..i] == files[..i];
        i := i + 1;
      }
      assert files[..i] == files;
      uploadedFiles := uploadedFiles + added;
      uploading, progress := false, 0;
      o := Completed(added);
    }

    /** `removeFile` */
    method RemoveFile(fileId: string)
      modifies this`uploadedFiles
      ensures uploadedFiles == Filter(old(uploadedFiles), (f: UploadedFile) => f.id != fileId)
      ensures forall f :: f in uploadedFiles <==> f in old(uploadedFiles) && f.id != fileId
    {
      forall f ensures f in Filter(uploadedFiles, (g: UploadedFile) => g.id != fileId) <==> f in uploadedFiles && f.id != fileId {
        FilterMembership(uploadedFiles, (g: UploadedFile) => g.id != fileId, f);
      }
      uploadedFiles := Filter(uploadedFiles, (f: UploadedFile) => f.id != fileId);
    }

    /** `clearFiles` */
    method ClearFiles()
      modifies this`uploadedFiles
      ensures uploadedFiles == []
    {
      uploadedFiles := [];
    }
  }

  function Elapsed(n: nat): nat { n }

  function BlobUrl(f: FileInfo, i: nat): string { "blob:" + f.name }

  /** Two accepted images are uploaded in order; a third batch that would exceed the limit of two
      files is refused and leaves them in place. */
  method UploadScenario(a: FileInfo, b: FileInfo, c: FileInfo) returns (first: Outcome, second: Outcome, count: nat)
    requires a.size <= MiB && b.size <= MiB && a.fileType == "image/png" && b.fileType == "image/png"
    ensures first.Completed? && |first.added| == 2 && first.added[0].name == a.name && first.added[1].name == b.name
    ensures second == Rejected(TooManyFiles(2)) && count == 2
  {
    var up := new Uploader(FileUploadConfig(MiB, ["image/png", "image/jpeg"], 2));
    first := up.UploadFiles([a, b], Elapsed, BlobUrl);
    UploadRules([], up.config, [a, b], Elapsed, BlobUrl);
    second := up.UploadFiles([c], Elapsed, BlobUrl);
    count := |up.uploadedFiles|;
  }
}
