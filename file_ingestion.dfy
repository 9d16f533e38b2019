/** The source reader (modules/file_ingestion.py): a file's bytes and name
    taken from an upload, a local or network path, an S3 bucket or an Azure
    Blob container. The reader changes nothing, so the places it reads are one
    value, `Sources`. */
module FileIngestion {
  import opened Outcomes
  import opened Text
  import opened Settings
  import opened Utf8
  import FileStorage

  /** `FileSource`. */
  datatype Source = Upload | LocalPath | NetworkPath | S3 | Azure

  /** The enum's value. `f"{source}"` prints this on Python 3.8 to 3.10;
      from 3.11 on it prints the member's qualified name (`FileSource.S3`). */
  function SourceValue(source: Source): string
  {
    match source
    case Upload => "upload"
    case LocalPath => "local_path"
    case NetworkPath => "network_path"
    case S3 => "s3"
    case Azure => "azure"
  }

  /** What the reader can see, and how the outside world answers it. */
  datatype Sources = Sources(
    files: map<string, Bytes>,              // path -> bytes of an existing file
    dirs: set<string>,                      // existing directories
    objects: map<(string, string), Bytes>,  // (bucket, key) -> S3 object body
    s3Errors: map<string, string>,          // bucket -> text of the ClientError any read raises
    s3Missing: string,                      // text of the ClientError for a key that is not there
    blobs: map<(string, string), Bytes>,    // (container, blob) -> blob body
    azureErrors: map<string, string>,       // container -> text of the error any read raises
    azureMissing: string)                   // text of the error for a blob that is not there

  /** A file, object or blob together with its name. */
  type Ingested = (Bytes, string)

  /** `_read_from_path`: a path that does not exist raises
      `FileNotFoundError`; an existing file gives its bytes and
      `os.path.basename` of the path; opening a directory raises the OS error. */
  function ReadFromPath(src: Sources, path: string): (r: Result<Ingested>)
    ensures r.Ok? <==> path in src.files
    ensures r.Ok? ==> r.value == (src.files[path], AfterLast(path, '/'))
    ensures path !in src.files && path !in src.dirs ==> r == Err(FileNotFoundError("Arquivo não encontrado: " + path))
    ensures path !in src.files && path in src.dirs ==> r.Err? && r.error.IOError?
  {
    if path in src.files then Ok((src.files[path], AfterLast(path, '/')))
    else if path in src.dirs then Err(IOError("[Errno 21] Is a directory: '" + path + "'"))
    else Err(FileNotFoundError("Arquivo não encontrado: " + path))
  }

  /** `_read_from_s3`: missing credentials raise `ValueError` (not wrapped);
      every `ClientError` becomes `FileNotFoundError`; the name is the key's
      last segment. */
  function ReadFromS3(s: AppSettings, src: Sources, bucket: string, key: string): (r: Result<Ingested>)
    ensures !HasAwsCredentials(s) ==> r == Err(ValueError(FileStorage.AwsMissing))
    ensures HasAwsCredentials(s) && r.Err? ==> r.error.FileNotFoundError?
    ensures r.Ok? <==> HasAwsCredentials(s) && bucket !in src.s3Errors && (bucket, key) in src.objects
    ensures r.Ok? ==> r.value == (src.objects[(bucket, key)], AfterLast(key, '/'))
  {
    if !HasAwsCredentials(s) then Err(ValueError(FileStorage.AwsMissing))
    else if bucket in src.s3Errors then Err(FileNotFoundError("Erro ao ler arquivo do S3: " + src.s3Errors[bucket]))
    else if (bucket, key) !in src.objects then Err(FileNotFoundError("Erro ao ler arquivo do S3: " + src.s3Missing))
    else Ok((src.objects[(bucket, key)], AfterLast(key, '/')))
  }

  /** `_read_from_azure`: every failure, a missing connection string
      included, becomes `FileNotFoundError`; the name is the blob's last
      segment. */
  function ReadFromAzure(s: AppSettings, src: Sources, container: string, blob: string): (r: Result<Ingested>)
    ensures r.Err? ==> r.error.FileNotFoundError?
    ensures !Truthy(s.azureStorageConnectionString) ==>
      r == Err(FileNotFoundError("Erro ao ler arquivo do Azure: " + FileStorage.AzureMissing))
    ensures r.Ok? <==> (Truthy(s.azureStorageConnectionString) && container !in src.azureErrors &&
      (container, blob) in src.blobs)
    ensures r.Ok? ==> r.value == (src.blobs[(container, blob)], AfterLast(blob, '/'))
  {
    if !Truthy(s.azureStorageConnectionString) then
      Err(FileNotFoundError("Erro ao ler arquivo do Azure: " + FileStorage.AzureMissing))
    else if container in src.azureErrors then
      Err(FileNotFoundError("Erro ao ler arquivo do Azure: " + src.azureErrors[container]))
    else if (container, blob) !in src.blobs then
      Err(FileNotFoundError("Erro ao ler arquivo do Azure: " + src.azureMissing))
    else Ok((src.blobs[(container, blob)], AfterLast(blob, '/')))
  }

  /** The `ValueError` messages for a source given without its parameters. */
  const UploadContentMissing := "file_content é obrigatório para upload"
  const UploadNameMissing := "file_name é obrigatório para upload"
  const PathMissing := "file_path é obrigatório para caminhos locais/rede"
  const S3ParamsMissing := "bucket_name e object_key são obrigatórios para S3"
  const AzureParamsMissing := "bucket_name e object_key são obrigatórios para Azure"

  /** `ingest_file`: the source's parameters are checked for `None` first;
      an upload is handed back unchanged; the other sources are read. For
      Azure, `bucket_name` names the container and `object_key` the blob. */
  function IngestFile(s: AppSettings, src: Sources, source: Source, filePath: Option<string>,
                      fileContent: Option<Bytes>, fileName: Option<string>,
                      bucket: Option<string>, key: Option<string>): (r: Result<Ingested>)
    ensures source == Upload ==> (r.Ok? <==> fileContent.Some? && fileName.Some?)
    ensures source == Upload && r.Ok? ==> r.value == (fileContent.value, fileName.value)
    ensures source == Upload && fileContent.None? ==> r == Err(ValueError(UploadContentMissing))
    ensures source == Upload && fileContent.Some? && fileName.None? ==>
      r == Err(ValueError(UploadNameMissing))
    ensures (source == LocalPath || source == NetworkPath) && filePath.None? ==>
      r == Err(ValueError(PathMissing))
    ensures (source == LocalPath || source == NetworkPath) && filePath.Some? ==> r == ReadFromPath(src, filePath.value)
    ensures source == S3 && (bucket.None? || key.None?) ==>
      r == Err(ValueError(S3ParamsMissing))
    ensures source == S3 && bucket.Some? && key.Some? ==> r == ReadFromS3(s, src, bucket.value, key.value)
    ensures source == Azure && (bucket.None? || key.None?) ==>
      r == Err(ValueError(AzureParamsMissing))
    ensures source == Azure && bucket.Some? && key.Some? ==> r == ReadFromAzure(s, src, bucket.value, key.value)
  {
    match source
    case Upload =>
      if fileContent.None? then Err(ValueError(UploadContentMissing))
      else if fileName.None? then Err(ValueError(UploadNameMissing))
      else Ok((fileContent.value, fileName.value))
    case LocalPath | NetworkPath =>
      if filePath.None? then Err(ValueError(PathMissing))
      else ReadFromPath(src, filePath.value)
    case S3 =>
      if bucket.None? || key.None? then Err(ValueError(S3ParamsMissing))
      else ReadFromS3(s, src, bucket.value, key.value)
    case Azure =>
      if bucket.None? || key.None? then Err(ValueError(AzureParamsMissing))
      else ReadFromAzure(s, src, bucket.value, key.value)
  }

  /** `zip(a, b)`: pairs up to the shorter list. */
  function Zip<A, B>(a: seq<A>, b: seq<B>): (r: seq<(A, B)>)
    ensures |r| == if |a| <= |b| then |a| else |b|
    ensures forall i :: 0 <= i < |r| ==> r[i] == (a[i], b[i])
  {
    if a == [] || b == [] then [] else [(a[0], b[0])] + Zip(a[1..], b[1..])
  }

  /** The reads of a batch of paths: one per path, in order; the first
      failure fails the whole batch. */
  function ReadAll(src: Sources, paths: seq<string>): (r: Result<seq<Ingested>>)
    ensures r.Ok? ==> |r.value| == |paths|
    ensures r.Ok? ==> forall i :: 0 <= i < |paths| ==> ReadFromPath(src, paths[i]) == Ok(r.value[i])
  {
    if paths == [] then Ok([])
    else
      var first := ReadFromPath(src, paths[0]);
      if first.Err? then Err(first.error)
      else
        var rest := ReadAll(src, paths[1..]);
        if rest.Err? then rest
        else Ok([first.value] + rest.value)
  }

  /** A batch of paths whose every read succeeds succeeds. */
  lemma {:induction false} ReadAllSucceeds(src: Sources, paths: seq<string>)
    requires forall i :: 0 <= i < |paths| ==> ReadFromPath(src, paths[i]).Ok?
    ensures ReadAll(src, paths).Ok?
  {
    if paths != [] {
      var tail := paths[1..];
      forall i | 0 <= i < |tail| ensures ReadFromPath(src, tail[i]).Ok? {
        assert tail[i] == paths[i + 1];
      }
      ReadAllSucceeds(src, tail);
      assert ReadFromPath(src, paths[0]).Ok?;
    }
  }

  /** A batch of paths fails with the error of the first read that fails. */
  lemma {:induction false} ReadAllFirstFailure(src: Sources, paths: seq<string>, k: nat)
    requires k < |paths| && ReadFromPath(src, paths[k]).Err?
    requires forall j :: 0 <= j < k ==> ReadFromPath(src, paths[j]).Ok?
    ensures ReadAll(src, paths) == Err(ReadFromPath(src, paths[k]).error)
  {
    if k > 0 {
      var tail := paths[1..];
      forall j | 0 <= j < k - 1 ensures ReadFromPath(src, tail[j]).Ok? {
        assert tail[j] == paths[j + 1];
      }
      assert tail[k - 1] == paths[k];
      ReadAllFirstFailure(src, tail, k - 1);
      assert ReadFromPath(src, paths[0]).Ok?;
    }
  }

  /** `ingest_multiple_files`: uploads are zipped with their names; paths
      are read as a batch that fails as a whole; other sources are refused. */
  function IngestMultipleFiles(src: Sources, source: Source, filePaths: Option<seq<string>>,
                               fileContents: Option<seq<Bytes>>, fileNames: Option<seq<string>>)
    : (r: Result<seq<Ingested>>)
    ensures source == Upload && fileContents.Some? && fileNames.Some? ==>
      r == Ok(Zip(fileContents.value, fileNames.value))
    ensures source == Upload && (fileContents.None? || fileNames.None?) ==> r.Err? && r.error.ValueError?
    ensures (source == LocalPath || source == NetworkPath) && filePaths.None? ==> r.Err? && r.error.ValueError?
    ensures (source == S3 || source == Azure) ==> r.Err? && r.error.ValueError?
  {
    match source
    case Upload =>
      if fileContents.None? || fileNames.None? then
        Err(ValueError("file_contents e file_names são obrigatórios para upload"))
      else Ok(Zip(fileContents.value, fileNames.value))
    case LocalPath | NetworkPath =>
      if filePaths.None? then Err(ValueError("file_paths é obrigatório")) else ReadAll(src, filePaths.value)
    case _ => Err(ValueError("Ingestão múltipla não suportada para fonte: " + SourceValue(source)))
  }

  /** A batch of paths and the single reads agree: a batch succeeds exactly
      when each path read alone succeeds, with the same bytes and names. */
  lemma BatchMatchesSingles(s: AppSettings, src: Sources, source: Source, paths: seq<string>)
    requires source == LocalPath || source == NetworkPath
    ensures IngestMultipleFiles(src, source, Some(paths), None, None).Ok? <==>
      forall i :: 0 <= i < |paths| ==> IngestFile(s, src, source, Some(paths[i]), None, None, None, None).Ok?
    ensures IngestMultipleFiles(src, source, Some(paths), None, None).Ok? ==>
      forall i :: 0 <= i < |paths| ==>
        IngestMultipleFiles(src, source, Some(paths), None, None).value[i] ==
        IngestFile(s, src, source, Some(paths[i]), None, None, None, None).value
  {
    var batch := IngestMultipleFiles(src, source, Some(paths), None, None);
    assert batch == ReadAll(src, paths);
    forall i | 0 <= i < |paths|
      ensures IngestFile(s, src, source, Some(paths[i]), None, None, None, None) == ReadFromPath(src, paths[i])
    {
    }
    if forall i :: 0 <= i < |paths| ==> ReadFromPath(src, paths[i]).Ok? {
      ReadAllSucceeds(src, paths);
    }
  }

  /** The reader's view of what the storage sink has written, with no
      failing bucket or container. */
  function View(st: FileStorage.Stores): Sources
  {
    Sources(st.files, st.dirs, st.objects, map[], "", st.blobs, map[], "")
  }

  /** A file saved locally is found again at the returned path, under its
      own name when the name has no `/`. */
  lemma LocalReadBack(st: FileStorage.Stores, b: FileStorage.Backends, content: string, fileName: string, dir: string)
    requires FileStorage.LocalSave(st, b, content, fileName, dir).0.Ok?
    requires '/' !in fileName
    ensures var (loc, st') := FileStorage.LocalSave(st, b, content, fileName, dir);
      ReadFromPath(View(st'), loc.value) == Ok((Encode(content), fileName))
  {
    assert fileName == [] || fileName[0] != '/' by {
      if fileName != [] { assert fileName[0] in fileName; }
    }
    if dir == [] {
      AfterLastNone(fileName, '/');
    } else if dir[|dir| - 1] == '/' {
      assert dir == dir[..|dir| - 1] + ['/'];
      AfterLastSuffix(dir[..|dir| - 1], '/', fileName);
    } else {
      AfterLastSuffix(dir, '/', fileName);
    }
  }

  /** A file saved locally and ingested from the returned path comes back
      with the same bytes, and under its own name when the name has no `/`. */
  lemma LocalRoundTrip(s: AppSettings, st: FileStorage.Stores, b: FileStorage.Backends, content: string,
                       fileName: string, dir: string)
    requires FileStorage.LocalSave(st, b, content, fileName, dir).0.Ok?
    requires '/' !in fileName
    ensures var (loc, st') := FileStorage.LocalSave(st, b, content, fileName, dir);
      IngestFile(s, View(st'), LocalPath, Some(loc.value), None, None, None, None) == Ok((Encode(content), fileName))
  {
    LocalReadBack(st, b, content, fileName, dir);
  }

  /** An object saved to S3 reads back with the same bytes and with the
      key's last segment as name. */
  lemma S3RoundTrip(s: AppSettings, st: FileStorage.Stores, b: FileStorage.Backends, content: string,
                    bucket: string, key: string)
    requires FileStorage.S3Save(s, st, b, content, bucket, key).0.Ok?
    ensures IngestFile(s, View(FileStorage.S3Save(s, st, b, content, bucket, key).1), S3, None, None, None,
                       Some(bucket), Some(key)) ==
      Ok((Encode(content), AfterLast(key, '/')))
  {
  }

  /** A batch item saved to S3 under a prefix reads back under its own name. */
  lemma S3BatchRoundTrip(s: AppSettings, st: FileStorage.Stores, b: FileStorage.Backends, content: string,
                         bucket: string, prefix: Option<string>, fileName: string)
    requires FileStorage.S3Save(s, st, b, content, bucket, FileStorage.ObjectName(prefix, fileName)).0.Ok?
    requires '/' !in fileName
    ensures var key := FileStorage.ObjectName(prefix, fileName);
      IngestFile(s, View(FileStorage.S3Save(s, st, b, content, bucket, key).1), S3, None, None, None,
                 Some(bucket), Some(key)) ==
      Ok((Encode(content), fileName))
  {
    FileStorage.ObjectNameBasename(prefix, fileName);
    AfterLastNone(fileName, '/');
  }

  /** A blob saved to Azure reads back with the same bytes and with the
      blob's last segment as name. */
  lemma AzureRoundTrip(s: AppSettings, st: FileStorage.Stores, b: FileStorage.Backends, content: string,
                       container: string, blob: string)
    requires FileStorage.AzureSave(s, st, b, content, container, blob).0.Ok?
    ensures IngestFile(s, View(FileStorage.AzureSave(s, st, b, content, container, blob).1), Azure, None, None, None,
                       Some(container), Some(blob)) ==
      Ok((Encode(content), AfterLast(blob, '/')))
  {
  }
}
