/** The storage sink (modules/file_storage.py): processed text saved to a
    local directory, a network directory, an S3 bucket or an Azure Blob
    container. The filesystem, the buckets and the containers are maps held
    by the service; what the outside world refuses to do (a directory that
    cannot be created, a bucket or container whose calls fail) is fixed when
    the service is built. */
module FileStorage {
  import opened Outcomes
  import opened Text
  import opened Settings
  import opened Utf8

  /** `StorageDestination`. */
  datatype Destination = Local | NetworkPath | S3 | Azure

  /** The external state a save changes. */
  datatype Stores = Stores(
    dirs: set<string>,                         // existing directories
    files: map<string, Bytes>,                 // file path -> bytes
    objects: map<(string, string), Bytes>,     // (bucket, key) -> S3 object body
    containers: set<string>,                   // existing Azure containers
    blobs: map<(string, string), Bytes>)       // (container, blob) -> blob body

  /** How the outside world answers. */
  datatype Backends = Backends(
    azureAccount: string,                 // account named by the connection string
    mkdirErrors: map<string, string>,     // directory -> text of the error creating it
    s3Errors: map<string, string>,        // bucket -> text of the ClientError it raises
    azureErrors: map<string, string>)     // container -> text of the error its calls raise

  const AwsMissing: string := "Credenciais AWS não configuradas"
  const AzureMissing: string := "Azure Storage connection string não configurada"
  const NetworkPathRequired: string := "destination_path é obrigatório para network_path"

  function S3Uri(bucket: string, key: string): string
  {
    "s3://" + bucket + "/" + key
  }

  function AzureUri(account: string, container: string, blob: string): string
  {
    "https://" + account + ".blob.core.windows.net/" + container + "/" + blob
  }

  /** Reads an `s3://bucket/key` location back into its bucket and key. */
  function ParseS3Uri(u: string): Option<(string, string)>
  {
    if |u| >= 5 && u[..5] == "s3://" then SplitAtFirst(u[5..], '/') else None
  }

  /** An `s3://` location names the bucket and key it was built from. */
  lemma S3UriRoundTrip(bucket: string, key: string)
    requires '/' !in bucket
    ensures ParseS3Uri(S3Uri(bucket, key)) == Some((bucket, key))
  {
    var u := S3Uri(bucket, key);
    assert u[..5] == "s3://" && u[5..] == bucket + ['/'] + key;
    SplitAtFirstConcat(bucket, '/', key);
  }

  const AzureHost: string := ".blob.core.windows.net"

  /** Reads an Azure blob URI back into account, container and blob. */
  function ParseAzureUri(u: string): Option<(string, string, string)>
  {
    if |u| < 8 || u[..8] != "https://" then None
    else
      match SplitAtFirst(u[8..], '/')
      case None => None
      case Some(hostPath) =>
        var (host, path) := hostPath;
        if |host| < |AzureHost| || host[|host| - |AzureHost|..] != AzureHost then None
        else
          match SplitAtFirst(path, '/')
          case None => None
          case Some(parts) => Some((host[..|host| - |AzureHost|], parts.0, parts.1))
  }

  /** An Azure blob URI names the account, container and blob it was built from. */
  lemma AzureUriRoundTrip(account: string, container: string, blob: string)
    requires '/' !in account && '/' !in container
    ensures ParseAzureUri(AzureUri(account, container, blob)) == Some((account, container, blob))
  {
    var u := AzureUri(account, container, blob);
    var host := account + AzureHost;
    var path := container + "/" + blob;
    assert u[..8] == "https://";
    assert u[8..] == host + ['/'] + path;
    assert '/' !in AzureHost;
    assert '/' !in host by {
      forall i | 0 <= i < |host| ensures host[i] != '/' {
        if i < |account| { assert host[i] == account[i]; } else { assert host[i] == AzureHost[i - |account|]; }
      }
    }
    SplitAtFirstConcat(host, '/', path);
    assert host[|host| - |AzureHost|..] == AzureHost;
    assert host[..|host| - |AzureHost|] == account;
    SplitAtFirstConcat(container, '/', blob);
  }

  /** The object or blob name of one batch item: under `prefix/` when a
      non-empty prefix is given. */
  function ObjectName(prefix: Option<string>, fileName: string): (r: string)
    ensures !Truthy(prefix) ==> r == fileName
    ensures Truthy(prefix) ==> StartsWith(r, prefix.value + "/")
    ensures |fileName| <= |r| && r[|r| - |fileName|..] == fileName
  {
    if Truthy(prefix) then prefix.value + "/" + fileName else fileName
  }

  /** The prefix never changes the last path segment of the name, so reading
      the object back gives the file name again. */
  lemma ObjectNameBasename(prefix: Option<string>, fileName: string)
    ensures AfterLast(ObjectName(prefix, fileName), '/') == AfterLast(fileName, '/')
  {
    if Truthy(prefix) {
      AfterLastAppend(prefix.value, '/', fileName);
    }
  }

  /** `_save_to_local`: the directory is created (with its parents) unless it
      exists, then the file `os.path.join(dir, file_name)` is written. A
      directory that cannot be created fails with the OS error as it is. */
  function LocalSave(st: Stores, b: Backends, content: string, fileName: string, dir: string)
    : (out: (Result<string>, Stores))
    ensures out.0.Err? <==> dir !in st.dirs && dir in b.mkdirErrors
    ensures out.0.Err? ==> out == (Err(IOError(b.mkdirErrors[dir])), st)
    ensures out.0.Ok? ==> (out.0.value == PathJoin(dir, fileName) && out.0.value in out.1.files &&
      out.1.files[out.0.value] == Encode(content) && dir in out.1.dirs)
    ensures out.0.Ok? ==>
      out.1 == st.(dirs := st.dirs + {dir}, files := st.files[PathJoin(dir, fileName) := Encode(content)])
  {
    if dir !in st.dirs && dir in b.mkdirErrors then (Err(IOError(b.mkdirErrors[dir])), st)
    else
      var path := PathJoin(dir, fileName);
      (Ok(path), st.(dirs := st.dirs + {dir}, files := st.files[path := Encode(content)]))
  }

  /** `_save_to_network`: as a local save, except that a directory that
      cannot be created is reported as an `IOError` naming it. */
  function NetworkSave(st: Stores, b: Backends, content: string, fileName: string, dir: string)
    : (out: (Result<string>, Stores))
    ensures out.0.Err? <==> dir !in st.dirs && dir in b.mkdirErrors
    ensures out.0.Err? ==> out == (Err(IOError("Não foi possível acessar ou criar o diretório de rede: " +
      dir + ". Erro: " + b.mkdirErrors[dir])), st)
    ensures out.0.Ok? ==> out == LocalSave(st, b, content, fileName, dir)
  {
    if dir !in st.dirs && dir in b.mkdirErrors then
      (Err(IOError("Não foi possível acessar ou criar o diretório de rede: " + dir + ". Erro: " +
        b.mkdirErrors[dir])), st)
    else
      var path := PathJoin(dir, fileName);
      (Ok(path), st.(dirs := st.dirs + {dir}, files := st.files[path := Encode(content)]))
  }

  /** `_save_to_s3`: missing credentials raise `ValueError` (not wrapped); a
      `ClientError` becomes `IOError`; otherwise the encoded text is put under
      the key and its `s3://` location returned. */
  function S3Save(s: AppSettings, st: Stores, b: Backends, content: string, bucket: string, key: string)
    : (out: (Result<string>, Stores))
    ensures !HasAwsCredentials(s) ==> out == (Err(ValueError(AwsMissing)), st)
    ensures HasAwsCredentials(s) && bucket in b.s3Errors ==>
      out == (Err(IOError("Erro ao salvar arquivo no S3: " + b.s3Errors[bucket])), st)
    ensures out.0.Ok? <==> HasAwsCredentials(s) && bucket !in b.s3Errors
    ensures out.0.Ok? ==> out.0.value == S3Uri(bucket, key)
    ensures out.0.Ok? ==> out.1 == st.(objects := st.objects[(bucket, key) := Encode(content)])
  {
    if !HasAwsCredentials(s) then (Err(ValueError(AwsMissing)), st)
    else if bucket in b.s3Errors then (Err(IOError("Erro ao salvar arquivo no S3: " + b.s3Errors[bucket])), st)
    else
      (Ok(S3Uri(bucket, key)), st.(objects := st.objects[(bucket, key) := Encode(content)]))
  }

  /** `_save_to_azure`: every failure, a missing connection string included,
      comes out as `IOError`; otherwise the container exists afterwards and the
      blob holds the encoded text. */
  function AzureSave(s: AppSettings, st: Stores, b: Backends, content: string, container: string, blob: string)
    : (out: (Result<string>, Stores))
    ensures out.0.Err? ==> out.0.error.IOError? && out.1 == st
    ensures !Truthy(s.azureStorageConnectionString) ==>
      out.0 == Err(IOError("Erro ao salvar arquivo no Azure: " + AzureMissing))
    ensures out.0.Ok? <==> Truthy(s.azureStorageConnectionString) && container !in b.azureErrors
    ensures out.0.Ok? ==> (out.0.value == AzureUri(b.azureAccount, container, blob) &&
      out.1 == st.(containers := st.containers + {container}, blobs := st.blobs[(container, blob) := Encode(content)]))
  {
    if !Truthy(s.azureStorageConnectionString) then
      (Err(IOError("Erro ao salvar arquivo no Azure: " + AzureMissing)), st)
    else if container in b.azureErrors then
      (Err(IOError("Erro ao salvar arquivo no Azure: " + b.azureErrors[container])), st)
    else
      (Ok(AzureUri(b.azureAccount, container, blob)),
       st.(containers := st.containers + {container}, blobs := st.blobs[(container, blob) := Encode(content)]))
  }

  /** `save_file`: a local save uses the default directory when none is
      given; a network path, S3 or Azure without its parameters is a
      `ValueError` and changes nothing; otherwise the destination's own save. */
  function FileSave(s: AppSettings, st: Stores, b: Backends, content: string, fileName: string,
                    destination: Destination, destinationPath: Option<string>, bucket: Option<string>,
                    key: Option<string>, container: Option<string>, blob: Option<string>)
    : (out: (Result<string>, Stores))
  {
    match destination
    case Local =>
      LocalSave(st, b, content, fileName, if destinationPath.Some? then destinationPath.value else s.defaultOutputPath)
    case NetworkPath =>
      if destinationPath.None? then (Err(ValueError(NetworkPathRequired)), st)
      else NetworkSave(st, b, content, fileName, destinationPath.value)
    case S3 =>
      if bucket.None? || key.None? then (Err(ValueError("bucket_name e object_key são obrigatórios para S3")), st)
      else S3Save(s, st, b, content, bucket.value, key.value)
    case Azure =>
      if container.None? || blob.None? then (Err(ValueError("container_name e blob_name são obrigatórios para Azure")), st)
      else AzureSave(s, st, b, content, container.value, blob.value)
  }

  /** The parameters every item of a batch shares. */
  datatype Batch = Batch(
    destination: Destination,
    destinationPath: Option<string>,
    bucket: Option<string>,
    container: Option<string>,
    prefix: Option<string>)

  /** One item of `save_multiple_files`: S3 and Azure items go straight to the
      backend under the prefixed name (a `None` bucket or container makes the
      item fail without writing); the others go through `save_file`. Only
      success or failure is kept: the batch swallows the error. */
  function ItemSave(s: AppSettings, st: Stores, b: Backends, item: (string, string), batch: Batch)
    : (out: (Option<string>, Stores))
    ensures out.0.None? ==> out.1 == st
  {
    var (content, fileName) := item;
    var r :=
      match batch.destination
      case S3 =>
        if batch.bucket.None? then (Err(ValueError(AwsMissing)), st)
        else S3Save(s, st, b, content, batch.bucket.value, ObjectName(batch.prefix, fileName))
      case Azure =>
        if batch.container.None? then (Err(IOError(AzureMissing)), st)
        else AzureSave(s, st, b, content, batch.container.value, ObjectName(batch.prefix, fileName))
      case Local =>
        LocalSave(st, b, content, fileName,
                  if batch.destinationPath.Some? then batch.destinationPath.value else s.defaultOutputPath)
      case NetworkPath =>
        if batch.destinationPath.None? then (Err(ValueError(NetworkPathRequired)), st)
        else NetworkSave(st, b, content, fileName, batch.destinationPath.value);
    (if r.0.Ok? then Some(r.0.value) else None, r.1)
  }

  /** Where a batch item lands when its save succeeds. */
  function ItemLocation(s: AppSettings, b: Backends, fileName: string, batch: Batch): string
  {
    match batch.destination
    case S3 => S3Uri(if batch.bucket.Some? then batch.bucket.value else "", ObjectName(batch.prefix, fileName))
    case Azure =>
      AzureUri(b.azureAccount, if batch.container.Some? then batch.container.value else "",
               ObjectName(batch.prefix, fileName))
    case _ =>
      PathJoin(if batch.destinationPath.Some? then batch.destinationPath.value else s.defaultOutputPath, fileName)
  }

  /** The items saved one after another, in order, each on the state the
      previous ones left: one outcome per item, whatever the others did. */
  function SaveEach(s: AppSettings, st: Stores, b: Backends, items: seq<(string, string)>, batch: Batch)
    : (out: (seq<Option<string>>, Stores))
    ensures |out.0| == |items|
    ensures forall i :: 0 <= i < |items| && out.0[i].Some? ==>
      out.0[i].value == ItemLocation(s, b, items[i].1, batch)
    decreases |items|
  {
    if items == [] then ([], st)
    else
      var last := |items| - 1;
      var before := SaveEach(s, st, b, items[..last], batch);
      var one := ItemSave(s, before.1, b, items[last], batch);
      (before.0 + [one.0], one.1)
  }

  /** The locations of the items that succeeded, in order. */
  function Present(outcomes: seq<Option<string>>): (r: seq<string>)
    ensures |r| <= |outcomes|
  {
    if outcomes == [] then []
    else
      var rest := Present(outcomes[..|outcomes| - 1]);
      match outcomes[|outcomes| - 1]
      case Some(loc) => rest + [loc]
      case None => rest
  }

  /** Every location a batch returns is the location of one of its items, and
      the order of the items is kept: the k-th location belongs to an item at
      or after position k. */
  lemma {:induction false} PresentLocations(outcomes: seq<Option<string>>, loc: seq<string>)
    requires |loc| == |outcomes|
    requires forall i :: 0 <= i < |outcomes| && outcomes[i].Some? ==> outcomes[i].value == loc[i]
    ensures forall k :: 0 <= k < |Present(outcomes)| ==>
      exists i :: k <= i < |outcomes| && Present(outcomes)[k] == loc[i]
  {
    if outcomes != [] {
      var last := |outcomes| - 1;
      var init := outcomes[..last];
      PresentLocations(init, loc[..last]);
      var q := Present(init);
      var p := Present(outcomes);
      forall k | 0 <= k < |p| ensures exists i :: k <= i < |outcomes| && p[k] == loc[i] {
        if k < |q| {
          assert p[..|q|] == q;
          var i :| k <= i < last && q[k] == loc[..last][i];
          assert p[k] == loc[i];
        } else {
          assert outcomes[last].Some? && p == q + [outcomes[last].value];
          assert p[k] == loc[last];
        }
      }
      assert forall k :: 0 <= k < |Present(outcomes)| ==> exists i :: k <= i < |outcomes| && Present(outcomes)[k] == loc[i];
    } else {
      assert |Present(outcomes)| == 0;
    }
  }

  /** When every item succeeds, the batch returns every item's location. */
  lemma {:induction false} PresentAll(outcomes: seq<Option<string>>)
    requires forall i :: 0 <= i < |outcomes| ==> outcomes[i].Some?
    ensures |Present(outcomes)| == |outcomes|
    ensures forall i :: 0 <= i < |outcomes| ==> Present(outcomes)[i] == outcomes[i].value
  {
    if outcomes != [] {
      PresentAll(outcomes[..|outcomes| - 1]);
    }
  }

  /** A batch to S3 without credentials saves nothing and changes nothing. */
  lemma {:induction false} SaveEachWithoutCredentials(s: AppSettings, st: Stores, b: Backends,
                                                        items: seq<(string, string)>, batch: Batch)
    requires batch.destination == S3 && !HasAwsCredentials(s)
    ensures SaveEach(s, st, b, items, batch).1 == st
    ensures Present(SaveEach(s, st, b, items, batch).0) == []
    decreases |items|
  {
    if items != [] {
      SaveEachWithoutCredentials(s, st, b, items[..|items| - 1], batch);
    }
  }

  class FileStorageService {
    const settings: AppSettings
    const backends: Backends
    var dirs: set<string>
    var files: map<string, Bytes>
    var objects: map<(string, string), Bytes>
    var containers: set<string>
    var blobs: map<(string, string), Bytes>

    function Snapshot(): Stores
      reads this
    {
      Stores(dirs, files, objects, containers, blobs)
    }

    /** `__init__` creates the default output directory. */
    constructor(settings: AppSettings, backends: Backends, initial: Stores)
      requires settings.defaultOutputPath in initial.dirs || settings.defaultOutputPath !in backends.mkdirErrors
      ensures this.settings == settings && this.backends == backends
      ensures Snapshot() == initial.(dirs := initial.dirs + {settings.defaultOutputPath})
    {
      this.settings := settings;
      this.backends := backends;
      dirs := initial.dirs + {settings.defaultOutputPath};
      files := initial.files;
      objects := initial.objects;
      containers := initial.containers;
      blobs := initial.blobs;
    }

    method SaveToLocal(content: string, fileName: string, dir: string) returns (r: Result<string>)
      modifies this
      ensures (r, Snapshot()) == LocalSave(old(Snapshot()), backends, content, fileName, dir)
    {
      if dir !in dirs && dir in backends.mkdirErrors {
        return Err(IOError(backends.mkdirErrors[dir]));
      }
      dirs := dirs + {dir};
      var path := PathJoin(dir, fileName);
      files := files[path := Encode(content)];
      r := Ok(path);
    }

    method SaveToNetwork(content: string, fileName: string, dir: string) returns (r: Result<string>)
      modifies this
      ensures (r, Snapshot()) == NetworkSave(old(Snapshot()), backends, content, fileName, dir)
    {
      if dir !in dirs {
        if dir in backends.mkdirErrors {
          return Err(IOError("Não foi possível acessar ou criar o diretório de rede: " + dir + ". Erro: " +
            backends.mkdirErrors[dir]));
        }
        dirs := dirs + {dir};
      } else {
        assert dirs + {dir} == dirs;
      }
      var path := PathJoin(dir, fileName);
      files := files[path := Encode(content)];
      r := Ok(path);
    }

    method SaveToS3(content: string, bucket: string, key: string) returns (r: Result<string>)
      modifies this
      ensures (r, Snapshot()) == S3Save(settings, old(Snapshot()), backends, content, bucket, key)
    {
      if !HasAwsCredentials(settings) {
        return Err(ValueError(AwsMissing));
      }
      if bucket in backends.s3Errors {
        return Err(IOError("Erro ao salvar arquivo no S3: " + backends.s3Errors[bucket]));
      }
      objects := objects[(bucket, key) := Encode(content)];
      r := Ok(S3Uri(bucket, key));
    }

    method SaveToAzure(content: string, container: string, blob: string) returns (r: Result<string>)
      modifies this
      ensures (r, Snapshot()) == AzureSave(settings, old(Snapshot()), backends, content, container, blob)
    {
      if !Truthy(settings.azureStorageConnectionString) {
        return Err(IOError("Erro ao salvar arquivo no Azure: " + AzureMissing));
      }
      if container in backends.azureErrors {
        return Err(IOError("Erro ao salvar arquivo no Azure: " + backends.azureErrors[container]));
      }
      containers := containers + {container};
      blobs := blobs[(container, blob) := Encode(content)];
      r := Ok(AzureUri(backends.azureAccount, container, blob));
    }

    method SaveFile(content: string, fileName: string, destination: Destination,
                    destinationPath: Option<string>, bucket: Option<string>, key: Option<string>,
                    container: Option<string>, blob: Option<string>)
      returns (r: Result<string>)
      modifies this
      ensures (r, Snapshot()) == FileSave(settings, old(Snapshot()), backends, content, fileName, destination,
        destinationPath, bucket, key, container, blob)
    {
      ghost var spec := FileSave(settings, Snapshot(), backends, content, fileName, destination,
        destinationPath, bucket, key, container, blob);
      match destination
      case Local =>
        var dir := if destinationPath.None? then settings.defaultOutputPath else destinationPath.value;
        assert spec == LocalSave(Snapshot(), backends, content, fileName, dir);
        r := SaveToLocal(content, fileName, dir);
      case NetworkPath =>
        if destinationPath.None? {
          r := Err(ValueError(NetworkPathRequired));
        } else {
          assert spec == NetworkSave(Snapshot(), backends, content, fileName, destinationPath.value);
          r := SaveToNetwork(content, fileName, destinationPath.value);
        }
      case S3 =>
        if bucket.None? || key.None? {
          r := Err(ValueError("bucket_name e object_key são obrigatórios para S3"));
        } else {
          assert spec == S3Save(settings, Snapshot(), backends, content, bucket.value, key.value);
          r := SaveToS3(content, bucket.value, key.value);
        }
      case Azure =>
        if container.None? || blob.None? {
          r := Err(ValueError("container_name e blob_name são obrigatórios para Azure"));
        } else {
          assert spec == AzureSave(settings, Snapshot(), backends, content, container.value, blob.value);
          r := SaveToAzure(content, container.value, blob.value);
        }
    }

    /** One batch item, with its failure swallowed. */
    method SaveItem(item: (string, string), batch: Batch) returns (loc: Option<string>)
      modifies this
      ensures (loc, Snapshot()) == ItemSave(settings, old(Snapshot()), backends, item, batch)
    {
      var (content, fileName) := item;
      var r: Result<string>;
      match batch.destination {
        case S3 =>
          if batch.bucket.None? {
            return None;
          }
          r := SaveToS3(content, batch.bucket.value, ObjectName(batch.prefix, fileName));
        case Azure =>
          if batch.container.None? {
            return None;
          }
          r := SaveToAzure(content, batch.container.value, ObjectName(batch.prefix, fileName));
        case _ =>
          r := SaveFile(content, fileName, batch.destination, batch.destinationPath, None, None, None, None);
      }
      loc := if r.Ok? then Some(r.value) else None;
    }

    /** `save_multiple_files`: every item is tried, in order; a failing item
        is skipped and the locations of the others are returned in order. */
    method SaveMultipleFiles(items: seq<(string, string)>, batch: Batch) returns (saved: seq<string>)
      modifies this
      ensures var out := SaveEach(settings, old(Snapshot()), backends, items, batch);
        saved == Present(out.0) && Snapshot() == out.1
    {
      saved := [];
      ghost var outcomes: seq<Option<string>> := [];
      var i := 0;
      while i < |items|
        invariant 0 <= i <= |items|
        invariant (outcomes, Snapshot()) == SaveEach(settings, old(Snapshot()), backends, items[..i], batch)
        invariant saved == Present(outcomes)
      {
        assert items[..i + 1][..i] == items[..i];
        var loc := SaveItem(items[i], batch);
        assert (outcomes + [loc])[..i] == outcomes;
        outcomes := outcomes + [loc];
        if loc.Some? {
          saved := saved + [loc.value];
        }
        i := i + 1;
      }
      assert items[..i] == items;
    }
  }
}
