/**
 * `RegistryClient` of the job-cacher ORAS storage: it maps a cache key (a job's full
 * name and a path) onto one artifact, tagged `latest`, in an OCI registry.
 */
module Client {
  import opened Results
  import opened Strings
  import opened Oras

  /** `ARTIFACT_MEDIA_TYPE`. */
  const ArtifactMediaType := "application/vnd.jenkins.jobcacher.manifest.v1+json"
  /** `CONTENT_MEDIA_TYPE` up to its `%s`. */
  const ContentMediaTypeStem := "application/vnd.jenkins.jobcacher.content.v1."
  /** The prefix `download` looks for among several layers. */
  const ContentLayerPrefix := "application/vnd.jenkins.jobcacher.content"
  const IconMediaType := "image/png"
  const FullNameAnnotation := "io.jenkins.jobcacher.fullname"
  const IconAnnotation := "io.goharbor.artifact.v1alpha1.icon"
  /** File name of the bundled resource `/images/jobcacher-oras.png`. */
  const IconFileName := "jobcacher-oras.png"
  /** Repository name, below the namespace, and file content of the connection probe. */
  const ProbeName := "jenkins-oras-plugin-test"
  const CompressionKinds := {"tar", "zip", "tar+gzip", "tar+zstd"}

  /** The exceptions the client's operations can end in. */
  datatype ClientError =
    | RegistryFailure(cause: RegistryError)  // an `OrasException` of the registry
    | NoLayer                                 // "Artifact manifest doesn't contain any layer"
    | NoContentLayer                          // "Artifact manifest doesn't contain any content layer"
    | NullDigest                              // "Layer digest cannot be null"
    | IconNotFound                            // "Image resource not found"
    | IndexOutOfBounds                        // `substring(-1)` on a path without a dot

  /** `RegistryConfig` without its credentials. */
  datatype RegistryConfig = RegistryConfig(registryUrl: string, namespace: string)

  /** The file `upload` reads its content from. */
  datatype SourceFile = SourceFile(name: string, content: Bytes)

  /**
   * `path.substring(path.lastIndexOf(".")).replace(".", "")`: the text after the last
   * dot; a path without a dot makes `substring(-1)` throw.
   */
  function Extension(path: string): (r: Result<string, ClientError>)
    ensures r.Failure? <==> '.' !in path
    ensures r.Failure? ==> r.error == IndexOutOfBounds
    ensures r.Success? ==>
      exists k :: 0 <= k < |path| && path[k] == '.' && '.' !in path[k + 1..] && r.value == path[k + 1..]
  {
    var i := LastIndexOf(path, '.');
    match Substring(path, i)
    case None => Failure(IndexOutOfBounds)
    case Some(tail) =>
      TailAfterLastDot(path, i);
      Success(RemoveAll(tail, '.'))
  }

  /** From the last dot on, removing dots leaves exactly the text after that dot. */
  lemma TailAfterLastDot(path: string, i: int)
    requires i == LastIndexOf(path, '.') && 0 <= i
    ensures RemoveAll(path[i..], '.') == path[i + 1..]
    ensures '.' !in path[i + 1..]
  {
    var tail := path[i..];
    assert tail[0] == '.' && tail[1..] == path[i + 1..];
    assert '.' !in path[i + 1..];
  }

  /** The `switch` from extension to compression kind, exact and case-sensitive. */
  function Compression(extension: string): (kind: string)
    ensures kind in CompressionKinds
  {
    match extension
    case "tar" => "tar"
    case "zip" => "zip"
    case "gz" => "tar+gzip"
    case "zst" => "tar+zstd"
    case _ => "tar"
  }

  /** The compression kind `upload` derives from a cache path. */
  function Kind(path: string): (r: Result<string, ClientError>)
    ensures r.Success? ==> r.value in CompressionKinds
    ensures r.Failure? <==> '.' !in path
  {
    var extension :- Extension(path);
    Success(Compression(extension))
  }

  /** `CONTENT_MEDIA_TYPE.formatted(kind)`; it always carries the prefix `download` selects on. */
  function ContentMediaType(kind: string): (t: string)
    ensures StartsWith(t, ContentLayerPrefix)
  {
    assert (ContentMediaTypeStem + kind)[..|ContentLayerPrefix|] == ContentLayerPrefix;
    ContentMediaTypeStem + kind
  }

  /** `"%s/%s:latest".formatted(fullName, path)`. */
  function BuildRef(fullName: string, path: string): string {
    fullName + "/" + path + ":latest"
  }

  /** `buildRef`: the reference string, parsed; the namespace plays no part. */
  function RefOf(fullName: string, path: string): (r: ContainerRef)
    ensures r == ContainerRef(fullName + "/" + path, "latest")
  {
    LatestIsTag(fullName + "/" + path);
    ParseRef(BuildRef(fullName, path))
  }

  /** A reference ending in `:latest` is parsed as tag `latest` of everything before it. */
  lemma LatestIsTag(repository: string)
    ensures ParseRef(repository + ":latest") == ContainerRef(repository, "latest")
  {
    var s := repository + ":latest";
    assert s[|repository|] == ':';
    assert forall j :: |repository| < j < |s| ==> s[j] in "latest";
    LastIndexOfIs(s, ':', |repository|);
    assert s[..|repository|] == repository;
  }

  /** The `filter` of `download`: a layer whose media type has the content prefix. */
  predicate IsContentLayer(l: Layer) {
    StartsWith(l.mediaType, ContentLayerPrefix)
  }

  /** `stream().filter(IsContentLayer).findFirst()`, as an index. */
  function FirstContentLayer(layers: seq<Layer>): (i: Option<nat>)
    ensures i.Some? ==> i.value < |layers| && IsContentLayer(layers[i.value])
    ensures i.Some? ==> forall j :: 0 <= j < i.value ==> !IsContentLayer(layers[j])
    ensures i.None? ==> forall j :: 0 <= j < |layers| ==> !IsContentLayer(layers[j])
  {
    if layers == [] then None
    else if IsContentLayer(layers[0]) then Some(0)
    else match FirstContentLayer(layers[1..])
      case None => None
      case Some(k) => Some(k + 1)
  }

  /**
   * The layer `download` reads: none of an empty manifest, the only one of a single-layer
   * manifest, otherwise the first content layer, if any.
   */
  function SelectLayer(layers: seq<Layer>): (r: Result<Layer, ClientError>)
    ensures |layers| == 0 ==> r == Failure(NoLayer)
    ensures |layers| == 1 ==> r == Success(layers[0])
    ensures |layers| >= 2 && r.Success? ==>
      exists i :: 0 <= i < |layers| && r.value == layers[i] && IsContentLayer(layers[i])
        && forall j :: 0 <= j < i ==> !IsContentLayer(layers[j])
    ensures |layers| >= 2 && r.Failure? ==>
      r.error == NoContentLayer && forall j :: 0 <= j < |layers| ==> !IsContentLayer(layers[j])
  {
    if |layers| == 0 then Failure(NoLayer)
    else if |layers| == 1 then Success(layers[0])
    else match FirstContentLayer(layers)
      case None => Failure(NoContentLayer)
      case Some(i) => Success(layers[i])
  }

  /** What `download` yields from a store: the blob of the selected layer of the tagged manifest. */
  function DownloadResult(s: Store, failing: set<Primitive>, ref: ContainerRef): Result<Bytes, ClientError> {
    if Primitive.GetManifest in failing then Failure(RegistryFailure(Unreachable))
    else match ManifestAt(s, ref)
      case Failure(e) => Failure(RegistryFailure(e))
      case Success(m) =>
        match SelectLayer(m.layers)
        case Failure(e) => Failure(e)
        case Success(layer) =>
          if layer.digest.None? then Failure(NullDigest)
          else if Primitive.FetchBlob in failing then Failure(RegistryFailure(Unreachable))
          else match BlobAt(s, layer.digest.value)
            case Failure(e) => Failure(RegistryFailure(e))
            case Success(b) => Success(b)
  }

  /** The annotations of an upload: the job's full name on the manifest, the icon marker on the image. */
  function UploadAnnotations(fullName: string): Annotations {
    Annotations(map[FullNameAnnotation := fullName], map[IconFileName := map[IconAnnotation := ""]])
  }

  /** The files of an upload, content first and image second. */
  function UploadFiles(source: SourceFile, kind: string, icon: Bytes): seq<LocalPath> {
    [LocalPath(source.name, source.content, ContentMediaType(kind)), LocalPath(IconFileName, icon, IconMediaType)]
  }

  /** The manifest an upload pushes. */
  function UploadedManifest(fullName: string, source: SourceFile, kind: string, icon: Bytes): Manifest {
    ArtifactManifest(ArtifactMediaType, UploadAnnotations(fullName), EmptyConfig, UploadFiles(source, kind, icon))
  }

  /** `testConnection`'s reference: the probe repository below the configured namespace. */
  function ProbeRef(namespace: string): (r: ContainerRef)
    ensures r == ContainerRef(namespace + "/" + ProbeName, "latest")
  {
    LatestIsTag(namespace + "/" + ProbeName);
    ParseRef(namespace + "/" + ProbeName + ":latest")
  }

  /** The temporary file's content, written as UTF-8. */
  function ProbeContent(): Bytes {
    AsciiBytes(ProbeName)
  }

  /** `Manifest.empty().withLayers(List.of(layer))` for the probe's blob layer. */
  function ProbeManifest(): Manifest {
    Manifest(None, map[], EmptyConfig, [BlobLayer(ProbeContent())])
  }

  /** `testConnection` fails exactly when one of its four registry calls fails. */
  function ProbeOutcome(failing: set<Primitive>): Outcome<ClientError> {
    if Primitive.PushBlob in failing || Primitive.PushConfig in failing
       || Primitive.PushManifest in failing || Primitive.DeleteManifest in failing
    then Fail(RegistryFailure(Unreachable))
    else Pass
  }

  /** The store `testConnection` leaves: the steps before the first failing call take effect. */
  function ProbedStore(s: Store, failing: set<Primitive>, ref: ContainerRef): (r: Store)
    requires Consistent(s)
    ensures Consistent(r)
  {
    if Primitive.PushBlob in failing then s
    else
      var withBlob := PutBlob(s, ProbeContent());
      if Primitive.PushConfig in failing then withBlob
      else
        var withConfig := PutBlob(withBlob, ConfigBytes(EmptyConfig));
        if Primitive.PushManifest in failing then withConfig
        else
          var pushed := PutManifest(withConfig, ref, ProbeManifest());
          if Primitive.DeleteManifest in failing then pushed
          else DropManifest(pushed, ref.repository, ManifestDigest(ProbeManifest()))
  }

  class RegistryClient {
    const config: RegistryConfig
    /** The registry connection, injected rather than built from the credentials. */
    const registry: Registry
    /** The bundled image resource, `None` when the class path lacks it. */
    const icon: Option<Bytes>

    constructor (config: RegistryConfig, registry: Registry, icon: Option<Bytes>)
      ensures this.config == config && this.registry == registry && this.icon == icon
    {
      this.config := config;
      this.registry := registry;
      this.icon := icon;
    }

    /**
     * `exists`: tag `latest` is listed and its manifest then fetched; every registry
     * failure on the way reads as absence.
     */
    method Exists(fullName: string, path: string) returns (b: bool)
      ensures b <==> && Primitive.GetTags !in registry.failing
                     && Primitive.GetManifest !in registry.failing
                     && ManifestAt(registry.store, RefOf(fullName, path)).Success?
    {
      var ref := RefOf(fullName, path);
      assert ref in registry.store.tags ==> ref.tag in TagsOf(registry.store, ref.repository);
      var tags := registry.GetTags(ref);
      if tags.Failure? {
        return false;
      }
      var tagged := "latest" in tags.value;
      assert tagged <==> ref in registry.store.tags by {
        if tagged {
          var t :| t in registry.store.tags && t.repository == ref.repository && t.tag == "latest";
          assert t == ref;
        }
      }
      if tagged {
        var manifest := registry.GetManifest(ref);
        if manifest.Failure? {
          return false;
        }
      }
      return tagged;
    }

    /** `delete`: deletes the manifest the reference names, with no check beforehand. */
    method Delete(fullName: string, path: string) returns (r: Outcome<ClientError>)
      requires registry.Valid()
      modifies registry
      ensures registry.Valid()
      ensures r == if Primitive.DeleteManifest in registry.failing then Fail(RegistryFailure(Unreachable))
                   else if RefOf(fullName, path) !in old(registry.store).tags then Fail(RegistryFailure(NotFound))
                   else Pass
      ensures registry.store == if r.Pass? then DropManifest(old(registry.store), RefOf(fullName, path).repository,
                                                             old(registry.store).tags[RefOf(fullName, path)])
                                else old(registry.store)
    {
      var deleted := registry.DeleteManifest(RefOf(fullName, path));
      r := if deleted.Fail? then Fail(RegistryFailure(deleted.error)) else Pass;
    }

    /** `download`: the blob of the layer `SelectLayer` picks from the tagged manifest. */
    method Download(fullName: string, path: string) returns (r: Result<Bytes, ClientError>)
      ensures r == DownloadResult(registry.store, registry.failing, RefOf(fullName, path))
    {
      var ref := RefOf(fullName, path);
      var manifest := registry.GetManifest(ref);
      if manifest.Failure? {
        return Failure(RegistryFailure(manifest.error));
      }
      var layer := SelectLayer(manifest.value.layers);
      if layer.Failure? {
        return Failure(layer.error);
      }
      if layer.value.digest.None? {
        return Failure(NullDigest);
      }
      var blob := registry.FetchBlob(ref, layer.value.digest.value);
      if blob.Failure? {
        return Failure(RegistryFailure(blob.error));
      }
      r := Success(blob.value);
    }

    /**
     * `upload`: classifies the path's extension, then pushes one manifest with the
     * content layer and the image layer under the key's reference.
     */
    method Upload(fullName: string, path: string, source: SourceFile) returns (r: Outcome<ClientError>)
      requires registry.Valid()
      modifies registry
      ensures registry.Valid()
      ensures '.' !in path ==> r == Fail(IndexOutOfBounds)
      ensures '.' in path && icon.None? ==> r == Fail(IconNotFound)
      ensures '.' in path && icon.Some? ==>
        r == if Primitive.PushArtifact in registry.failing then Fail(RegistryFailure(Unreachable)) else Pass
      ensures r.Pass? ==>
        && Kind(path).Success? && icon.Some?
        && registry.store == PushedArtifact(old(registry.store), RefOf(fullName, path), ArtifactMediaType,
                                         UploadAnnotations(fullName), EmptyConfig,
                                         UploadFiles(source, Kind(path).value, icon.value))
      ensures r.Fail? ==> registry.store == old(registry.store)
    {
      var extension := Extension(path);
      if extension.Failure? {
        return Fail(extension.error);
      }
      var kind := Compression(extension.value);
      var ref := RefOf(fullName, path);
      if icon.None? {
        return Fail(IconNotFound);
      }
      var pushed := registry.PushArtifact(ref, ArtifactMediaType, UploadAnnotations(fullName), EmptyConfig,
                                          UploadFiles(source, kind, icon.value));
      r := if pushed.Failure? then Fail(RegistryFailure(pushed.error)) else Pass;
    }

    /**
     * `testConnection`: pushes a one-layer probe manifest below the namespace and deletes
     * it again by its digest; the first failing call ends it.
     */
    method TestConnection() returns (r: Outcome<ClientError>)
      requires registry.Valid()
      modifies registry
      ensures registry.Valid()
      ensures r == ProbeOutcome(registry.failing)
      ensures registry.store == ProbedStore(old(registry.store), registry.failing, ProbeRef(config.namespace))
    {
      var ref := ProbeRef(config.namespace);
      var layer := registry.PushBlob(ref, ProbeContent());
      if layer.Failure? {
        return Fail(RegistryFailure(layer.error));
      }
      var configured := registry.PushConfig(ref, EmptyConfig);
      if configured.Fail? {
        return Fail(RegistryFailure(configured.error));
      }
      var digest := registry.PushManifest(ref, Manifest(None, map[], EmptyConfig, [layer.value]));
      if digest.Failure? {
        return Fail(RegistryFailure(digest.error));
      }
      var deleted := registry.DeleteManifestByDigest(ref, digest.value);
      r := if deleted.Fail? then Fail(RegistryFailure(deleted.error)) else Pass;
    }
  }
}
