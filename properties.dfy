/** What the registry client's operations promise, stated over the model and proved. */
module ClientProperties {
  import opened Results
  import opened Strings
  import opened Oras
  import opened Client

  /** A dot followed by the extension classifies by that extension, whatever comes before. */
  lemma {:induction false} KindOfSuffix(stem: string, extension: string)
    requires '.' !in extension
    ensures Kind(stem + "." + extension) == Success(Compression(extension))
  {
    var path := stem + "." + extension;
    assert path[|stem|] == '.';
    assert forall j :: |stem| < j < |path| ==> path[j] == extension[j - |stem| - 1];
    LastIndexOfIs(path, '.', |stem|);
    TailAfterLastDot(path, |stem|);
    assert path[|stem| + 1..] == extension;
  }

  /**
   * The classification table: the four extensions and their kinds; anything else,
   * an upper-case spelling included, is `tar`.
   */
  lemma CompressionTable()
    ensures Compression("tar") == "tar" && Compression("zip") == "zip"
    ensures Compression("gz") == "tar+gzip" && Compression("zst") == "tar+zstd"
    ensures Compression("unknown") == "tar" && Compression("GZ") == "tar" && Compression("") == "tar"
  {
  }

  /** Only the last extension counts: `.tar.gz` is gzip-compressed, `.tar.zst` zstd-compressed. */
  lemma KindOfDoubleExtension(stem: string)
    ensures Kind(stem + ".tar.gz") == Success("tar+gzip")
    ensures Kind(stem + ".tar.zst") == Success("tar+zstd")
  {
    assert stem + ".tar.gz" == (stem + ".tar") + "." + "gz";
    KindOfSuffix(stem + ".tar", "gz");
    assert stem + ".tar.zst" == (stem + ".tar") + "." + "zst";
    KindOfSuffix(stem + ".tar", "zst");
  }

  /** A dot outside the file name is still the last dot: `build.d/cache` classifies `d/cache`, as `tar`. */
  lemma KindOfDottedDirectory(stem: string, name: string)
    requires '.' !in name
    ensures Kind(stem + ".d/" + name) == Success("tar")
  {
    var extension := "d/" + name;
    assert stem + ".d/" + name == stem + "." + extension;
    assert '.' !in extension by { assert forall i :: 2 <= i < |extension| ==> extension[i] == name[i - 2]; }
    assert Compression(extension) == "tar" by {
      assert extension[0] == 'd' && extension[1] == '/';
    }
    KindOfSuffix(stem, extension);
  }

  /** A path without a dot has no kind: the upload fails instead of defaulting to `tar`. */
  lemma KindWithoutDotFails(path: string)
    requires '.' !in path
    ensures Kind(path) == Failure(IndexOutOfBounds)
  {
  }

  /** The kind can be read back from the content media type. */
  lemma ContentMediaTypeInjective(kind1: string, kind2: string)
    requires ContentMediaType(kind1) == ContentMediaType(kind2)
    ensures kind1 == kind2
  {
    assert kind1 == ContentMediaType(kind1)[|ContentMediaTypeStem|..];
    assert kind2 == ContentMediaType(kind2)[|ContentMediaTypeStem|..];
  }

  /** Two keys that differ only in where their `/` falls share one artifact. */
  lemma KeysCanShareReference()
    ensures ("a/b", "c") != ("a", "b/c")
    ensures BuildRef("a/b", "c") == BuildRef("a", "b/c")
    ensures RefOf("a/b", "c") == RefOf("a", "b/c")
  {
  }

  /**
   * An uploaded manifest: the job's full name annotated, the content layer first and
   * the icon second, and `SelectLayer` picks the content layer.
   */
  lemma UploadedManifestShape(fullName: string, source: SourceFile, kind: string, icon: Bytes)
    ensures var m := UploadedManifest(fullName, source, kind, icon);
      && m.artifactType == Some(ArtifactMediaType)
      && m.annotations == map[FullNameAnnotation := fullName]
      && |m.layers| == 2
      && m.layers[0].mediaType == ContentMediaType(kind)
      && m.layers[0].digest == Some(BlobDigest(source.content))
      && m.layers[1].mediaType == IconMediaType
      && m.layers[1].digest == Some(BlobDigest(icon))
      && m.layers[1].annotations == map[IconAnnotation := ""]
      && SelectLayer(m.layers) == Success(m.layers[0])
  {
    var m := UploadedManifest(fullName, source, kind, icon);
    assert IsContentLayer(m.layers[0]);
  }

  /** A stored blob is the content its digest was computed from. */
  lemma StoredBlobIsContent(s: Store, d: Digest)
    requires Consistent(s) && d in s.blobs
    ensures d.BlobDigest? && s.blobs[d] == d.content
  {
  }

  /**
   * On a consistent registry, `download` yields the content the selected layer's digest
   * was computed from.
   */
  lemma DownloadIsSelectedContent(s: Store, failing: set<Primitive>, ref: ContainerRef, m: Manifest, layer: Layer)
    requires Consistent(s)
    requires Primitive.GetManifest !in failing && Primitive.FetchBlob !in failing
    requires ManifestAt(s, ref) == Success(m) && SelectLayer(m.layers) == Success(layer)
    ensures layer.digest.Some? && layer.digest.value.BlobDigest?
    ensures DownloadResult(s, failing, ref) == Success(layer.digest.value.content)
  {
    var key := ManifestKey(ref.repository, s.tags[ref]);
    assert BlobsStored(s.manifests[key], s.blobs);
    assert layer in m.layers;
    var i :| 0 <= i < |m.layers| && m.layers[i] == layer;
    StoredBlobIsContent(s, layer.digest.value);
  }

  /** A manifest without layers is refused, whatever the registry holds besides. */
  lemma DownloadOfEmptyManifest(s: Store, failing: set<Primitive>, ref: ContainerRef)
    requires Primitive.GetManifest !in failing
    requires ManifestAt(s, ref).Success? && ManifestAt(s, ref).value.layers == []
    ensures DownloadResult(s, failing, ref) == Failure(NoLayer)
  {
  }

  /** A single-layer manifest is read from that layer, whatever its media type. */
  lemma DownloadOfSingleLayer(s: Store, failing: set<Primitive>, ref: ContainerRef, layer: Layer)
    requires Consistent(s)
    requires Primitive.GetManifest !in failing && Primitive.FetchBlob !in failing
    requires ManifestAt(s, ref).Success? && ManifestAt(s, ref).value.layers == [layer]
    ensures layer.digest.Some? && layer.digest.value.BlobDigest?
    ensures DownloadResult(s, failing, ref) == Success(layer.digest.value.content)
  {
    DownloadIsSelectedContent(s, failing, ref, ManifestAt(s, ref).value, layer);
  }

  /** Several layers, none of them content: refused with the content-layer failure. */
  lemma DownloadWithoutContentLayer(s: Store, failing: set<Primitive>, ref: ContainerRef)
    requires Primitive.GetManifest !in failing
    requires ManifestAt(s, ref).Success?
    requires var layers := ManifestAt(s, ref).value.layers;
      |layers| >= 2 && forall j :: 0 <= j < |layers| ==> !IsContentLayer(layers[j])
    ensures DownloadResult(s, failing, ref) == Failure(NoContentLayer)
  {
  }

  /** Whatever `upload` pushes, `download` of the same key returns the uploaded bytes. */
  lemma UploadThenDownload(s: Store, failing: set<Primitive>, fullName: string, path: string,
                           source: SourceFile, icon: Bytes)
    requires Consistent(s) && '.' in path
    requires Primitive.GetManifest !in failing && Primitive.FetchBlob !in failing
    ensures var after := PushedArtifact(s, RefOf(fullName, path), ArtifactMediaType, UploadAnnotations(fullName),
                                        EmptyConfig, UploadFiles(source, Kind(path).value, icon));
      DownloadResult(after, failing, RefOf(fullName, path)) == Success(source.content)
  {
    var ref := RefOf(fullName, path);
    var m := UploadedManifest(fullName, source, Kind(path).value, icon);
    var after := PushedArtifact(s, ref, ArtifactMediaType, UploadAnnotations(fullName), EmptyConfig,
                                UploadFiles(source, Kind(path).value, icon));
    UploadedManifestShape(fullName, source, Kind(path).value, icon);
    DownloadIsSelectedContent(after, failing, ref, m, m.layers[0]);
  }

  /**
   * Deleting what a tag names removes that tag and every tag of the repository naming the
   * same manifest; tags of other repositories stay as they were.
   */
  lemma DeleteRemovesArtifact(s: Store, ref: ContainerRef)
    requires Consistent(s) && ref in s.tags
    ensures var after := DropManifest(s, ref.repository, s.tags[ref]);
      && ref !in after.tags
      && ManifestAt(after, ref) == Failure(NotFound)
      && (forall t :: t in s.tags && t.repository != ref.repository ==> t in after.tags && after.tags[t] == s.tags[t])
  {
  }

  /** Pushing a manifest and deleting it again by its digest leaves no trace of it. */
  lemma PushThenDeleteByDigest(s: Store, ref: ContainerRef, m: Manifest)
    requires Consistent(s) && BlobsStored(m, s.blobs)
    ensures var after := DropManifest(PutManifest(s, ref, m), ref.repository, ManifestDigest(m));
      && ManifestKey(ref.repository, ManifestDigest(m)) !in after.manifests
      && ref !in after.tags
      && after.manifests == s.manifests - {ManifestKey(ref.repository, ManifestDigest(m))}
      && (forall t :: t in s.tags && t != ref && !(t.repository == ref.repository && s.tags[t] == ManifestDigest(m)) ==>
            t in after.tags && after.tags[t] == s.tags[t])
  {
    var pushed := PutManifest(s, ref, m);
    assert forall t :: t in s.tags && t != ref ==> t in pushed.tags && pushed.tags[t] == s.tags[t];
  }

  /**
   * The connection probe, once all four calls succeed, leaves neither its manifest nor its
   * tag; every other manifest is kept and every other tag not naming the probe manifest.
   */
  lemma ProbeLeavesNoManifest(s: Store, failing: set<Primitive>, ref: ContainerRef)
    requires Consistent(s) && ProbeOutcome(failing) == Pass
    ensures var after := ProbedStore(s, failing, ref);
      && ManifestKey(ref.repository, ManifestDigest(ProbeManifest())) !in after.manifests
      && ref !in after.tags
      && after.manifests == s.manifests - {ManifestKey(ref.repository, ManifestDigest(ProbeManifest()))}
      && (forall t :: t in s.tags && t != ref && !(t.repository == ref.repository && s.tags[t] == ManifestDigest(ProbeManifest())) ==>
            t in after.tags && after.tags[t] == s.tags[t])
      && BlobDigest(ProbeContent()) in after.blobs
  {
    var withConfig := PutBlob(PutBlob(s, ProbeContent()), ConfigBytes(EmptyConfig));
    PushThenDeleteByDigest(withConfig, ref, ProbeManifest());
  }

  /**
   * The life of one cache entry: upload `report.tar.gz`, find it, read the same bytes
   * back, delete it, no longer find it, and fail to delete it again.
   */
  method CacheLifecycle(client: RegistryClient, fullName: string, source: SourceFile)
    returns (foundAfterUpload: bool, downloaded: Result<Bytes, ClientError>,
             foundAfterDelete: bool, secondDelete: Outcome<ClientError>)
    requires client.registry.Valid() && client.registry.failing == {} && client.icon.Some?
    modifies client.registry
    ensures foundAfterUpload && downloaded == Success(source.content)
    ensures !foundAfterDelete && secondDelete == Fail(RegistryFailure(NotFound))
  {
    var path := "report.tar.gz";
    assert path[6] == '.';
    var uploaded := client.Upload(fullName, path, source);
    assert uploaded == Pass;
    foundAfterUpload := client.Exists(fullName, path);
    downloaded := client.Download(fullName, path);
    UploadThenDownload(old(client.registry.store), {}, fullName, path, source, client.icon.value);
    var deleted := client.Delete(fullName, path);
    foundAfterDelete := client.Exists(fullName, path);
    secondDelete := client.Delete(fullName, path);
  }
}
