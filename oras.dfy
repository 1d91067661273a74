/**
 * The registry the client talks to, as the `land.oras.Registry` library presents it:
 * tagged manifests and content-addressed blobs, kept in one store. The transport is
 * abstract: a fixed set of primitives that currently fail stands for network and
 * authentication errors.
 */
module Oras {
  import opened Results
  import opened Strings

  /** A content hash. Modelled by what it hashes, so distinct contents have distinct digests. */
  datatype Digest = BlobDigest(content: Bytes) | ManifestDigest(manifest: Manifest)

  /** A layer descriptor; `digest` is `None` where the Java object holds a null digest. */
  datatype Layer = Layer(mediaType: string, digest: Option<Digest>, size: nat, annotations: map<string, string>)

  /** `Config.empty()`, the only configuration the client ever pushes. */
  datatype Config = EmptyConfig

  datatype Manifest = Manifest(
    artifactType: Option<string>,
    annotations: map<string, string>,
    config: Config,
    layers: seq<Layer>)

  /** A reference addressed by tag: repository `repository`, tag `tag`. */
  datatype ContainerRef = ContainerRef(repository: string, tag: string)

  /** Manifests are stored per repository, under their own digest. */
  datatype ManifestKey = ManifestKey(repository: string, digest: Digest)

  datatype Store = Store(
    tags: map<ContainerRef, Digest>,
    manifests: map<ManifestKey, Manifest>,
    blobs: map<Digest, Bytes>)

  /** The registry calls the client makes. */
  datatype Primitive =
    GetTags | GetManifest | FetchBlob | PushBlob | PushConfig | PushManifest | PushArtifact | DeleteManifest

  /** The causes of an `OrasException`. */
  datatype RegistryError = NotFound | Unreachable | BlobUnknown

  /** `LocalPath.of(file, mediaType)`: a local file to push, with its name and content. */
  datatype LocalPath = LocalPath(name: string, content: Bytes, mediaType: string)

  /** `Annotations`: manifest-level annotations, and per-file annotations keyed by file name. */
  datatype Annotations = Annotations(manifest: map<string, string>, files: map<string, map<string, string>>)

  /** Media type the library gives a blob pushed without one. */
  const DefaultLayerMediaType := "application/vnd.oci.image.layer.v1.tar"

  /** The serialised empty configuration, `{}`. */
  function ConfigBytes(c: Config): Bytes {
    [123, 125]
  }

  /**
   * `ContainerRef.parse` on the references this client builds: the tag follows the
   * last `:`, and a reference without one is tagged `latest`.
   */
  function ParseRef(s: string): ContainerRef {
    var i := LastIndexOf(s, ':');
    if i < 0 then ContainerRef(s, "latest") else ContainerRef(s[..i], s[i + 1..])
  }

  /** Every blob a manifest refers to, its config included, is in `blobs`. */
  predicate BlobsStored(m: Manifest, blobs: map<Digest, Bytes>) {
    && BlobDigest(ConfigBytes(m.config)) in blobs
    && forall i :: 0 <= i < |m.layers| ==> m.layers[i].digest.Some? && m.layers[i].digest.value in blobs
  }

  /**
   * The registry's own invariant: every tag names a manifest of its repository, every
   * manifest is filed under its digest and refers only to stored blobs, and every
   * blob is filed under its digest.
   */
  ghost predicate Consistent(s: Store) {
    && (forall r :: r in s.tags ==> ManifestKey(r.repository, s.tags[r]) in s.manifests)
    && (forall k :: k in s.manifests ==> k.digest == ManifestDigest(s.manifests[k]))
    && (forall k :: k in s.manifests ==> BlobsStored(s.manifests[k], s.blobs))
    && (forall d :: d in s.blobs ==> d == BlobDigest(s.blobs[d]))
  }

  const EmptyStore := Store(map[], map[], map[])

  /** The tags of one repository. */
  function TagsOf(s: Store, repository: string): set<string> {
    set r | r in s.tags && r.repository == repository :: r.tag
  }

  /** The manifest a tag names, if the store has it. */
  function ManifestAt(s: Store, ref: ContainerRef): Result<Manifest, RegistryError> {
    if ref in s.tags && ManifestKey(ref.repository, s.tags[ref]) in s.manifests
    then Success(s.manifests[ManifestKey(ref.repository, s.tags[ref])])
    else Failure(NotFound)
  }

  /** The blob with digest `d`, if the store has it. */
  function BlobAt(s: Store, d: Digest): Result<Bytes, RegistryError> {
    if d in s.blobs then Success(s.blobs[d]) else Failure(NotFound)
  }

  /** The store with `content` added under its digest. */
  function PutBlob(s: Store, content: Bytes): (r: Store)
    requires Consistent(s)
    ensures Consistent(r)
    ensures r.tags == s.tags && r.manifests == s.manifests
    ensures r.blobs.Keys == s.blobs.Keys + {BlobDigest(content)}
    ensures forall d :: d in s.blobs ==> r.blobs[d] == s.blobs[d]
  {
    s.(blobs := s.blobs[BlobDigest(content) := content])
  }

  /** The store with the content of each file added, in order. */
  function PutBlobs(s: Store, files: seq<LocalPath>): (r: Store)
    requires Consistent(s)
    ensures Consistent(r)
    ensures r.tags == s.tags && r.manifests == s.manifests
    ensures s.blobs.Keys <= r.blobs.Keys
    ensures forall i :: 0 <= i < |files| ==> BlobDigest(files[i].content) in r.blobs
    decreases files
  {
    if files == [] then s else PutBlobs(PutBlob(s, files[0].content), files[1..])
  }

  /** The store with `m` filed under its digest and `ref` naming it. */
  function PutManifest(s: Store, ref: ContainerRef, m: Manifest): (r: Store)
    requires Consistent(s) && BlobsStored(m, s.blobs)
    ensures Consistent(r)
    ensures r.blobs == s.blobs
    ensures r.tags == s.tags[ref := ManifestDigest(m)]
    ensures r.manifests == s.manifests[ManifestKey(ref.repository, ManifestDigest(m)) := m]
  {
    Store(s.tags[ref := ManifestDigest(m)], s.manifests[ManifestKey(ref.repository, ManifestDigest(m)) := m], s.blobs)
  }

  /**
   * The store without manifest `d` of `repository` and without the tags of that
   * repository that named it; blobs are never collected.
   */
  function DropManifest(s: Store, repository: string, d: Digest): (r: Store)
    requires Consistent(s)
    ensures Consistent(r)
    ensures r.blobs == s.blobs
    ensures r.manifests == s.manifests - {ManifestKey(repository, d)}
    ensures forall t :: t in r.tags <==> t in s.tags && !(t.repository == repository && s.tags[t] == d)
    ensures forall t :: t in r.tags ==> r.tags[t] == s.tags[t]
  {
    Store(
      map t | t in s.tags && !(t.repository == repository && s.tags[t] == d) :: s.tags[t],
      s.manifests - {ManifestKey(repository, d)},
      s.blobs)
  }

  /** What `pushBlob` returns for a file: a layer of the default media type. */
  function BlobLayer(content: Bytes): Layer {
    Layer(DefaultLayerMediaType, Some(BlobDigest(content)), |content|, map[])
  }

  /** The layer `pushArtifact` writes for one file, carrying that file's annotations. */
  function FileLayer(f: LocalPath, fileAnnotations: map<string, map<string, string>>): Layer {
    Layer(f.mediaType, Some(BlobDigest(f.content)), |f.content|,
          if f.name in fileAnnotations then fileAnnotations[f.name] else map[])
  }

  /** The manifest `pushArtifact` writes: one layer per file, in the order given. */
  function ArtifactManifest(artifactType: string, annotations: Annotations, config: Config, files: seq<LocalPath>): (m: Manifest)
    ensures |m.layers| == |files|
    ensures forall i :: 0 <= i < |files| ==> m.layers[i] == FileLayer(files[i], annotations.files)
  {
    Manifest(Some(artifactType), annotations.manifest, config,
             seq(|files|, i requires 0 <= i < |files| => FileLayer(files[i], annotations.files)))
  }

  /** The store after a `pushArtifact` that succeeds: blobs first, then the manifest under `ref`. */
  function PushedArtifact(s: Store, ref: ContainerRef, artifactType: string, annotations: Annotations,
                          config: Config, files: seq<LocalPath>): (r: Store)
    requires Consistent(s)
    ensures Consistent(r)
    ensures r.tags == s.tags[ref := ManifestDigest(ArtifactManifest(artifactType, annotations, config, files))]
    ensures ManifestAt(r, ref) == Success(ArtifactManifest(artifactType, annotations, config, files))
  {
    var m := ArtifactManifest(artifactType, annotations, config, files);
    var withBlobs := PutBlobs(PutBlob(s, ConfigBytes(config)), files);
    assert BlobsStored(m, withBlobs.blobs);
    PutManifest(withBlobs, ref, m)
  }

  /** The registry handle the client holds; its methods are the library calls the client makes. */
  class Registry {
    var store: Store
    /** The primitives the transport currently fails (network or authentication errors). */
    const failing: set<Primitive>

    ghost predicate Valid()
      reads this
    {
      Consistent(store)
    }

    constructor (failing: set<Primitive>)
      ensures Valid()
      ensures store == EmptyStore && this.failing == failing
    {
      store := EmptyStore;
      this.failing := failing;
    }

    /** `getTags(ref)`: the tags of the reference's repository; an unknown repository is not found. */
    method GetTags(ref: ContainerRef) returns (r: Result<set<string>, RegistryError>)
      ensures Primitive.GetTags in failing ==> r == Failure(Unreachable)
      ensures Primitive.GetTags !in failing ==>
        r == if TagsOf(store, ref.repository) == {} then Failure(NotFound) else Success(TagsOf(store, ref.repository))
    {
      if Primitive.GetTags in failing {
        return Failure(Unreachable);
      }
      var tags := TagsOf(store, ref.repository);
      r := if tags == {} then Failure(NotFound) else Success(tags);
    }

    /** `getManifest(ref)`. */
    method GetManifest(ref: ContainerRef) returns (r: Result<Manifest, RegistryError>)
      ensures r == if Primitive.GetManifest in failing then Failure(Unreachable) else ManifestAt(store, ref)
    {
      if Primitive.GetManifest in failing {
        return Failure(Unreachable);
      }
      r := ManifestAt(store, ref);
    }

    /** `fetchBlob(ref.withDigest(d))`. */
    method FetchBlob(ref: ContainerRef, d: Digest) returns (r: Result<Bytes, RegistryError>)
      ensures r == if Primitive.FetchBlob in failing then Failure(Unreachable) else BlobAt(store, d)
    {
      if Primitive.FetchBlob in failing {
        return Failure(Unreachable);
      }
      r := BlobAt(store, d);
    }

    /** `pushBlob(ref, file)`: stores the content and returns its layer descriptor. */
    method PushBlob(ref: ContainerRef, content: Bytes) returns (r: Result<Layer, RegistryError>)
      requires Valid()
      modifies this
      ensures Valid()
      ensures r == if Primitive.PushBlob in failing then Failure(Unreachable) else Success(BlobLayer(content))
      ensures store == if r.Success? then PutBlob(old(store), content) else old(store)
    {
      if Primitive.PushBlob in failing {
        return Failure(Unreachable);
      }
      store := PutBlob(store, content);
      r := Success(BlobLayer(content));
    }

    /** `pushConfig(ref, config)`: stores the serialised configuration as a blob. */
    method PushConfig(ref: ContainerRef, config: Config) returns (r: Outcome<RegistryError>)
      requires Valid()
      modifies this
      ensures Valid()
      ensures r == if Primitive.PushConfig in failing then Fail(Unreachable) else Pass
      ensures store == if r.Pass? then PutBlob(old(store), ConfigBytes(config)) else old(store)
    {
      if Primitive.PushConfig in failing {
        return Fail(Unreachable);
      }
      store := PutBlob(store, ConfigBytes(config));
      r := Pass;
    }

    /**
     * `pushManifest(ref, m)`: files the manifest and tags it, returning its digest; a
     * manifest that refers to a blob the registry lacks is refused.
     */
    method PushManifest(ref: ContainerRef, m: Manifest) returns (r: Result<Digest, RegistryError>)
      requires Valid()
      modifies this
      ensures Valid()
      ensures r == if Primitive.PushManifest in failing then Failure(Unreachable)
                   else if !BlobsStored(m, old(store).blobs) then Failure(BlobUnknown)
                   else Success(ManifestDigest(m))
      ensures store == if r.Success? then PutManifest(old(store), ref, m) else old(store)
    {
      if Primitive.PushManifest in failing {
        return Failure(Unreachable);
      }
      if !BlobsStored(m, store.blobs) {
        return Failure(BlobUnknown);
      }
      store := PutManifest(store, ref, m);
      r := Success(ManifestDigest(m));
    }

    /**
     * `pushArtifact(ref, artifactType, annotations, config, files...)`: pushes the files
     * and the configuration as blobs, then one manifest naming them, under `ref`.
     * All or nothing: a failed push leaves no new manifest or tag.
     */
    method PushArtifact(ref: ContainerRef, artifactType: string, annotations: Annotations,
                        config: Config, files: seq<LocalPath>)
      returns (r: Result<Manifest, RegistryError>)
      requires Valid()
      modifies this
      ensures Valid()
      ensures r == if Primitive.PushArtifact in failing then Failure(Unreachable)
                   else Success(ArtifactManifest(artifactType, annotations, config, files))
      ensures store == if r.Success? then PushedArtifact(old(store), ref, artifactType, annotations, config, files)
                       else old(store)
    {
      if Primitive.PushArtifact in failing {
        return Failure(Unreachable);
      }
      store := PushedArtifact(store, ref, artifactType, annotations, config, files);
      r := Success(ArtifactManifest(artifactType, annotations, config, files));
    }

    /** `deleteManifest(ref)` for a tag: deletes the manifest the tag names. */
    method DeleteManifest(ref: ContainerRef) returns (r: Outcome<RegistryError>)
      requires Valid()
      modifies this
      ensures Valid()
      ensures r == if Primitive.DeleteManifest in failing then Fail(Unreachable)
                   else if ref !in old(store).tags then Fail(NotFound)
                   else Pass
      ensures store == if r.Pass? then DropManifest(old(store), ref.repository, old(store).tags[ref]) else old(store)
    {
      if Primitive.DeleteManifest in failing {
        return Fail(Unreachable);
      }
      if ref !in store.tags {
        return Fail(NotFound);
      }
      store := DropManifest(store, ref.repository, store.tags[ref]);
      r := Pass;
    }

    /** `deleteManifest(ref.withDigest(d))`: deletes manifest `d` of the reference's repository. */
    method DeleteManifestByDigest(ref: ContainerRef, d: Digest) returns (r: Outcome<RegistryError>)
      requires Valid()
      modifies this
      ensures Valid()
      ensures r == if Primitive.DeleteManifest in failing then Fail(Unreachable)
                   else if ManifestKey(ref.repository, d) !in old(store).manifests then Fail(NotFound)
                   else Pass
      ensures store == if r.Pass? then DropManifest(old(store), ref.repository, d) else old(store)
    {
      if Primitive.DeleteManifest in failing {
        return Fail(Unreachable);
      }
      if ManifestKey(ref.repository, d) !in store.manifests {
        return Fail(NotFound);
      }
      store := DropManifest(store, ref.repository, d);
      r := Pass;
    }
  }
}
