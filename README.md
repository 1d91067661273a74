# Job-cacher ORAS storage: the registry client

This project models `RegistryClient`, the part of the Jenkins job-cacher ORAS storage
plugin that stores a job's cache in an OCI registry. A cache key is a job's full name
plus a path. The client maps that key onto one artifact tagged `latest`. An uploaded
artifact holds two layers: a content layer, whose media type names its compression
kind, and a fixed `image/png` icon layer. `download` picks the content layer back out
by its media-type prefix. `exists` is a best-effort probe that swallows every registry
error. `delete` and `testConnection` pass every error on.

Modules:

- `Results`: `Option`, `Result` and `Outcome`. Java's nulls and exceptions become values.
- `Strings`: the `java.lang.String` operations the client uses (`lastIndexOf`,
  `substring`, `replace`, `startsWith`) and bytes.
- `Oras`: the registry as the ORAS library presents it. A `Store` holds tags, manifests
  filed per repository under their digest, and content-addressed blobs. The `Registry`
  class holds the store in a field. Its methods are the library calls the client makes.
  A fixed set of failing primitives stands for network and authentication errors.
  `Consistent` is the registry's invariant, and every store update keeps it.
- `Client`: the constants, the extension classifier, the reference builder, layer
  selection, and the `RegistryClient` class. The class's methods call the registry step
  by step, as the Java methods do.
- `ClientProperties`: lemmas relating the operations (upload then download, delete,
  the connection probe) and a lifecycle scenario.

Digests are modelled by the content they hash (`BlobDigest(bytes)`,
`ManifestDigest(manifest)`). Equal digests therefore mean equal content.

## Model

| member | source | states |
|---|---|---|
| `Client.Extension` | src/main/java/io/jenkins/plugins/jobcacher/oras/RegistryClient.java:138 | fails (`substring(-1)`) exactly when the path has no dot; otherwise it is the text after some dot and contains no dot itself, i.e. the text after the last dot |
| `Client.TailAfterLastDot` | src/main/java/io/jenkins/plugins/jobcacher/oras/RegistryClient.java:138 | removing every dot from the tail that starts at the last dot leaves exactly the text after it |
| `Client.Compression` | src/main/java/io/jenkins/plugins/jobcacher/oras/RegistryClient.java:139-146 | the kind is always one of `tar`, `zip`, `tar+gzip`, `tar+zstd` |
| `Client.Kind` | src/main/java/io/jenkins/plugins/jobcacher/oras/RegistryClient.java:138-146 | the kind of a path is one of the four kinds, and there is none exactly when the path has no dot |
| `Client.ContentMediaType` | src/main/java/io/jenkins/plugins/jobcacher/oras/RegistryClient.java:34 | every content media type starts with the prefix `download` filters on |
| `Client.RefOf` | src/main/java/io/jenkins/plugins/jobcacher/oras/RegistryClient.java:168-170 | the reference has repository `fullName/path` and tag `latest`, with no namespace and no normalisation |
| `Client.FirstContentLayer` | src/main/java/io/jenkins/plugins/jobcacher/oras/RegistryClient.java:120-123 | `findFirst` of the filter: the index found has the content prefix and no earlier layer has it; none found means no layer has it |
| `Client.SelectLayer` | src/main/java/io/jenkins/plugins/jobcacher/oras/RegistryClient.java:115-123 | no layers gives `NoLayer`; one layer is taken whatever its type; among several, the first content layer is taken, and if there is none the result is `NoContentLayer` |
| `Client.ProbeRef` | src/main/java/io/jenkins/plugins/jobcacher/oras/RegistryClient.java:178-179 | the probe reference is `namespace/jenkins-oras-plugin-test`, tag `latest` |
| `Client.RegistryClient.constructor` | src/main/java/io/jenkins/plugins/jobcacher/oras/RegistryClient.java:50-62 | the client holds the given configuration, registry handle and icon resource |
| `Client.RegistryClient.Exists` | src/main/java/io/jenkins/plugins/jobcacher/oras/RegistryClient.java:78-95 | true exactly when listing tags and fetching the manifest both succeed and the `latest` tag names a stored manifest; any registry error gives false |
| `Client.RegistryClient.Delete` | src/main/java/io/jenkins/plugins/jobcacher/oras/RegistryClient.java:101-103 | no pre-check; an absent reference fails with not-found, a transport failure is passed on, success drops the manifest the tag named; the store changes only on success |
| `Client.RegistryClient.Download` | src/main/java/io/jenkins/plugins/jobcacher/oras/RegistryClient.java:112-128 | the result is the manifest fetch, then layer selection, the null-digest check and the blob fetch, the first failure winning; nothing in the registry changes |
| `Client.RegistryClient.Upload` | src/main/java/io/jenkins/plugins/jobcacher/oras/RegistryClient.java:137-166 | a path without a dot fails first, a missing icon second, a failing push third; success pushes exactly the two-layer manifest under the key's reference; failure leaves the store unchanged |
| `Client.RegistryClient.TestConnection` | src/main/java/io/jenkins/plugins/jobcacher/oras/RegistryClient.java:175-184 | pushes blob, config and manifest in that order, then deletes the manifest by digest; it fails exactly when one of those calls fails, and the steps before the failing call take effect |
| `ClientProperties.KindOfSuffix` | src/main/java/io/jenkins/plugins/jobcacher/oras/RegistryClient.java:138-146 | a path ending in a dot and a dot-free extension is classified by that extension, whatever comes before |
| `ClientProperties.CompressionTable` | src/main/java/io/jenkins/plugins/jobcacher/oras/RegistryClient.java:140-146 | the four mappings; `unknown`, `GZ` and the empty extension give `tar` (the match is case-sensitive) |
| `ClientProperties.KindOfDoubleExtension` | src/main/java/io/jenkins/plugins/jobcacher/oras/RegistryClient.java:138-146 | `.tar.gz` gives `tar+gzip` and `.tar.zst` gives `tar+zstd`: only the last extension counts |
| `ClientProperties.KindOfDottedDirectory` | src/main/java/io/jenkins/plugins/jobcacher/oras/RegistryClient.java:138 | a dot in a directory name is still the last dot, so `x.d/name` is classified by `d/name`, as `tar` |
| `ClientProperties.KindWithoutDotFails` | src/main/java/io/jenkins/plugins/jobcacher/oras/RegistryClient.java:138 | a path without a dot has no kind; the upload fails instead of defaulting to `tar` |
| `ClientProperties.ContentMediaTypeInjective` | src/main/java/io/jenkins/plugins/jobcacher/oras/RegistryClient.java:164 | distinct compression kinds give distinct content media types |
| `ClientProperties.KeysCanShareReference` | src/main/java/io/jenkins/plugins/jobcacher/oras/RegistryClient.java:169 | the keys (`a/b`, `c`) and (`a`, `b/c`) differ but build the same reference |
| `ClientProperties.UploadedManifestShape` | src/main/java/io/jenkins/plugins/jobcacher/oras/RegistryClient.java:156-165 | the uploaded manifest has the artifact type and full-name annotation, the content layer first, the annotated `image/png` layer second, and selection picks the content layer |
| `ClientProperties.DownloadIsSelectedContent` | src/main/java/io/jenkins/plugins/jobcacher/oras/RegistryClient.java:118-127 | on a consistent registry with no transport failure, `download` yields the content the selected layer's digest was computed from |
| `ClientProperties.DownloadOfEmptyManifest` | src/main/java/io/jenkins/plugins/jobcacher/oras/RegistryClient.java:115-116 | a manifest without layers makes `download` fail with `NoLayer` |
| `ClientProperties.DownloadOfSingleLayer` | src/main/java/io/jenkins/plugins/jobcacher/oras/RegistryClient.java:118-119 | a single-layer manifest is read from that layer whatever its media type |
| `ClientProperties.DownloadWithoutContentLayer` | src/main/java/io/jenkins/plugins/jobcacher/oras/RegistryClient.java:120-123 | several layers with no content layer make `download` fail with `NoContentLayer` |
| `ClientProperties.UploadThenDownload` | src/main/java/io/jenkins/plugins/jobcacher/oras/RegistryClient.java:112-165 | after a successful upload, `download` of the same key returns the uploaded bytes |
| `ClientProperties.DeleteRemovesArtifact` | src/main/java/io/jenkins/plugins/jobcacher/oras/RegistryClient.java:101-103 | after a delete the tag is gone and the manifest is not found, so a second delete fails; other repositories' tags are untouched |
| `ClientProperties.PushThenDeleteByDigest` | src/main/java/io/jenkins/plugins/jobcacher/oras/RegistryClient.java:182-183 | pushing a manifest and deleting it by its digest removes it and its tag and keeps every other manifest |
| `ClientProperties.ProbeLeavesNoManifest` | src/main/java/io/jenkins/plugins/jobcacher/oras/RegistryClient.java:175-184 | a successful connection probe leaves neither its manifest nor its tag; other manifests, and the tags that did not name the probe manifest, are kept |
| `ClientProperties.CacheLifecycle` | src/main/java/io/jenkins/plugins/jobcacher/oras/RegistryClient.java:78-166 | upload `report.tar.gz`, then `exists` is true, `download` returns the same bytes, `delete` succeeds, `exists` is false, and a second `delete` fails with not-found |

## Where the model follows the code

- A path without a dot is not given the default `tar`. `path.lastIndexOf(".")` is -1,
  and `substring(-1)` throws. `Extension` returns `IndexOutOfBounds`, so `Upload` fails
  before it touches the registry.
- The extension is not lower-cased. The `switch` matches exactly, so `GZ` gives `tar`.
- The reference is `fullName/path:latest`, without the configured namespace. Only
  `testConnection` uses the namespace.
- The `download` Javadoc reads "Upload an artifact"; the model follows the method body.

## Left out

- `buildRegistry` and the credential handling of the constructors (`getPlainText`,
  insecure or basic authentication) configure a foreign HTTP client. The constructor
  takes the registry handle instead, and `RegistryConfig` has no credentials.
- `getConfig` returns the immutable `config` field. The model reads that field directly.
- Transport: the bodies of the registry calls. The `Registry` methods are an abstract
  store. Transport failures are a fixed set of failing primitives; retries and timeouts
  are not modelled.
- Digest computation. A digest is modelled as the content it hashes.
- `ContainerRef.parse` validation and the registry host set by `forRegistry`. `ParseRef`
  only splits at the last `:` into repository and tag.
- A failed `pushArtifact` is modelled as all-or-nothing. Blobs uploaded before the
  failure are not recorded; they are inert, because no manifest names them.
- Any layer annotation the library adds by itself, such as a title, is not modelled.
- File-system work: reading the source file, writing the target file with `Files.copy`,
  and the temporary file of `testConnection`. `Download` returns the bytes it would
  write. A target left truncated by a failed copy is not modelled.
- The class-path lookup of the icon. The icon resource is an optional byte string. A
  missing one gives `IconNotFound`. `Paths.get(url.toURI())` and the null check on its
  file name are not modelled; the file name is the constant `jobcacher-oras.png`.
- A null media type (a `NullPointerException` inside the filter): media types are
  non-null strings.
- Logging, including the digest `exists` logs.
- Concurrency between callers on the same tag, which the code does not coordinate.
- `DataMigrationTest` tests the configuration migration of a storage class that is not
  part of this model. It holds no client logic.
