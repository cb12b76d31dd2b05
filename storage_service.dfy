/** `StorageService`: the bucket name taken from configuration, and the
    `gs://` address of an uploaded object. */
module Storage {
  import opened Wrappers
  import opened Strings
  import opened ByteSeq

  /** `_normalize_bucket_name`: strip, drop a leading `gs://`, and reduce any
      other `scheme://host/...` to its host. */
  function NormalizeBucketName(name: Option<string>): string {
    HostOf(DropGs(Strip(if name.Some? then name.value else "")))
  }

  /** A leading `gs://` removed. */
  function DropGs(n: string): string {
    if StartsWith(n, "gs://") then n[5..] else n
  }

  /** `scheme://host/...` reduced to `host`; other text unchanged. */
  function HostOf(n: string): string {
    if Contains(n, "://") then Before(After(n, "://"), "/") else n
  }

  /** The configured name may be missing: it then normalises to `""`. */
  lemma NormalizeMissing()
    ensures NormalizeBucketName(None) == ""
  {
    assert Strip("") == "";
  }

  /** Text with no `/` contains no `://`. */
  lemma NoSlashNoScheme(s: string)
    requires !Contains(s, "/")
    ensures !Contains(s, "://")
  {
    forall j | 0 <= j <= |s| ensures !MatchAt(s, "://", j) {
      if j + 3 <= |s| {
        assert !MatchAt(s, "/", j + 1);
        assert s[j + 1..j + 2] == [s[j + 1]];
        assert s[j..j + 3][1] == s[j + 1] != '/';
      }
    }
  }

  /** `p` occurring at `i` means `p in s`. */
  lemma MatchContains(s: string, p: string, i: nat)
    requires MatchAt(s, p, i)
    ensures Contains(s, p)
  {
  }

  /** The normalised name never contains `://`. */
  lemma NormalizedHasNoScheme(name: Option<string>)
    ensures !Contains(NormalizeBucketName(name), "://")
  {
    var n := Strip(if name.Some? then name.value else "");
    var n' := if StartsWith(n, "gs://") then n[5..] else n;
    if Contains(n', "://") {
      var rest := After(n', "://");
      var r := Before(rest, "/");
      if Contains(rest, "/") {
        assert !Contains(r, "/");
      }
      NoSlashNoScheme(r);
    }
  }

  /** A name without `://` is only stripped. */
  lemma NormalizePlain(name: string)
    requires !Contains(Strip(name), "://")
    ensures NormalizeBucketName(Some(name)) == Strip(name)
  {
    var n := Strip(name);
    if StartsWith(n, "gs://") {
      assert n[2..5] == "://";
      MatchContains(n, "://", 2);
    }
  }

  /** Splitting `x + p + y` at the first `p`, when `x` holds no first
      character of `p`, gives back `x` and `y`. */
  lemma SplitAtFirst(x: string, p: string, y: string)
    requires |p| > 0 && p[0] !in x
    ensures Find(x + p + y, p) == Some(|x|)
    ensures Contains(x + p + y, p) && Before(x + p + y, p) == x && After(x + p + y, p) == y
  {
    var s := x + p + y;
    assert s[|x|..|x| + |p|] == p;
    assert MatchAt(s, p, |x|);
    forall j | 0 <= j < |x| ensures !MatchAt(s, p, j) {
      assert s[j] == x[j];
      if j + |p| <= |s| {
        assert s[j..j + |p|][0] == x[j];
      }
    }
    assert s[|x| + |p|..] == y;
    assert s[..|x|] == x;
  }

  /** `gs://bucket` gives the bare bucket name. */
  lemma NormalizeGsBucket(bucket: string)
    requires bucket == [] || !IsSpace(bucket[|bucket| - 1])
    requires !Contains(bucket, "://")
    ensures NormalizeBucketName(Some("gs://" + bucket)) == bucket
  {
    var g := "gs://" + bucket;
    StripUnpadded(g);
    assert g[..5] == "gs://" && g[5..] == bucket;
    assert DropGs(g) == bucket;
    assert HostOf(bucket) == bucket;
  }

  /** A web address `https://host/path` gives its host. */
  lemma NormalizeWebAddress(host: string, path: string)
    requires '/' !in host
    requires path == [] || !IsSpace(path[|path| - 1])
    ensures NormalizeBucketName(Some("https://" + host + "/" + path)) == host
  {
    var w := "https://" + host + "/" + path;
    assert w[0] == 'h' && w[|w| - 1] == if path == [] then '/' else path[|path| - 1];
    StripUnpadded(w);
    assert w[..5] == "https";
    assert DropGs(w) == w;
    WebHost(host, path);
  }

  /** The host step on a web address. */
  lemma WebHost(host: string, path: string)
    requires '/' !in host
    ensures HostOf("https://" + host + "/" + path) == host
  {
    var rest := host + "/" + path;
    assert "https://" + host + "/" + path == "https" + "://" + rest;
    SplitAtFirst("https", "://", rest);
    SplitAtFirst(host, "/", path);
  }

  /** A `gs://` name that carries a path keeps the path: only other schemes
      are cut at the first `/`. */
  lemma NormalizeKeepsGsPath(bucket: string, path: string)
    requires path == [] || !IsSpace(path[|path| - 1])
    requires ':' !in bucket && ':' !in path
    ensures NormalizeBucketName(Some("gs://" + bucket + "/" + path)) == bucket + "/" + path
  {
    var g := "gs://" + bucket + "/" + path;
    assert g[0] == 'g' && g[|g| - 1] == if path == [] then '/' else path[|path| - 1];
    StripUnpadded(g);
    assert g[..5] == "gs://";
    var n := g[5..];
    assert DropGs(g) == n == bucket + "/" + path;
    assert ':' !in n;
    forall j | 0 <= j <= |n| ensures !MatchAt(n, "://", j) {
      if j + 3 <= |n| {
        assert n[j..j + 3][0] == n[j];
      }
    }
    assert HostOf(n) == n;
  }

  /** `gs://<bucket>/<dest_path>` */
  function ObjectUri(bucket: string, path: string): string {
    "gs://" + bucket + "/" + path
  }

  /** One `blob.upload_from_string` call. */
  datatype Upload = Upload(bucket: string, path: string, data: Bytes, contentType: string)

  /** The blob store: `None` when the write is stored, or the message of the
      exception it raises. */
  type BlobStore = Upload -> Option<string>

  /** `upload_bytes`: write the object under `path` verbatim; the exception
      propagates. */
  function UploadBytes(store: BlobStore, bucket: string, data: Bytes, path: string, contentType: string): (r: Result<string>)
    ensures r.Success? <==> store(Upload(bucket, path, data, contentType)).None?
    ensures r.Success? ==> r.value == ObjectUri(bucket, path)
    ensures r.Failure? ==> r.error == store(Upload(bucket, path, data, contentType)).value
  {
    match store(Upload(bucket, path, data, contentType))
    case Some(msg) => Failure(msg)
    case None => Success(ObjectUri(bucket, path))
  }

  /** The address names the bucket and the object path, which can be read back. */
  lemma UriRoundTrip(bucket: string, path: string)
    requires '/' !in bucket
    ensures StartsWith(ObjectUri(bucket, path), "gs://")
    ensures Before(ObjectUri(bucket, path)[5..], "/") == bucket
    ensures After(ObjectUri(bucket, path)[5..], "/") == path
  {
    assert ObjectUri(bucket, path)[5..] == bucket + "/" + path;
    SplitAtFirst(bucket, "/", path);
  }
}
