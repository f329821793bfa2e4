/**
 * Initialization of the object-storage (S3) source: the source URI, the
 * region and the connection timeout are checked in that order, then the
 * endpoint, the prefix and the bucket are derived from the URI and the
 * remaining settings are copied in. Each step writes one field of the
 * source's `S3Keys`; a failed check stops the sequence, leaving the fields
 * written before it.
 */
module S3Source {
  import opened Wrappers
  import opened JavaLang
  import PercentCoding

  /** The region used when the S3 parameters name none. */
  const DEFAULT_REGION: string := "us-west-2"

  /** A parsed URL, reduced to what the initializer reads: its host and its
      encoded path. */
  datatype HttpUrl = HttpUrl(host: string, encodedPath: string)

  /** What the initializer reads from the job's configuration, already resolved. */
  datatype S3Inputs = S3Inputs(
    /** The source URI parsed as a URL; `None` when it does not parse. */
    sourceUri: Option<HttpUrl>,
    /** The `region` member of the S3 parameters, when present. */
    region: Option<string>,
    /** The `connection_timeout` member of the S3 parameters, when present. */
    connectionTimeout: Option<int32>,
    filesPattern: string,
    maxKeys: int32,
    accessKey: string,
    secretId: string,
    targetFilePattern: string)

  /** The exceptions that abort initialization. */
  datatype InitError =
    | IncorrectSourceUri
    | InvalidRegion(region: string)
    | InvalidTimeout(timeout: int32)
    | MalformedHost(host: string)
    | EmptyEncodedPath

  datatype InitOutcome = Initialized | Failed(error: InitError)

  /** The values of the fields of an `S3Keys` object that initialization writes. */
  datatype S3Settings = S3Settings(
    region: string,
    connectionTimeout: int32,
    endpoint: string,
    prefix: string,
    bucket: string,
    filesPattern: string,
    maxKeys: int32,
    accessKey: string,
    secretId: string,
    targetFilePattern: string)

  datatype InitResult = InitResult(outcome: InitOutcome, after: S3Settings)

  /** The host without its first label: the labels after the first, joined
      with dots; `None` when the host has fewer than two labels. */
  function EndpointFromHost(host: string): (r: Option<string>)
    ensures r.None? <==> |SplitOnDot(host)| < 2
  {
    var segments := SplitOnDot(host);
    if |segments| > 1 then Some(JoinDot(segments[1..])) else None
  }

  /** The first label of the host. */
  function BucketOfHost(host: string): (r: string)
    requires |SplitOnDot(host)| > 0
    ensures '.' !in r
    ensures '.' !in host ==> r == host
    ensures '.' in host ==> r == Pieces(host)[0]
  {
    SplitOnDot(host)[0]
  }

  /**
   * The effect of initialization on the settings `before` it: the outcome
   * and the settings after it. Each check that fails stops the sequence, so
   * the fields written before it keep their new values and the others their
   * old ones.
   */
  function InitializeSpec(before: S3Settings, cfg: S3Inputs, regions: set<string>): (r: InitResult)
    ensures r.outcome.Initialized? ==> r.after.region == DEFAULT_REGION || r.after.region in regions
    ensures r.after.connectionTimeout == before.connectionTimeout || r.after.connectionTimeout > 0
    ensures r.outcome.Initialized? ==> |r.after.endpoint| > 8 && r.after.endpoint[..8] == "https://"
    ensures r.outcome.Initialized? ==> '.' !in r.after.bucket
  {
    if cfg.sourceUri.None? || cfg.sourceUri.value.host == "" then
      InitResult(Failed(IncorrectSourceUri), before)
    else if cfg.region.Some? && cfg.region.value !in regions then
      InitResult(Failed(InvalidRegion(cfg.region.value)), before)
    else
      var url := cfg.sourceUri.value;
      var withRegion := before.(region := cfg.region.GetOr(DEFAULT_REGION));
      if cfg.connectionTimeout.Some? && cfg.connectionTimeout.value <= 0 then
        InitResult(Failed(InvalidTimeout(cfg.connectionTimeout.value)), withRegion)
      else
        var withTimeout :=
          if cfg.connectionTimeout.Some? then withRegion.(connectionTimeout := cfg.connectionTimeout.value)
          else withRegion;
        match EndpointFromHost(url.host)
        case None => InitResult(Failed(MalformedHost(url.host)), withTimeout)
        case Some(endpointHost) =>
          var withEndpoint := withTimeout.(endpoint := "https://" + endpointHost);
          if |url.encodedPath| == 0 then
            InitResult(Failed(EmptyEncodedPath), withEndpoint)
          else
            InitResult(Initialized, withEndpoint.(
              prefix := PercentCoding.Decode(url.encodedPath[1..]),
              bucket := BucketOfHost(url.host),
              filesPattern := cfg.filesPattern,
              maxKeys := cfg.maxKeys,
              accessKey := cfg.accessKey,
              secretId := cfg.secretId,
              targetFilePattern := cfg.targetFilePattern))
  }

  /** The settings object of the S3 source; its initial field values are not
      part of this model. */
  class S3Keys {
    var region: string
    var connectionTimeout: int32
    var endpoint: string
    var prefix: string
    var bucket: string
    var filesPattern: string
    var maxKeys: int32
    var accessKey: string
    var secretId: string
    var targetFilePattern: string

    function Settings(): S3Settings
      reads this
    {
      S3Settings(region, connectionTimeout, endpoint, prefix, bucket, filesPattern, maxKeys,
        accessKey, secretId, targetFilePattern)
    }

    method SetRegion(v: string)
      modifies this
      ensures Settings() == old(Settings()).(region := v)
    {
      region := v;
    }

    method SetConnectionTimeout(v: int32)
      modifies this
      ensures Settings() == old(Settings()).(connectionTimeout := v)
    {
      connectionTimeout := v;
    }

    method SetEndpoint(v: string)
      modifies this
      ensures Settings() == old(Settings()).(endpoint := v)
    {
      endpoint := v;
    }

    method SetPrefix(v: string)
      modifies this
      ensures Settings() == old(Settings()).(prefix := v)
    {
      prefix := v;
    }

    method SetBucket(v: string)
      modifies this
      ensures Settings() == old(Settings()).(bucket := v)
    {
      bucket := v;
    }

    method SetFilesPattern(v: string)
      modifies this
      ensures Settings() == old(Settings()).(filesPattern := v)
    {
      filesPattern := v;
    }

    method SetMaxKeys(v: int32)
      modifies this
      ensures Settings() == old(Settings()).(maxKeys := v)
    {
      maxKeys := v;
    }

    method SetAccessKey(v: string)
      modifies this
      ensures Settings() == old(Settings()).(accessKey := v)
    {
      accessKey := v;
    }

    method SetSecretId(v: string)
      modifies this
      ensures Settings() == old(Settings()).(secretId := v)
    {
      secretId := v;
    }

    method SetTargetFilePattern(v: string)
      modifies this
      ensures Settings() == old(Settings()).(targetFilePattern := v)
    {
      targetFilePattern := v;
    }
  }

  class S3SourceV2 {
    const s3SourceV2Keys: S3Keys

    constructor ()
      ensures fresh(s3SourceV2Keys)
    {
      s3SourceV2Keys := new S3Keys;
    }

    /**
     * Checks the source URI, the region and the timeout, then writes the
     * derived and copied settings, one setter call at a time. `regions` is
     * the set of region identifiers the storage service knows.
     */
    method Initialize(cfg: S3Inputs, regions: set<string>) returns (outcome: InitOutcome)
      modifies s3SourceV2Keys
      ensures InitResult(outcome, s3SourceV2Keys.Settings())
        == InitializeSpec(old(s3SourceV2Keys.Settings()), cfg, regions)
    {
      var keys := s3SourceV2Keys;
      if cfg.sourceUri.None? || cfg.sourceUri.value.host == "" {
        return Failed(IncorrectSourceUri);
      }
      var url := cfg.sourceUri.value;

      if cfg.region.Some? {
        if cfg.region.value !in regions {
          return Failed(InvalidRegion(cfg.region.value));
        }
        keys.SetRegion(cfg.region.value);
      } else {
        keys.SetRegion(DEFAULT_REGION);
      }

      if cfg.connectionTimeout.Some? {
        var timeout := cfg.connectionTimeout.value;
        if timeout <= 0 {
          return Failed(InvalidTimeout(timeout));
        }
        keys.SetConnectionTimeout(timeout);
      }

      var endpointHost := EndpointFromHost(url.host);
      if endpointHost.None? {
        return Failed(MalformedHost(url.host));
      }
      keys.SetEndpoint("https://" + endpointHost.value);

      if |url.encodedPath| == 0 {
        return Failed(EmptyEncodedPath);
      }
      keys.SetPrefix(PercentCoding.Decode(url.encodedPath[1..]));

      keys.SetBucket(SplitOnDot(url.host)[0]);

      keys.SetFilesPattern(cfg.filesPattern);
      keys.SetMaxKeys(cfg.maxKeys);
      keys.SetAccessKey(cfg.accessKey);
      keys.SetSecretId(cfg.secretId);
      keys.SetTargetFilePattern(cfg.targetFilePattern);
      return Initialized;
    }
  }

  // -----------------------------------------------------------------------
  // Properties of initialization

  /** True when the URI parses and has a host. */
  predicate UriAccepted(cfg: S3Inputs)
  {
    cfg.sourceUri.Some? && cfg.sourceUri.value.host != ""
  }

  /** True when no region is named or the one named is known. */
  predicate RegionAccepted(cfg: S3Inputs, regions: set<string>)
  {
    cfg.region.None? || cfg.region.value in regions
  }

  /** True when no timeout is given or the one given is positive. */
  predicate TimeoutAccepted(cfg: S3Inputs)
  {
    cfg.connectionTimeout.None? || cfg.connectionTimeout.value > 0
  }

  /** The URI is checked first: a missing URL or an empty host fails, and
      then nothing has been written. */
  lemma SourceUriCheckedFirst(before: S3Settings, cfg: S3Inputs, regions: set<string>)
    ensures var r := InitializeSpec(before, cfg, regions);
      && (r.outcome == Failed(IncorrectSourceUri) <==> !UriAccepted(cfg))
      && (!UriAccepted(cfg) ==> r.after == before)
  {
  }

  /** After the URI, the region: an unknown one fails with nothing written; a
      known one is stored, and without one the region is `us-west-2`. */
  lemma RegionCheckedSecond(before: S3Settings, cfg: S3Inputs, regions: set<string>)
    requires UriAccepted(cfg)
    ensures var r := InitializeSpec(before, cfg, regions);
      && (!RegionAccepted(cfg, regions) ==>
            r.outcome == Failed(InvalidRegion(cfg.region.value)) && r.after == before)
      && (RegionAccepted(cfg, regions) ==>
            r.outcome.Initialized? || (!r.outcome.error.IncorrectSourceUri? && !r.outcome.error.InvalidRegion?))
      && (RegionAccepted(cfg, regions) ==>
            r.after.region == (if cfg.region.Some? then cfg.region.value else DEFAULT_REGION))
  {
  }

  /** Then the timeout: a non-positive one fails after the region has been
      written; a positive one is stored; without one the timeout is left as it was. */
  lemma TimeoutCheckedThird(before: S3Settings, cfg: S3Inputs, regions: set<string>)
    ensures var r := InitializeSpec(before, cfg, regions);
      && (cfg.connectionTimeout.None? ==> r.after.connectionTimeout == before.connectionTimeout)
      && (UriAccepted(cfg) && RegionAccepted(cfg, regions) && !TimeoutAccepted(cfg) ==>
            && r.outcome == Failed(InvalidTimeout(cfg.connectionTimeout.value))
            && r.after == before.(region := cfg.region.GetOr(DEFAULT_REGION)))
      && (UriAccepted(cfg) && RegionAccepted(cfg, regions) && cfg.connectionTimeout.Some? && TimeoutAccepted(cfg) ==>
            r.after.connectionTimeout == cfg.connectionTimeout.value)
  {
  }

  /** The checks come before the derived fields: when the URI, region or
      timeout check fails, endpoint, prefix and bucket are as they were; when
      the host is malformed, prefix and bucket are. */
  lemma ChecksPrecedeDerivedFields(before: S3Settings, cfg: S3Inputs, regions: set<string>)
    ensures var r := InitializeSpec(before, cfg, regions);
      && (!UriAccepted(cfg) || !RegionAccepted(cfg, regions) || !TimeoutAccepted(cfg) ==>
            && r.outcome.Failed?
            && r.after.endpoint == before.endpoint
            && r.after.prefix == before.prefix
            && r.after.bucket == before.bucket)
      && (r.outcome.Failed? && r.outcome.error.MalformedHost? ==>
            r.after.prefix == before.prefix && r.after.bucket == before.bucket)
  {
  }

  /**
   * Initialization succeeds exactly when every check passes, and then the
   * bucket is the host's first label, the endpoint is `https://` and the
   * other labels, the prefix is the decoded path without its first
   * character, and the other settings are the resolved ones.
   */
  lemma InitializedDerivesFromUri(before: S3Settings, cfg: S3Inputs, regions: set<string>)
    ensures var r := InitializeSpec(before, cfg, regions);
      r.outcome == Initialized <==>
        && UriAccepted(cfg) && RegionAccepted(cfg, regions) && TimeoutAccepted(cfg)
        && |SplitOnDot(cfg.sourceUri.value.host)| >= 2
        && |cfg.sourceUri.value.encodedPath| > 0
    ensures var r := InitializeSpec(before, cfg, regions);
      r.outcome == Initialized ==>
        var url := cfg.sourceUri.value;
        && r.after.bucket == SplitOnDot(url.host)[0]
        && r.after.endpoint == "https://" + JoinDot(SplitOnDot(url.host)[1..])
        && r.after.prefix == PercentCoding.Decode(url.encodedPath[1..])
        && r.after.region == cfg.region.GetOr(DEFAULT_REGION)
        && r.after.connectionTimeout == cfg.connectionTimeout.GetOr(before.connectionTimeout)
        && r.after.filesPattern == cfg.filesPattern
        && r.after.maxKeys == cfg.maxKeys
        && r.after.accessKey == cfg.accessKey
        && r.after.secretId == cfg.secretId
        && r.after.targetFilePattern == cfg.targetFilePattern
  {
  }

  /** For a host without empty labels, the bucket, a dot and the endpoint
      without its scheme give the host back: both come from the one URI. */
  lemma BucketAndEndpointMatchUri(before: S3Settings, cfg: S3Inputs, regions: set<string>)
    requires InitializeSpec(before, cfg, regions).outcome == Initialized
    requires forall i :: 0 <= i < |Pieces(cfg.sourceUri.value.host)| ==> Pieces(cfg.sourceUri.value.host)[i] != ""
    ensures var after := InitializeSpec(before, cfg, regions).after;
      && |after.endpoint| >= 8 && after.endpoint[..8] == "https://"
      && after.bucket + "." + after.endpoint[8..] == cfg.sourceUri.value.host
  {
    var host := cfg.sourceUri.value.host;
    var after := InitializeSpec(before, cfg, regions).after;
    BucketAndEndpointRebuildHost(host);
    assert after.endpoint == "https://" + EndpointFromHost(host).value;
  }

  /**
   * The URI `https://my-bucket.s3.us-west-2.amazonaws.com/a%7Bb%7D/c` with no
   * region and no timeout: initialization succeeds with bucket `my-bucket`,
   * endpoint `https://s3.us-west-2.amazonaws.com`, prefix `a{b}/c`, region
   * `us-west-2`, and the timeout left as it was.
   */
  lemma TemplateUriExample(before: S3Settings, cfg: S3Inputs, regions: set<string>)
    requires cfg.sourceUri == Some(HttpUrl("my-bucket.s3.us-west-2.amazonaws.com", "/a%7Bb%7D/c"))
    requires cfg.region.None? && cfg.connectionTimeout.None?
    ensures var r := InitializeSpec(before, cfg, regions);
      && r.outcome == Initialized
      && r.after.bucket == "my-bucket"
      && r.after.endpoint == "https://" + "s3.us-west-2.amazonaws.com"
      && r.after.prefix == "a{b}/c"
      && r.after.region == "us-west-2"
      && r.after.connectionTimeout == before.connectionTimeout
  {
    var url := cfg.sourceUri.value;
    UrlExample(url.host, url.encodedPath);
    InitializedDerivesFromUri(before, cfg, regions);
  }

  /** The host and path of that URI: labels, endpoint host and decoded prefix. */
  lemma UrlExample(host: string, path: string)
    requires host == "my-bucket.s3.us-west-2.amazonaws.com" && path == "/a%7Bb%7D/c"
    ensures |SplitOnDot(host)| >= 2 && SplitOnDot(host)[0] == "my-bucket"
    ensures JoinDot(SplitOnDot(host)[1..]) == "s3.us-west-2.amazonaws.com"
    ensures |path| > 0 && PercentCoding.Decode(path[1..]) == "a{b}/c"
  {
    AwsHostExample();
    AwsEndpointHostJoined();
    PercentCoding.DecodeTemplatePath();
    assert path[1..] == "a%7Bb%7D/c";
  }

  // -----------------------------------------------------------------------
  // Properties of the host split

  /** For a host whose labels are all non-empty and at least two, the bucket,
      a dot and the endpoint host give the host back. */
  lemma BucketAndEndpointRebuildHost(host: string)
    requires |Pieces(host)| >= 2
    requires forall i :: 0 <= i < |Pieces(host)| ==> Pieces(host)[i] != ""
    ensures EndpointFromHost(host).Some?
    ensures BucketOfHost(host) + "." + EndpointFromHost(host).value == host
  {
    SplitKeepsNonEmptyPieces(host);
    JoinPieces(host);
  }

  /** The endpoint host has the labels of the host after the first. */
  lemma EndpointLabels(host: string)
    requires EndpointFromHost(host).Some?
    ensures Pieces(EndpointFromHost(host).value) == SplitOnDot(host)[1..]
  {
    var segments := SplitOnDot(host);
    assert '.' in host;
    assert forall i :: 0 <= i < |segments| ==> segments[i] == Pieces(host)[i];
    PiecesOfJoin(segments[1..]);
  }

  /** A host made of dot-free, non-empty labels has the first label as its
      bucket and the others, joined with dots, as its endpoint host. */
  lemma HostOfLabels(labels: seq<string>)
    requires |labels| >= 2
    requires forall i :: 0 <= i < |labels| ==> '.' !in labels[i] && labels[i] != ""
    ensures SplitOnDot(JoinDot(labels)) == labels
    ensures BucketOfHost(JoinDot(labels)) == labels[0]
    ensures EndpointFromHost(JoinDot(labels)) == Some(JoinDot(labels[1..]))
  {
    PiecesOfJoin(labels);
    SplitKeepsNonEmptyPieces(JoinDot(labels));
  }

  lemma AwsEndpointHostJoined()
    ensures JoinDot(["s3", "us-west-2", "amazonaws", "com"]) == "s3.us-west-2.amazonaws.com"
  {
    JoinDotCons("amazonaws", ["com"]);
    JoinDotCons("us-west-2", ["amazonaws", "com"]);
    JoinDotCons("s3", ["us-west-2", "amazonaws", "com"]);
  }

  lemma AwsHostJoined()
    ensures JoinDot(["my-bucket", "s3", "us-west-2", "amazonaws", "com"]) == "my-bucket.s3.us-west-2.amazonaws.com"
  {
    AwsEndpointHostJoined();
    JoinDotCons("my-bucket", ["s3", "us-west-2", "amazonaws", "com"]);
  }

  /** `my-bucket.s3.us-west-2.amazonaws.com` has five labels, the first of
      them the bucket `my-bucket`, and the endpoint host `s3.us-west-2.amazonaws.com`. */
  lemma AwsHostExample()
    ensures SplitOnDot("my-bucket.s3.us-west-2.amazonaws.com") == ["my-bucket", "s3", "us-west-2", "amazonaws", "com"]
    ensures EndpointFromHost("my-bucket.s3.us-west-2.amazonaws.com") == Some("s3.us-west-2.amazonaws.com")
  {
    AwsEndpointHostJoined();
    AwsHostJoined();
    var labels := ["my-bucket", "s3", "us-west-2", "amazonaws", "com"];
    assert labels[1..] == ["s3", "us-west-2", "amazonaws", "com"];
    HostOfLabels(labels);
  }
}
