# cdi-core configuration and extraction state, in Dafny

This project models three pieces of `cdi-core`, the core of a data-integration
library. Each piece is a set of configuration rules or state records, and each
runs step by step with no I/O once its library calls are made explicit.

* **Integer configuration properties** (`IntegerProperties`), module `Configuration`.
  A descriptor names one key of a job's configuration set and holds a minimum,
  a maximum and a default. Against a configuration set (a string-to-string
  map), it says whether the key is blank and whether its value is valid. It
  also gives the value to use. `Integer.parseInt` and `StringUtils.isBlank`
  are modelled in `JavaLang`, and a round trip with decimal rendering is
  proved.
* **Extraction state records**: `ExtractorKeys` (module `Extraction`),
  `AvroExtractorKeys` (module `Avro`) and `JdbcKeys` (module `Jdbc`).
  * These are classes whose fields are updated in place by setters and by the
    `long` counters `incrProcessedCount` and `incrCurrentPageNumber`.
  * Each class has a snapshot function (`State`, `AvroFields`, `Fields`).
    Every method states the whole new snapshot, so each setter is shown to
    change its own field only.
  * The counters wrap around at 2^63 as Java's `long ++` does.
  * `AvroExtractorKeys` holds the inherited `ExtractorKeys` fields by
    composition, in `extractorKeys`.
* **Initialization of the S3 source** (`S3SourceV2.initialize` and
  `getEndpointFromHost`), module `S3Source`. It runs these steps in order:
  1. Check the source URI.
  2. Check the region against the known regions; without one, the region is
     `us-west-2`.
  3. Check the connection timeout.
  4. Derive the endpoint from the host's labels after the first.
  5. Derive the prefix: the encoded path without its first character,
     percent-decoded (module `PercentCoding`, section 2.1 of RFC 3986).
  6. Derive the bucket: the host's first label.
  7. Copy the remaining settings.

  `Initialize` is a method that calls the `S3Keys` setters one at a time. Its
  contract ties the outcome and the new settings to the pure function
  `InitializeSpec`. The lemmas about `InitializeSpec` cover:
  * the order of the checks;
  * the fields already written when a check fails;
  * the derived fields on success.

  `String.split("\\.")` is modelled with Java's rule for trailing empty
  strings. The split and `Joiner.on(".").join` are proved to be inverse for
  hosts without empty labels.

The constructors (`IntegerProperties.java:21-35`) never compare the default
value with the bounds, so a default outside them is accepted and returned for
a blank or invalid value (`Configuration.DefaultNeedNotLieInBounds`).

## Model

| member | source | states |
|---|---|---|
| Configuration.OfKey | cdi-core/src/main/java/com/linkedin/cdi/configuration/IntegerProperties.java:21-23 | the one-argument form has maximum `Integer.MAX_VALUE`, minimum 0 and default 0 |
| Configuration.OfKeyMax | cdi-core/src/main/java/com/linkedin/cdi/configuration/IntegerProperties.java:25-27 | the two-argument form keeps the given maximum; minimum and default are 0 |
| Configuration.OfKeyMaxMin | cdi-core/src/main/java/com/linkedin/cdi/configuration/IntegerProperties.java:29-31 | the three-argument form keeps both bounds; the default is 0 |
| Configuration.IsBlank | cdi-core/src/main/java/com/linkedin/cdi/configuration/IntegerProperties.java:46-49 | blank exactly when the key is absent or every character of its value is Java whitespace (the empty value included) |
| Configuration.IsValid | cdi-core/src/main/java/com/linkedin/cdi/configuration/IntegerProperties.java:59-69 | a blank value is valid; a non-blank one is valid exactly when it parses as an `int` within [min, max], so a parse failure gives false, not an error |
| Configuration.IsValidNonblank | cdi-core/src/main/java/com/linkedin/cdi/configuration/IntegerProperties.java:78-80 | true exactly when the key is present, its value parses and the parsed value lies within [min, max] |
| Configuration.GetValidNonblankWithDefault | cdi-core/src/main/java/com/linkedin/cdi/configuration/IntegerProperties.java:89-95 | a valid non-blank value is returned exactly as parsed (the clamp never changes it); otherwise the default; the result is always within the bounds or the default |
| Configuration.WrittenValueReadBack | cdi-core/src/main/java/com/linkedin/cdi/configuration/IntegerProperties.java:59-95 | any `int` written in decimal under the key is valid exactly when within the bounds, and then reads back as itself; otherwise it reads as the default |
| Configuration.OneArgumentFormIsNonNegative | cdi-core/src/main/java/com/linkedin/cdi/configuration/IntegerProperties.java:21-23 | with the one-argument form the value read is never negative, and a present value is valid exactly when it parses as a non-negative `int` |
| Configuration.OutOfRangeFallsBackToDefault | cdi-core/src/main/java/com/linkedin/cdi/configuration/IntegerProperties.java:89-94 | bounds [0, 100], default 0 and value "150": invalid, and reads as 0 |
| Configuration.DefaultNeedNotLieInBounds | cdi-core/src/main/java/com/linkedin/cdi/configuration/IntegerProperties.java:33-35 | nothing checks the default against the bounds: bounds [5, 10] with default 0 give 0 for a missing key, outside the bounds |
| JavaLang.IsJavaWhitespace | cdi-core/src/main/java/com/linkedin/cdi/configuration/IntegerProperties.java:48 | `Character.isWhitespace` as in Java 8: space, tab and newline are whitespace; the no-break spaces, decimal digits and signs are not |
| JavaLang.StringIsBlank | cdi-core/src/main/java/com/linkedin/cdi/configuration/IntegerProperties.java:48 | `StringUtils.isBlank`: true exactly when every character is whitespace in the sense of `Character.isWhitespace`; the empty string is blank |
| JavaLang.ParseInt | cdi-core/src/main/java/com/linkedin/cdi/configuration/IntegerProperties.java:62 | `Integer.parseInt`: a string that parses is non-empty and holds no whitespace; failures are `None` |
| JavaLang.ParseFormatRoundTrip | cdi-core/src/main/java/com/linkedin/cdi/configuration/IntegerProperties.java:62 | every `int`, written in decimal, parses back to itself |
| JavaLang.ParsedIsNotBlank | cdi-core/src/main/java/com/linkedin/cdi/configuration/IntegerProperties.java:60-62 | a value that parses is never blank |
| JavaLang.Wrap64 | cdi-core/src/main/java/com/linkedin/cdi/keys/ExtractorKeys.java:51 | the `long` an integer becomes differs from it by a multiple of 2^64, and is the integer itself when it is in range |
| JavaLang.Incr64 | cdi-core/src/main/java/com/linkedin/cdi/keys/ExtractorKeys.java:54 | `x++` on a `long` is `x + 1` wrapped to 64 bits |
| JavaLang.IncrementsWrap | cdi-core/src/main/java/com/linkedin/cdi/keys/ExtractorKeys.java:53-55 | n consecutive increments add n modulo 2^64 |
| JavaLang.IncrementsAdd | cdi-core/src/main/java/com/linkedin/cdi/keys/ExtractorKeys.java:53-55 | without overflow, n consecutive increments add exactly n, so the counter only grows across increments |
| JavaLang.SplitOnDot | cdi-core/src/main/java/com/linkedin/cdi/source/S3SourceV2.java:83 | `split("\\.")`: no resulting piece contains a dot; a string without a dot gives itself alone; otherwise the dot-separated pieces with only trailing empty ones removed, the last kept piece non-empty |
| JavaLang.JoinDot | cdi-core/src/main/java/com/linkedin/cdi/source/S3SourceV2.java:120 | `Joiner.on(".").join`: no parts give the empty string; otherwise the first part begins the result and, when there are more, a dot follows it |
| JavaLang.JoinPieces | cdi-core/src/main/java/com/linkedin/cdi/source/S3SourceV2.java:117-120 | joining the dot-separated pieces of a string with dots gives the string back |
| JavaLang.PiecesOfJoin | cdi-core/src/main/java/com/linkedin/cdi/source/S3SourceV2.java:117-120 | splitting dot-free labels joined with dots gives the labels back |
| JavaLang.SplitKeepsNonEmptyPieces | cdi-core/src/main/java/com/linkedin/cdi/source/S3SourceV2.java:117 | when no piece is empty, `split("\\.")` drops nothing |
| PercentCoding.Decode | cdi-core/src/main/java/com/linkedin/cdi/source/S3SourceV2.java:78-80 | decoding never lengthens the text and leaves text without `%` as it is |
| PercentCoding.DecodeEncode | cdi-core/src/main/java/com/linkedin/cdi/source/S3SourceV2.java:78-80 | decoding undoes percent-encoding for every string, braces of path templates included |
| PercentCoding.DecodeTemplatePath | cdi-core/src/main/java/com/linkedin/cdi/source/S3SourceV2.java:78-80 | `a%7Bb%7D/c` decodes to `a{b}/c` |
| Extraction.ExtractorKeys.constructor | cdi-core/src/main/java/com/linkedin/cdi/keys/ExtractorKeys.java:41-51 | a fresh object has empty activation and dynamic parameters, payloads and preprocessors; no signature, session key or inferred schema; `explictEof` unset; nothing processed; start time equal to the clock reading |
| Extraction.ExtractorKeys.IncrProcessedCount | cdi-core/src/main/java/com/linkedin/cdi/keys/ExtractorKeys.java:53-55 | `processedCount` goes up by one (64-bit wrap) and no other field changes |
| Extraction.ExtractorKeys.LogDebugAll | cdi-core/src/main/java/com/linkedin/cdi/keys/ExtractorKeys.java:57-70 | every field is unchanged |
| Extraction.ExtractorKeys.LogUsage | cdi-core/src/main/java/com/linkedin/cdi/keys/ExtractorKeys.java:72-76 | every field is unchanged |
| Extraction.ExtractorKeys.GetActivationParameters | cdi-core/src/main/java/com/linkedin/cdi/keys/ExtractorKeys.java:78-80 | the current value of the field, null as `None` where the field is nullable; each setter row below gives what it returns after a set |
| Extraction.ExtractorKeys.GetStartTime | cdi-core/src/main/java/com/linkedin/cdi/keys/ExtractorKeys.java:86-88 | the current value of the field, null as `None` where the field is nullable; each setter row below gives what it returns after a set |
| Extraction.ExtractorKeys.GetDelayStartTime | cdi-core/src/main/java/com/linkedin/cdi/keys/ExtractorKeys.java:94-96 | the current value of the field, null as `None` where the field is nullable; each setter row below gives what it returns after a set |
| Extraction.ExtractorKeys.GetSignature | cdi-core/src/main/java/com/linkedin/cdi/keys/ExtractorKeys.java:102-104 | the current value of the field, null as `None` where the field is nullable; each setter row below gives what it returns after a set |
| Extraction.ExtractorKeys.GetInferredSchema | cdi-core/src/main/java/com/linkedin/cdi/keys/ExtractorKeys.java:110-112 | the current value of the field, null as `None` where the field is nullable; each setter row below gives what it returns after a set |
| Extraction.ExtractorKeys.GetSessionKeyValue | cdi-core/src/main/java/com/linkedin/cdi/keys/ExtractorKeys.java:118-120 | the current value of the field, null as `None` where the field is nullable; each setter row below gives what it returns after a set |
| Extraction.ExtractorKeys.GetPreprocessors | cdi-core/src/main/java/com/linkedin/cdi/keys/ExtractorKeys.java:126-128 | the current value of the field, null as `None` where the field is nullable; each setter row below gives what it returns after a set |
| Extraction.ExtractorKeys.GetDynamicParameters | cdi-core/src/main/java/com/linkedin/cdi/keys/ExtractorKeys.java:134-136 | the current value of the field, null as `None` where the field is nullable; each setter row below gives what it returns after a set |
| Extraction.ExtractorKeys.GetExplictEof | cdi-core/src/main/java/com/linkedin/cdi/keys/ExtractorKeys.java:142-144 | the current value of the field, null as `None` where the field is nullable; each setter row below gives what it returns after a set |
| Extraction.ExtractorKeys.GetPayloads | cdi-core/src/main/java/com/linkedin/cdi/keys/ExtractorKeys.java:150-152 | the current value of the field, null as `None` where the field is nullable; each setter row below gives what it returns after a set |
| Extraction.ExtractorKeys.GetProcessedCount | cdi-core/src/main/java/com/linkedin/cdi/keys/ExtractorKeys.java:158-160 | the current value of the field, null as `None` where the field is nullable; each setter row below gives what it returns after a set |
| Extraction.ExtractorKeys.SetActivationParameters | cdi-core/src/main/java/com/linkedin/cdi/keys/ExtractorKeys.java:78-84 | the getter returns the value set; no other field changes |
| Extraction.ExtractorKeys.SetStartTime | cdi-core/src/main/java/com/linkedin/cdi/keys/ExtractorKeys.java:86-92 | the getter returns the value set; no other field changes |
| Extraction.ExtractorKeys.SetDelayStartTime | cdi-core/src/main/java/com/linkedin/cdi/keys/ExtractorKeys.java:94-100 | the getter returns the value set; no other field changes |
| Extraction.ExtractorKeys.SetSignature | cdi-core/src/main/java/com/linkedin/cdi/keys/ExtractorKeys.java:102-108 | the getter returns the value set (null included); no other field changes |
| Extraction.ExtractorKeys.SetInferredSchema | cdi-core/src/main/java/com/linkedin/cdi/keys/ExtractorKeys.java:110-116 | the getter returns the value set (null included); no other field changes |
| Extraction.ExtractorKeys.SetSessionKeyValue | cdi-core/src/main/java/com/linkedin/cdi/keys/ExtractorKeys.java:118-124 | the getter returns the value set (null included); no other field changes |
| Extraction.ExtractorKeys.SetPreprocessors | cdi-core/src/main/java/com/linkedin/cdi/keys/ExtractorKeys.java:126-132 | the getter returns the value set; no other field changes |
| Extraction.ExtractorKeys.SetDynamicParameters | cdi-core/src/main/java/com/linkedin/cdi/keys/ExtractorKeys.java:134-140 | the getter returns the value set; no other field changes |
| Extraction.ExtractorKeys.SetExplictEof | cdi-core/src/main/java/com/linkedin/cdi/keys/ExtractorKeys.java:142-148 | the tri-state flag (unset, true or false) becomes the value set; no other field changes |
| Extraction.ExtractorKeys.SetPayloads | cdi-core/src/main/java/com/linkedin/cdi/keys/ExtractorKeys.java:150-156 | the getter returns the value set; no other field changes |
| Extraction.ExtractorKeys.SetProcessedCount | cdi-core/src/main/java/com/linkedin/cdi/keys/ExtractorKeys.java:158-164 | any value may be assigned, so the counter is monotone only across increments; no other field changes |
| Avro.AvroExtractorKeys.constructor | cdi-core/src/main/java/com/linkedin/cdi/keys/AvroExtractorKeys.java:80-86 | a fresh object has page 0, total 0, the output schema deemed valid, and no cursor, schema or sample; the inherited fields are those of a fresh `ExtractorKeys` |
| Avro.AvroExtractorKeys.IncrCurrentPageNumber | cdi-core/src/main/java/com/linkedin/cdi/keys/AvroExtractorKeys.java:88-90 | `currentPageNumber` goes up by one (64-bit wrap); no other field changes, inherited ones (`processedCount` among them) included |
| Avro.AvroExtractorKeys.LogDebugAll | cdi-core/src/main/java/com/linkedin/cdi/keys/AvroExtractorKeys.java:94-100 | every field, inherited or added, is unchanged |
| Avro.AvroExtractorKeys.LogUsage | cdi-core/src/main/java/com/linkedin/cdi/keys/AvroExtractorKeys.java:102-108 | every field, inherited or added, is unchanged |
| Avro.AvroExtractorKeys.GetAvroRecordIterator | cdi-core/src/main/java/com/linkedin/cdi/keys/AvroExtractorKeys.java:27-29 | the current value of the field, null as `None` where the field is nullable; each setter row below gives what it returns after a set |
| Avro.AvroExtractorKeys.GetTotalCount | cdi-core/src/main/java/com/linkedin/cdi/keys/AvroExtractorKeys.java:35-37 | the current value of the field, null as `None` where the field is nullable; each setter row below gives what it returns after a set |
| Avro.AvroExtractorKeys.GetCurrentPageNumber | cdi-core/src/main/java/com/linkedin/cdi/keys/AvroExtractorKeys.java:43-45 | the current value of the field, null as `None` where the field is nullable; each setter row below gives what it returns after a set |
| Avro.AvroExtractorKeys.GetAvroOutputSchema | cdi-core/src/main/java/com/linkedin/cdi/keys/AvroExtractorKeys.java:51-53 | the current value of the field, null as `None` where the field is nullable; each setter row below gives what it returns after a set |
| Avro.AvroExtractorKeys.GetIsValidOutputSchema | cdi-core/src/main/java/com/linkedin/cdi/keys/AvroExtractorKeys.java:59-61 | the current value of the field, null as `None` where the field is nullable; each setter row below gives what it returns after a set |
| Avro.AvroExtractorKeys.GetSampleData | cdi-core/src/main/java/com/linkedin/cdi/keys/AvroExtractorKeys.java:67-69 | the current value of the field, null as `None` where the field is nullable; each setter row below gives what it returns after a set |
| Avro.AvroExtractorKeys.SetAvroRecordIterator | cdi-core/src/main/java/com/linkedin/cdi/keys/AvroExtractorKeys.java:27-33 | the getter returns the value set; no other field, inherited or added, changes |
| Avro.AvroExtractorKeys.SetTotalCount | cdi-core/src/main/java/com/linkedin/cdi/keys/AvroExtractorKeys.java:35-41 | the getter returns the value set; no other field, inherited or added, changes |
| Avro.AvroExtractorKeys.SetCurrentPageNumber | cdi-core/src/main/java/com/linkedin/cdi/keys/AvroExtractorKeys.java:43-49 | the getter returns the value set; no other field, inherited or added, changes |
| Avro.AvroExtractorKeys.SetAvroOutputSchema | cdi-core/src/main/java/com/linkedin/cdi/keys/AvroExtractorKeys.java:51-57 | the getter returns the value set; no other field, inherited or added, changes |
| Avro.AvroExtractorKeys.SetIsValidOutputSchema | cdi-core/src/main/java/com/linkedin/cdi/keys/AvroExtractorKeys.java:59-65 | the getter returns the value set; no other field, inherited or added, changes |
| Avro.AvroExtractorKeys.SetSampleData | cdi-core/src/main/java/com/linkedin/cdi/keys/AvroExtractorKeys.java:67-73 | the getter returns the value set; no other field, inherited or added, changes |
| Jdbc.JdbcKeys.constructor | cdi-core/src/main/java/com/linkedin/cdi/keys/JdbcKeys.java:32-37 | a fresh object has no statement and no initial parameter values; separator, quote and escape characters and the refactoring function are the catalog's defaults |
| Jdbc.JdbcKeys.LogDebugAll | cdi-core/src/main/java/com/linkedin/cdi/keys/JdbcKeys.java:39-45 | every field is unchanged |
| Jdbc.JdbcKeys.LogUsage | cdi-core/src/main/java/com/linkedin/cdi/keys/JdbcKeys.java:47-53 | every field is unchanged |
| Jdbc.JdbcKeys.GetJdbcStatement | cdi-core/src/main/java/com/linkedin/cdi/keys/JdbcKeys.java:55-57 | the current value of the field, null as `None` where the field is nullable; each setter row below gives what it returns after a set |
| Jdbc.JdbcKeys.GetInitialParameterValues | cdi-core/src/main/java/com/linkedin/cdi/keys/JdbcKeys.java:63-65 | the current value of the field, null as `None` where the field is nullable; each setter row below gives what it returns after a set |
| Jdbc.JdbcKeys.GetSeparator | cdi-core/src/main/java/com/linkedin/cdi/keys/JdbcKeys.java:71-73 | the current value of the field, null as `None` where the field is nullable; each setter row below gives what it returns after a set |
| Jdbc.JdbcKeys.GetQuoteCharacter | cdi-core/src/main/java/com/linkedin/cdi/keys/JdbcKeys.java:79-81 | the current value of the field, null as `None` where the field is nullable; each setter row below gives what it returns after a set |
| Jdbc.JdbcKeys.GetEscapeCharacter | cdi-core/src/main/java/com/linkedin/cdi/keys/JdbcKeys.java:87-89 | the current value of the field, null as `None` where the field is nullable; each setter row below gives what it returns after a set |
| Jdbc.JdbcKeys.GetSchemaRefactorFunction | cdi-core/src/main/java/com/linkedin/cdi/keys/JdbcKeys.java:95-97 | the current value of the field, null as `None` where the field is nullable; each setter row below gives what it returns after a set |
| Jdbc.JdbcKeys.SetJdbcStatement | cdi-core/src/main/java/com/linkedin/cdi/keys/JdbcKeys.java:55-61 | the getter returns the value set; no other field changes |
| Jdbc.JdbcKeys.SetInitialParameterValues | cdi-core/src/main/java/com/linkedin/cdi/keys/JdbcKeys.java:63-69 | the getter returns the value set; no other field changes |
| Jdbc.JdbcKeys.SetSeparator | cdi-core/src/main/java/com/linkedin/cdi/keys/JdbcKeys.java:71-77 | the getter returns the value set; no other field changes |
| Jdbc.JdbcKeys.SetQuoteCharacter | cdi-core/src/main/java/com/linkedin/cdi/keys/JdbcKeys.java:79-85 | the getter returns the value set; no other field changes |
| Jdbc.JdbcKeys.SetEscapeCharacter | cdi-core/src/main/java/com/linkedin/cdi/keys/JdbcKeys.java:87-93 | the getter returns the value set; no other field changes |
| Jdbc.JdbcKeys.SetSchemaRefactorFunction | cdi-core/src/main/java/com/linkedin/cdi/keys/JdbcKeys.java:95-101 | the getter returns the value set; no other field changes |
| S3Source.BucketOfHost | cdi-core/src/main/java/com/linkedin/cdi/source/S3SourceV2.java:83 | the bucket is the host's first piece and holds no dot; a host without a dot is its own bucket |
| S3Source.InitializeSpec | cdi-core/src/main/java/com/linkedin/cdi/source/S3SourceV2.java:43-92 | the effect of initialization on the settings: after success the region is a known one or `us-west-2`, the endpoint starts with `https://` and the bucket has no dot; on every path the timeout is either unchanged or positive |
| S3Source.EndpointFromHost | cdi-core/src/main/java/com/linkedin/cdi/source/S3SourceV2.java:116-121 | fails exactly when the host splits into fewer than two labels |
| S3Source.EndpointLabels | cdi-core/src/main/java/com/linkedin/cdi/source/S3SourceV2.java:116-121 | the endpoint host consists of the host's labels after the first |
| S3Source.BucketAndEndpointRebuildHost | cdi-core/src/main/java/com/linkedin/cdi/source/S3SourceV2.java:116-121 | for a host of at least two labels, none empty, the bucket, a dot and the endpoint host give the host back |
| S3Source.HostOfLabels | cdi-core/src/main/java/com/linkedin/cdi/source/S3SourceV2.java:116-121 | a host built from two or more non-empty dot-free labels splits back into them, with the first as bucket and the rest, joined, as endpoint host |
| S3Source.AwsHostExample | cdi-core/src/main/java/com/linkedin/cdi/source/S3SourceV2.java:116-121 | `my-bucket.s3.us-west-2.amazonaws.com` has five labels and endpoint host `s3.us-west-2.amazonaws.com` |
| S3Source.S3Keys.SetRegion | cdi-core/src/main/java/com/linkedin/cdi/source/S3SourceV2.java:60-63 | only the region changes |
| S3Source.S3Keys.SetConnectionTimeout | cdi-core/src/main/java/com/linkedin/cdi/source/S3SourceV2.java:72 | only the timeout changes |
| S3Source.S3Keys.SetEndpoint | cdi-core/src/main/java/com/linkedin/cdi/source/S3SourceV2.java:76 | only the endpoint changes |
| S3Source.S3Keys.SetPrefix | cdi-core/src/main/java/com/linkedin/cdi/source/S3SourceV2.java:80 | only the prefix changes |
| S3Source.S3Keys.SetBucket | cdi-core/src/main/java/com/linkedin/cdi/source/S3SourceV2.java:83 | only the bucket changes |
| S3Source.S3Keys.SetFilesPattern | cdi-core/src/main/java/com/linkedin/cdi/source/S3SourceV2.java:85 | only the files pattern changes |
| S3Source.S3Keys.SetMaxKeys | cdi-core/src/main/java/com/linkedin/cdi/source/S3SourceV2.java:86 | only the maximum key count changes |
| S3Source.S3Keys.SetAccessKey | cdi-core/src/main/java/com/linkedin/cdi/source/S3SourceV2.java:87 | only the access key changes |
| S3Source.S3Keys.SetSecretId | cdi-core/src/main/java/com/linkedin/cdi/source/S3SourceV2.java:88 | only the secret changes |
| S3Source.S3Keys.SetTargetFilePattern | cdi-core/src/main/java/com/linkedin/cdi/source/S3SourceV2.java:89-90 | only the target file pattern changes |
| S3Source.S3SourceV2.constructor | cdi-core/src/main/java/com/linkedin/cdi/source/S3SourceV2.java:39-42 | the source owns a fresh settings object |
| S3Source.S3SourceV2.Initialize | cdi-core/src/main/java/com/linkedin/cdi/source/S3SourceV2.java:43-92 | the outcome and the settings afterwards are those of `InitializeSpec` applied to the settings before, so the lemmas about `InitializeSpec` hold for the method |
| S3Source.SourceUriCheckedFirst | cdi-core/src/main/java/com/linkedin/cdi/source/S3SourceV2.java:46-50 | a missing URL or an empty host fails with the URI error, and nothing is written; this error arises in no other case |
| S3Source.RegionCheckedSecond | cdi-core/src/main/java/com/linkedin/cdi/source/S3SourceV2.java:55-64 | after an accepted URI, an unknown region fails with nothing written; otherwise the region is the one named, or `us-west-2` when none is |
| S3Source.TimeoutCheckedThird | cdi-core/src/main/java/com/linkedin/cdi/source/S3SourceV2.java:67-73 | a non-positive timeout fails after only the region has been written; a positive one is stored; without one the old timeout stays |
| S3Source.ChecksPrecedeDerivedFields | cdi-core/src/main/java/com/linkedin/cdi/source/S3SourceV2.java:46-83 | when the URI, region or timeout check fails, endpoint, prefix and bucket are unchanged; a malformed host leaves prefix and bucket unchanged |
| S3Source.InitializedDerivesFromUri | cdi-core/src/main/java/com/linkedin/cdi/source/S3SourceV2.java:43-92 | success exactly when every check passes, the host has two or more labels and the path is non-empty; then the bucket is the first label, the endpoint `https://` plus the others, the prefix the decoded path after its first character, and the other settings the resolved inputs |
| S3Source.BucketAndEndpointMatchUri | cdi-core/src/main/java/com/linkedin/cdi/source/S3SourceV2.java:76-83 | after a successful initialization from a host without empty labels, the endpoint starts with `https://`, and the bucket, a dot and the rest of the endpoint give the host |
| S3Source.UrlExample | cdi-core/src/main/java/com/linkedin/cdi/source/S3SourceV2.java:76-83 | host `my-bucket.s3.us-west-2.amazonaws.com` and path `/a%7Bb%7D/c` give bucket `my-bucket`, endpoint host `s3.us-west-2.amazonaws.com` and prefix `a{b}/c` |
| S3Source.TemplateUriExample | cdi-core/src/main/java/com/linkedin/cdi/source/S3SourceV2.java:43-92 | that URI, with no region and no timeout, initializes with bucket `my-bucket`, endpoint `https://s3.us-west-2.amazonaws.com`, prefix `a{b}/c`, region `us-west-2` and the old timeout |

## Left out

- The URL parser (`HttpUrl.parse`, `host()`, `encodedPath()`) is a library call. The model takes its result as an input: `None` for a URI that does not parse, otherwise its host and encoded path.
- `EndecoUtils.decode` is not part of this model. `PercentCoding.Decode` stands for it and follows section 2.1 of RFC 3986. It maps one escape to one character of that code, keeps a malformed `%` as it is, does no UTF-8 decoding of multi-octet sequences, and gives `+` no special meaning.
- The AWS region catalog (`Region.regions()`, `Region.of`) is a library call. The set of known regions is a parameter, and a region is stored as its name.
- The property catalog (`MultistageProperties`) is not part of this model, and neither are the string, boolean and JSON property types. The initializer reads these as already-resolved inputs: the source URI, the S3 parameters, the files pattern, the maximum key count, the credentials and the target file pattern. The catalog defaults of the JDBC settings are a parameter of the `JdbcKeys` constructor.
- `JobKeys` (the parent of `JdbcKeys` and `S3Keys`) and `S3Keys` are not part of this model. Only the fields the core writes are modelled, and the initial values of the `S3Keys` fields are unspecified.
- Gson's `getAsString` and `getAsInt` can fail on a member of the wrong JSON type. The region and the timeout are inputs that already have their types.
- `getExtractor` and the construction of the S3 connection are plumbing that opens connections, and are left out.
- Logging is modelled as doing nothing. Within `initialize` this covers `logUsage` and `logDebugAll`, and the model does not run these calls.
- The parent source's initialization, called as `super.initialize(state)` before the URI check, is not modelled. Its class is not part of this model. The constructor makes the inherited job keys the same object as `s3SourceV2Keys`, so that call may write the inherited `JobKeys` fields of the settings object, and the model does not capture those writes. Any exception it throws would also come before the URI failure that `S3Source.SourceUriCheckedFirst` puts first.
- The clock read `DateTime.now()` is a parameter of the constructors.
- The contents of Gson `JsonObject` and `JsonArray`, Avro `DataFileStream`, `Schema` and `GenericRecord`, and `StreamProcessor` are opaque.
  * JSON values and the `preprocessors` list are immutable values. The model therefore has no aliasing between a stored `JsonObject`, `JsonArray` or preprocessor `List` and the caller's copy. In the source, `getPreprocessors` returns the live `ArrayList`, which a caller can change in place; the model's `seq` cannot be changed that way.
  * The setters for activation and dynamic parameters, payloads and preprocessors accept no null.
- Integer.parseInt: `JavaLang.ParseInt` accepts ASCII digits only, while Java also accepts the decimal digits of other Unicode scripts.
- Strings are sequences of characters, not UTF-16 code units. `Character.isWhitespace` follows the Unicode 6.2 table of Java 8, where U+180E is a space separator. Later JDKs (Java 9 on, Unicode 8.0 or later) no longer count U+180E as whitespace; the model does not capture that difference. All the whitespace characters lie below U+10000.
- Thread-safety is not modelled. Each state object has a single owner during a run.
