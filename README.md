# dagster-qcloud-cos, modelled in Dafny

This project models the two pieces of logic that the `dagster_qcloud_cos` adapter has of its own:

- **The resource factory** (`QcloudCosResource.create_resource`). It turns the resource's fields into the keyword configuration handed to the COS SDK. `SecretId`, `SecretKey`, `Scheme` and `Region` are always passed. `Token`, `Endpoint` and `Domain` are passed only when truthy, that is when neither `None` nor `""`. The factory returns an `ExtendedCosS3Client` handle that carries the resource's `BucketId` unchanged.
- **The upload operation** (`__op_upload_file`). It calls `put_object` on the handle's default bucket. When `expired` is non-zero, it then asks for one presigned `GET` link, with a `response-content-disposition` header naming the key's last `/`-separated segment. It returns `(ETag, url)`.

The SDK is a client that records every call made to it (`CosSdk.CosS3Client.Log`). It answers from a `Service` value that stands in for the remote store. This makes the order of calls, the bucket of each call and the absence of a presign call checkable as postconditions.

Modules:

- `Wrappers`: `Option` and `Result`.
- `Text`: Python's `str.split` on one character, its inverse `join`, and the last segment.
- `CosSdk`: the requests, the call log, the errors and the recording client.
- `Resources`: the resource fields, the configuration and the handle.
- `Operations`: the upload.

Where the op's own documentation and its code disagree, the model follows the code:

- The docstring and the input schema describe `bucket` as defaulting to the resource's `BucketId` (`operations.py:19`, `operations.py:34`). That suggests `bucket` chooses where the file goes. The code always uploads to the handle's `BucketId` (`operations.py:42`). `bucket` only changes the presign target (`operations.py:43`). `UploadFile` states this asymmetry and keeps it.
- The docstring and the input schema say that an `expired` of 0 means no link is fetched (`operations.py:18`, `operations.py:33`). The code tests `expired` for truthiness (`operations.py:45`), so a negative value also triggers a presign call. The model takes any integer and presigns exactly when it is non-zero.

## Model

| member | source | states |
|---|---|---|
| `Resources.Declare` | src/dagster_qcloud_cos/resources.py:45-53 | Every field takes its supplied value when there is one. An unsupplied `Scheme` is `"https"`. Each other unsupplied field takes its import-time default from `fallback`, or `None` when it has none. |
| `Resources.BuildConfig` | src/dagster_qcloud_cos/resources.py:65-76 | The config binds `SecretId`, `SecretKey`, `Scheme` and `Region` to the resource's values, even `None`. `Token`, `Endpoint` and `Domain` are each present iff truthy, with the resource's value. There are no other keys. |
| `Resources.ClientConfigUnique` | src/dagster_qcloud_cos/resources.py:65-76 | Two maps that both meet the config contract are equal, so that contract fixes the whole map. |
| `Resources.ClientConfigKeys` | src/dagster_qcloud_cos/resources.py:65-76 | The config's key set is the four fixed keys plus the truthy optional keys, and the two groups are disjoint. |
| `Resources.ExtendedCosS3Client.constructor` | src/dagster_qcloud_cos/resources.py:9-12 | The handle wraps a fresh SDK client built from the given config, with an empty call log, and stores the given `BucketId`. |
| `Resources.CreateResource` | src/dagster_qcloud_cos/resources.py:59-77 | The returned handle is fresh. Its SDK config meets the config contract. Its `BucketId` equals the resource's, `None` included. No call reaches the remote service. |
| `CosSdk.CosS3Client.PutObject` | src/dagster_qcloud_cos/operations.py:42 | `put_object` appends its request to the log and returns the service's answer unchanged. |
| `CosSdk.CosS3Client.GetPresignedUrl` | src/dagster_qcloud_cos/operations.py:47-53 | `get_presigned_url` appends its request to the log and returns the service's answer unchanged. |
| `Text.Split` | src/dagster_qcloud_cos/operations.py:46 | `key.split('/')` has at least one piece, and no piece contains `/`. A key without `/` splits into itself. A key with a `/` splits into at least two pieces. |
| `Text.JoinSplit` | src/dagster_qcloud_cos/operations.py:46 | Joining the pieces of a split with the separator gives back the key. |
| `Text.SplitJoin` | src/dagster_qcloud_cos/operations.py:46 | Splitting a join of separator-free pieces gives back those pieces. |
| `Text.LastSegment` | src/dagster_qcloud_cos/operations.py:46 | `key.split('/')[-1]` contains no `/` and is a suffix of the key. It is either the whole key or directly preceded by a `/`. |
| `Text.LastSegmentUnique` | src/dagster_qcloud_cos/operations.py:46 | Any `/`-free suffix that is the whole key or follows a `/` is the last segment. So the segment is exactly the text after the last `/`. |
| `Operations.Outputs` | src/dagster_qcloud_cos/operations.py:56 | `(response['ETag'], url)` succeeds iff the response has an `ETag`, and then passes both values through unchanged. Otherwise it fails with `KeyError('ETag')`. |
| `Operations.UploadFile` | src/dagster_qcloud_cos/operations.py:39-56 | Earlier log entries are kept, and one or two calls are added. The first call is `put_object(Bucket=handle.BucketId, Body=file, Key=key)`, whatever `bucket` is. An upload error is returned unchanged and nothing else is called. With `expired == 0` there is no presign call and the URL is `""`. Otherwise there is exactly one presign call. It targets `bucket` if non-empty, else `BucketId`, with `Key=key`, `Method='GET'` and `Expired=expired`. Its headers are exactly `{'response-content-disposition': 'attachment; filename=' + last segment of key}`. Its error is returned unchanged, and its URL becomes the second output. |
| `Operations.PhotoDownloadName` | src/dagster_qcloud_cos/operations.py:46 | The download name for the key `photos/a.jpg` is `a.jpg`. |

`Operations.OverrideRedirectsOnlyThePresign` is a caller written against these contracts alone. It shows that an upload with `bucket="other-bucket"` still puts into the handle's default bucket, while the link is presigned for `other-bucket`.

## Left out

- Host-framework plumbing is not modelled. On the op side that is the `@op` decorator, the `In`/`Out` schemas, `InitCosOperations` and the module-level `cos_op` instance. On the resource side it is the `ConfigurableResource` base class and `_is_dagster_maintained` (`resources.py:55-57`). None of it has decision logic of its own.
- Resource lookup is not modelled. The operation reads the handle from `context.resources.qcloud_cos` in the source; `UploadFile` receives the handle directly.
- Environment variables are not read. The defaults that `os.environ.get` supplies when the class is defined are an input map (`fallback`) to `Resources.Declare`. The environment-variable names themselves are not modelled.
- Pydantic validation is not modelled. Every field is an optional string; a declared `str` field that is given `None` is not rejected here.
- The internals of `CosConfig` and `CosS3Client` are not modelled: signing, HTTP transport, retries and real URL generation. The SDK is a recording client whose answers come from the `Service` parameter.
- Exceptions are modelled as `Failure` results carrying an opaque SDK error or a `KeyError`. Python's exception types and tracebacks are not modelled.
