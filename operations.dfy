/**
 * The upload operation: put the payload into the handle's default bucket,
 * then, when an expiry is given, ask for a presigned download link for it.
 */
module Operations {
  import opened Wrappers
  import opened Text
  import opened CosSdk
  import opened Resources

  /** The two outputs of the operation, `etag` and `pre_signed_url`. */
  datatype UploadOutput = UploadOutput(Etag: string, PreSignedUrl: string)

  /** The response header the presigned link asks the store to set. */
  const DispositionHeader: string := "response-content-disposition"

  /** `(response['ETag'], url)`: the lookup raises `KeyError` when the field is missing. */
  function Outputs(response: map<string, string>, url: string): (r: Result<UploadOutput, Error>)
    ensures r.Success? <==> "ETag" in response
    ensures r.Success? ==> r.value.Etag == response["ETag"] && r.value.PreSignedUrl == url
    ensures r.Failure? ==> r.error == KeyError("ETag")
  {
    if "ETag" in response then Success(UploadOutput(response["ETag"], url))
    else Failure(KeyError("ETag"))
  }

  /**
   * `__op_upload_file(key, file, expired, bucket)` against `handle`. The upload
   * always targets the handle's default bucket; `bucket`, when non-empty,
   * redirects only the presigned link. Errors of either SDK call propagate
   * unchanged and end the operation.
   */
  method UploadFile(handle: ExtendedCosS3Client, key: string, file: seq<bv8>, expired: int, bucket: string)
    returns (result: Result<UploadOutput, Error>)
    modifies handle.Client`Log
    // earlier calls are kept; the operation issues one or two calls after them
    ensures old(handle.Client.Log) <= handle.Client.Log
    ensures var calls := handle.Client.Log[|old(handle.Client.Log)|..];
            1 <= |calls| <= 2 &&
            // the first call uploads `file` under `key` into the default bucket
            calls[0] == Put(PutRequest(handle.BucketId, file, key))
    // an upload error ends the operation with that error and nothing else is asked
    ensures var response := handle.Client.Remote.PutObject(PutRequest(handle.BucketId, file, key));
            response.Failure? ==>
              |handle.Client.Log| == |old(handle.Client.Log)| + 1 && result == Failure(response.error)
    // with no expiry there is no presign call and the link is empty
    ensures var response := handle.Client.Remote.PutObject(PutRequest(handle.BucketId, file, key));
            response.Success? && expired == 0 ==>
              |handle.Client.Log| == |old(handle.Client.Log)| + 1 && result == Outputs(response.value, "")
    // with an expiry there is exactly one presign call, for a GET of `key`
    ensures var response := handle.Client.Remote.PutObject(PutRequest(handle.BucketId, file, key));
            var calls := handle.Client.Log[|old(handle.Client.Log)|..];
            response.Success? && expired != 0 ==>
              && |calls| == 2
              && calls[1].Presign?
              && calls[1].presign.Bucket == (if bucket != "" then Some(bucket) else handle.BucketId)
              && calls[1].presign.Key == key
              && calls[1].presign.Method == "GET"
              && calls[1].presign.Expired == expired
              && calls[1].presign.Headers
                 == map[DispositionHeader := "attachment; filename=" + LastSegment(key, '/')]
              && var url := handle.Client.Remote.GetPresignedUrl(calls[1].presign);
                 result == if url.Failure? then Failure(url.error) else Outputs(response.value, url.value)
  {
    var client := handle.Client;
    var response := client.PutObject(PutRequest(handle.BucketId, file, key));
    if response.Failure? {
      return Failure(response.error);
    }
    var target := if bucket != "" then Some(bucket) else handle.BucketId;
    var url: string;
    if expired != 0 {
      var filename := LastSegment(key, '/');
      var presigned := client.GetPresignedUrl(PresignRequest(
        target, key, "GET", expired, map[DispositionHeader := "attachment; filename=" + filename]));
      if presigned.Failure? {
        return Failure(presigned.error);
      }
      url := presigned.value;
    } else {
      url := "";
    }
    result := Outputs(response.value, url);
  }

  /** The download name of `photos/a.jpg` is `a.jpg`. */
  lemma PhotoDownloadName()
    ensures LastSegment("photos/a.jpg", '/') == "a.jpg"
  {
    LastSegmentUnique("photos/a.jpg", '/', "a.jpg");
  }

  /**
   * A caller's view: with a bucket override and an expiry, the upload still
   * goes to the default bucket while the link is presigned for the override.
   */
  method OverrideRedirectsOnlyThePresign(remote: Service)
  {
    var res := QcloudCosResource(Some("https"), Some("id"), Some("secret"), None,
                                 Some("ap-guangzhou"), None, None, Some("default-bucket"));
    var handle := CreateResource(res, remote);
    var result := UploadFile(handle, "photos/a.jpg", [0, 1], 3600, "other-bucket");
    var log := handle.Client.Log;
    assert log[0..] == log;
    assert log[0] == Put(PutRequest(Some("default-bucket"), [0, 1], "photos/a.jpg"));
    if |log| == 2 {
      PhotoDownloadName();
      var req := log[1].presign;
      assert req.Bucket == Some("other-bucket");
      assert req.Headers == map[DispositionHeader := "attachment; filename=" + "a.jpg"];
    }
  }
}
