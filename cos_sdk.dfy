/**
 * The two capabilities of the object-storage SDK that the adapter uses,
 * `put_object` and `get_presigned_url`, as a client that records every call
 * made to it and answers from a fixed remote service. Request signing, HTTP
 * transport and retries stay inside the SDK and are not modelled.
 */
module CosSdk {
  import opened Wrappers

  /** Keyword arguments of `put_object(Bucket=..., Body=..., Key=...)`. */
  datatype PutRequest = PutRequest(Bucket: Option<string>, Body: seq<bv8>, Key: string)

  /** Keyword arguments of `get_presigned_url(Bucket=..., Key=..., Method=..., Expired=..., Headers=...)`. */
  datatype PresignRequest = PresignRequest(
    Bucket: Option<string>,
    Key: string,
    Method: string,
    Expired: int,
    Headers: map<string, string>)

  /** One call issued to the SDK. */
  datatype SdkCall = Put(put: PutRequest) | Presign(presign: PresignRequest)

  /**
   * What a call can raise: a client or service error of the SDK (transport,
   * authentication, missing bucket, ...), or Python's `KeyError` when a key is
   * looked up in a dictionary that lacks it.
   */
  datatype Error = SdkError(reason: string) | KeyError(key: string)

  /**
   * The remote store as the client sees it: the response (or error) each
   * request would get. It stands in for the network.
   */
  datatype Service = Service(
    PutObject: PutRequest -> Result<map<string, string>, Error>,
    GetPresignedUrl: PresignRequest -> Result<string, Error>)

  /** `CosS3Client`: holds its configuration and logs what it is asked to do. */
  class CosS3Client {
    /** The keyword arguments the `CosConfig` was built from. */
    const Conf: map<string, Option<string>>
    const Remote: Service
    /** Every call issued so far, oldest first. */
    var Log: seq<SdkCall>

    constructor (conf: map<string, Option<string>>, remote: Service)
      ensures Conf == conf && Remote == remote && Log == []
    {
      Conf, Remote, Log := conf, remote, [];
    }

    method PutObject(req: PutRequest) returns (response: Result<map<string, string>, Error>)
      modifies this`Log
      ensures Log == old(Log) + [Put(req)]
      ensures response == Remote.PutObject(req)
    {
      Log := Log + [Put(req)];
      response := Remote.PutObject(req);
    }

    method GetPresignedUrl(req: PresignRequest) returns (url: Result<string, Error>)
      modifies this`Log
      ensures Log == old(Log) + [Presign(req)]
      ensures url == Remote.GetPresignedUrl(req)
    {
      Log := Log + [Presign(req)];
      url := Remote.GetPresignedUrl(req);
    }
  }
}
