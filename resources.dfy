/**
 * The resource factory: the resource's configuration fields, the key/value
 * configuration handed to the SDK, and the client handle that carries the
 * default bucket.
 */
module Resources {
  import opened Wrappers
  import opened CosSdk

  /** The protocol used when the resource does not set `Scheme`. */
  const DefaultScheme: string := "https"

  /** Configuration keys handed to the SDK whatever their value. */
  const RequiredKeys: set<string> := {"SecretId", "SecretKey", "Scheme", "Region"}

  /** Configuration keys handed to the SDK only when their value is truthy. */
  const OptionalKeys: set<string> := {"Token", "Endpoint", "Domain"}

  /**
   * The fields of `QcloudCosResource`. Every field may hold `None`: the
   * credential fields default to values that may be missing, and nothing
   * checks them here.
   */
  datatype QcloudCosResource = QcloudCosResource(
    Scheme: Option<string>,
    SecretId: Option<string>,
    SecretKey: Option<string>,
    Token: Option<string>,
    Region: Option<string>,
    Endpoint: Option<string>,
    Domain: Option<string>,
    BucketId: Option<string>)

  /** Python truthiness of an optional string: neither `None` nor `""`. */
  predicate Truthy(v: Option<string>) {
    v.Some? && v.value != ""
  }

  /**
   * The value a field takes when the resource is declared: the supplied value
   * if there is one, otherwise the field's default — `"https"` for `Scheme`,
   * and for every other field the default it was given when the class was
   * defined (`fallback`, `None` if absent there).
   */
  function FieldValue(name: string, supplied: map<string, Option<string>>,
                      fallback: map<string, Option<string>>): Option<string>
  {
    if name in supplied then supplied[name]
    else if name == "Scheme" then Some(DefaultScheme)
    else if name in fallback then fallback[name]
    else None
  }

  /**
   * `v` is the supplied value of field `name` if there is one, otherwise its
   * default from `fallback`, otherwise `None`.
   */
  predicate TakesSuppliedOrFallback(v: Option<string>, name: string,
                                    supplied: map<string, Option<string>>,
                                    fallback: map<string, Option<string>>)
  {
    && (name in supplied ==> v == supplied[name])
    && (name !in supplied && name in fallback ==> v == fallback[name])
    && (name !in supplied && name !in fallback ==> v == None)
  }

  /** Declares a resource from the fields the user supplied. */
  function Declare(supplied: map<string, Option<string>>,
                   fallback: map<string, Option<string>>): (r: QcloudCosResource)
    ensures "Scheme" !in supplied ==> r.Scheme == Some(DefaultScheme)
    ensures "Scheme" in supplied ==> r.Scheme == supplied["Scheme"]
    ensures TakesSuppliedOrFallback(r.SecretId, "SecretId", supplied, fallback)
    ensures TakesSuppliedOrFallback(r.SecretKey, "SecretKey", supplied, fallback)
    ensures TakesSuppliedOrFallback(r.Token, "Token", supplied, fallback)
    ensures TakesSuppliedOrFallback(r.Region, "Region", supplied, fallback)
    ensures TakesSuppliedOrFallback(r.Endpoint, "Endpoint", supplied, fallback)
    ensures TakesSuppliedOrFallback(r.Domain, "Domain", supplied, fallback)
    ensures TakesSuppliedOrFallback(r.BucketId, "BucketId", supplied, fallback)
  {
    QcloudCosResource(
      FieldValue("Scheme", supplied, fallback),
      FieldValue("SecretId", supplied, fallback),
      FieldValue("SecretKey", supplied, fallback),
      FieldValue("Token", supplied, fallback),
      FieldValue("Region", supplied, fallback),
      FieldValue("Endpoint", supplied, fallback),
      FieldValue("Domain", supplied, fallback),
      FieldValue("BucketId", supplied, fallback))
  }

  /** `key` is in `config` and bound to `value`, which may be `None`. */
  predicate Carries(config: map<string, Option<string>>, key: string, value: Option<string>) {
    key in config && config[key] == value
  }

  /** `key` is in `config` exactly when `value` is truthy, and then bound to it. */
  predicate CarriesIfTruthy(config: map<string, Option<string>>, key: string, value: Option<string>) {
    (key in config <==> Truthy(value)) && (key in config ==> config[key] == value)
  }

  /** `config` is the SDK configuration for resource `res`. */
  predicate IsClientConfig(config: map<string, Option<string>>, res: QcloudCosResource) {
    && Carries(config, "SecretId", res.SecretId)
    && Carries(config, "SecretKey", res.SecretKey)
    && Carries(config, "Scheme", res.Scheme)
    && Carries(config, "Region", res.Region)
    && CarriesIfTruthy(config, "Token", res.Token)
    && CarriesIfTruthy(config, "Endpoint", res.Endpoint)
    && CarriesIfTruthy(config, "Domain", res.Domain)
    && config.Keys <= RequiredKeys + OptionalKeys
  }

  /** The optional keys that `res` hands to the SDK. */
  function PresentOptionalKeys(res: QcloudCosResource): set<string> {
    (if Truthy(res.Token) then {"Token"} else {})
    + (if Truthy(res.Endpoint) then {"Endpoint"} else {})
    + (if Truthy(res.Domain) then {"Domain"} else {})
  }

  /** Builds `config_dict`: four fixed entries, then the truthy optional ones. */
  method BuildConfig(res: QcloudCosResource) returns (config: map<string, Option<string>>)
    ensures IsClientConfig(config, res)
  {
    config := map[
      "SecretId" := res.SecretId,
      "SecretKey" := res.SecretKey,
      "Scheme" := res.Scheme,
      "Region" := res.Region];
    if Truthy(res.Token) {
      config := config["Token" := res.Token];
    }
    if Truthy(res.Endpoint) {
      config := config["Endpoint" := res.Endpoint];
    }
    if Truthy(res.Domain) {
      config := config["Domain" := res.Domain];
    }
  }

  /** A resource has exactly one SDK configuration. */
  lemma ClientConfigUnique(c1: map<string, Option<string>>, c2: map<string, Option<string>>,
                           res: QcloudCosResource)
    requires IsClientConfig(c1, res) && IsClientConfig(c2, res)
    ensures c1 == c2
  {
    assert c1.Keys == c2.Keys;
  }

  /**
   * The configuration's keys are the four fixed keys together with the truthy
   * optional ones; the two groups do not overlap.
   */
  lemma ClientConfigKeys(config: map<string, Option<string>>, res: QcloudCosResource)
    requires IsClientConfig(config, res)
    ensures config.Keys == RequiredKeys + PresentOptionalKeys(res)
    ensures RequiredKeys !! PresentOptionalKeys(res)
  {
  }

  /**
   * `ExtendedCosS3Client`: the SDK client plus the default bucket, held by
   * composition.
   */
  class ExtendedCosS3Client {
    const Client: CosS3Client
    var BucketId: Option<string>

    constructor (conf: map<string, Option<string>>, bucketId: Option<string>, remote: Service)
      ensures fresh(Client)
      ensures Client.Conf == conf && Client.Remote == remote && Client.Log == []
      ensures BucketId == bucketId
    {
      Client := new CosS3Client(conf, remote);
      BucketId := bucketId;
    }
  }

  /**
   * `create_resource`: builds the configuration and returns a fresh handle
   * carrying the resource's `BucketId` unchanged. Nothing is sent to the
   * remote service.
   */
  method CreateResource(res: QcloudCosResource, remote: Service) returns (handle: ExtendedCosS3Client)
    ensures fresh(handle) && fresh(handle.Client)
    ensures IsClientConfig(handle.Client.Conf, res)
    ensures handle.BucketId == res.BucketId
    ensures handle.Client.Remote == remote && handle.Client.Log == []
  {
    var config := BuildConfig(res);
    handle := new ExtendedCosS3Client(config, res.BucketId, remote);
  }
}
