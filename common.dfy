/** Values shared by every part of the model: optional values (JavaScript's
    `undefined`), replies of foreign calls, thrown errors, rendered pages and
    the resource names derived from the namespace. */
module Common {

  /** `None` stands for JavaScript's `undefined`. */
  datatype Option<+T> = None | Some(value: T)

  /** The reply of a call into code that is not modelled (a cloud SDK, the
      filesystem, the resolver): its value, or the error text the page shows. */
  datatype Reply<+T> = Ok(value: T) | Err(detail: string)

  /** A JavaScript error as the Azure SDK throws it: `statusCode` and `code`
      may be absent, `message` is always there. */
  datatype JsError = JsError(statusCode: Option<int>, code: Option<string>, message: string)

  /** What a request handler answers with. `NoResponse` is a request that is
      never answered (an async handler whose promise rejects unhandled, or a
      stream that never ends). */
  datatype Response =
    | ErrorPage(msg: string)
    | BucketPage(objects: seq<string>, bucketName: string)
    | ContainerPage(blobNames: seq<string>, containerName: string)
    | ViewContents(filename: string, content: string)
    | FilesystemPage(items: seq<string>, displayMsg: Option<string>)
    | FilePage(filename: string, contents: string)
    | NetworkPage(dnsResponse: string, dnsHost: string)
    | Redirect(path: string)
    | NoResponse

  const BUCKET_SUFFIX := "-bucket"
  const CONTAINER_SUFFIX := "-container"

  /** The S3 bucket every S3 call names: `ns + "-bucket"`. */
  function BucketName(ns: string): string
  {
    ns + BUCKET_SUFFIX
  }

  /** The blob container the Azure client is bound to: `ns + "-container"`. */
  function ContainerName(ns: string): string
  {
    ns + CONTAINER_SUFFIX
  }

  /** Both names determine the namespace they were built from, and a bucket
      name is never a container name, whatever the namespaces. */
  lemma ResourceNamesDetermineNamespace(ns1: string, ns2: string)
    ensures BucketName(ns1) == BucketName(ns2) ==> ns1 == ns2
    ensures ContainerName(ns1) == ContainerName(ns2) ==> ns1 == ns2
    ensures BucketName(ns1) != ContainerName(ns2)
  {
    if BucketName(ns1) == BucketName(ns2) {
      assert ns1 == BucketName(ns1)[..|ns1|] == BucketName(ns2)[..|ns2|] == ns2;
    }
    if ContainerName(ns1) == ContainerName(ns2) {
      assert ns1 == ContainerName(ns1)[..|ns1|] == ContainerName(ns2)[..|ns2|] == ns2;
    }
    var b, c := BucketName(ns1), ContainerName(ns2);
    assert b[|b| - 1] == 't' && c[|c| - 1] == 'r';
  }
}
