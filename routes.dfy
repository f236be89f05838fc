/** The six cloud routes: three over the S3 bucket, three over the Azure
    container. Each checks its platform flag before touching the backend;
    the backend's replies are inputs and the calls it would receive are
    returned, so "no backend call" is an empty call list. */
module CloudRoutes {
  import opened Common
  import opened CloudProbe
  import opened Streams

  datatype Platform = Aws | Azure

  datatype Route =
    | ListBucket                                  // GET /ack
    | GetFile(filename: string)                   // GET /getFile?filename=
    | S3Upload(filename: string, content: string) // POST /s3upload
    | ListContainer                               // GET /aso
    | ViewBlob(blobName: string)                  // GET /viewblob/:blobName
    | CreateBlob(blobFile: Option<string>, blobContent: Option<string>) // POST /createblob

  function PlatformOf(r: Route): Platform
  {
    if r.ListBucket? || r.GetFile? || r.S3Upload? then Aws else Azure
  }

  const ACK_REFUSAL := "In order to use the ACK this must be run on AWS."
  const S3_UPLOAD_REFUSAL := "Wrong cloud platform. In order to use the ACK this must be run on AWS."
  const ASO_REFUSAL := "In order to use the ASO feature this must be run on Azure."

  /** The error page a route renders on the wrong platform. */
  function RefusalMessage(r: Route): string
  {
    match r
    case S3Upload(_, _) => S3_UPLOAD_REFUSAL
    case _ => if PlatformOf(r) == Aws then ACK_REFUSAL else ASO_REFUSAL
  }

  /** The flag a route's guard reads. */
  function PlatformFlag(p: Platform, l: Locals): Option<bool>
  {
    if p == Aws then l.isAWS else l.isAzure
  }

  /** `if (!app.locals.isAWS)` / `if (!app.locals.isAzure)`: the refusal a
      route answers with before any backend call, if any. */
  function Guard(r: Route, l: Locals): (refusal: Option<Response>)
    ensures refusal.None? <==> PlatformFlag(PlatformOf(r), l) == Some(true)
    ensures refusal.Some? ==> refusal.value == ErrorPage(RefusalMessage(r))
  {
    if Enabled(PlatformFlag(PlatformOf(r), l)) then None
    else Some(ErrorPage(RefusalMessage(r)))
  }

  /** A call into a cloud SDK. */
  datatype BackendCall =
    | ListObjects(bucket: string)
    | GetObject(bucket: string, key: string)
    | PutObject(bucket: string, key: string, body: string, contentType: string)
    | ListBlobsFlat(container: string)
    | DownloadBlob(container: string, blobName: string)
    | UploadBlob(container: string, blobName: string, content: string, length: nat)

  function CallPlatform(c: BackendCall): Platform
  {
    if c.ListObjects? || c.GetObject? || c.PutObject? then Aws else Azure
  }

  /** The bucket or container a call addresses. */
  function Target(c: BackendCall): string
  {
    match c
    case ListObjects(b) => b
    case GetObject(b, _) => b
    case PutObject(b, _, _, _) => b
    case ListBlobsFlat(c) => c
    case DownloadBlob(c, _) => c
    case UploadBlob(c, _, _, _) => c
  }

  /** A route's answer together with the backend calls it issued. */
  datatype Handled = Handled(response: Response, calls: seq<BackendCall>)

  /** `listObjects`' success value: the keys of `data.Contents` and `data.Name`. */
  datatype ObjectListing = ObjectListing(keys: seq<string>, name: string)

  /** GET /ack. */
  function ListBucketHandler(ns: string, l: Locals, listed: Reply<ObjectListing>): (h: Handled)
    ensures Guard(ListBucket, l).Some? ==> h == Handled(ErrorPage(ACK_REFUSAL), [])
    ensures Guard(ListBucket, l).None? ==> h.calls == [ListObjects(BucketName(ns))]
    ensures Guard(ListBucket, l).None? && listed.Ok? ==>
      h.response == BucketPage(listed.value.keys, listed.value.name)
    ensures Guard(ListBucket, l).None? && listed.Err? ==>
      h.response == ErrorPage(listed.detail + "\nAttepting access to bucket: " + BucketName(ns))
  {
    match Guard(ListBucket, l)
    case Some(refusal) => Handled(refusal, [])
    case None =>
      var calls := [ListObjects(BucketName(ns))];
      match listed
      case Ok(data) => Handled(BucketPage(data.keys, data.name), calls)
      case Err(detail) => Handled(ErrorPage(detail + "\nAttepting access to bucket: " + BucketName(ns)), calls)
  }

  /** GET /getFile. */
  function GetFileHandler(ns: string, l: Locals, filename: string, got: Reply<string>): (h: Handled)
    ensures Guard(GetFile(filename), l).Some? ==> h == Handled(ErrorPage(ACK_REFUSAL), [])
    ensures Guard(GetFile(filename), l).None? ==> h.calls == [GetObject(BucketName(ns), filename)]
    ensures Guard(GetFile(filename), l).None? ==>
      h.response == if got.Ok? then ViewContents(filename, got.value) else ErrorPage(got.detail)
  {
    match Guard(GetFile(filename), l)
    case Some(refusal) => Handled(refusal, [])
    case None =>
      var calls := [GetObject(BucketName(ns), filename)];
      match got
      case Ok(body) => Handled(ViewContents(filename, body), calls)
      case Err(detail) => Handled(ErrorPage(detail), calls)
  }

  /** POST /s3upload. */
  function S3UploadHandler(ns: string, l: Locals, filename: string, content: string, put: Reply<()>): (h: Handled)
    ensures Guard(S3Upload(filename, content), l).Some? ==> h == Handled(ErrorPage(S3_UPLOAD_REFUSAL), [])
    ensures Guard(S3Upload(filename, content), l).None? ==>
      h.calls == [PutObject(BucketName(ns), filename, content, "text/plain")]
    ensures Guard(S3Upload(filename, content), l).None? ==>
      h.response == if put.Ok? then Redirect("/ack") else ErrorPage(put.detail)
  {
    match Guard(S3Upload(filename, content), l)
    case Some(refusal) => Handled(refusal, [])
    case None =>
      var calls := [PutObject(BucketName(ns), filename, content, "text/plain")];
      match put
      case Ok(_) => Handled(Redirect("/ack"), calls)
      case Err(detail) => Handled(ErrorPage(detail), calls)
  }

  /** One item of `listBlobsFlat()`. */
  datatype BlobItem = BlobItem(name: string)

  /** The `for await` loop of GET /aso: `blobNames.push(blob.name)`. */
  method CollectBlobNames(blobs: seq<BlobItem>) returns (names: seq<string>)
    ensures |names| == |blobs|
    ensures forall i :: 0 <= i < |blobs| ==> names[i] == blobs[i].name
  {
    names := [];
    var i := 0;
    while i < |blobs|
      invariant 0 <= i <= |blobs|
      invariant |names| == i
      invariant forall j :: 0 <= j < i ==> names[j] == blobs[j].name
    {
      names := names + [blobs[i].name];
      i := i + 1;
    }
  }

  /** What iterating `listBlobsFlat()` yields: some items, then possibly an
      error thrown by the iterator. */
  datatype BlobListing = BlobListing(items: seq<BlobItem>, failure: Option<JsError>)

  /** GET /aso. The loop is not inside a `try`, so a failing listing rejects
      the handler's promise and the request is never answered. */
  method ListContainerHandler(ns: string, l: Locals, listing: BlobListing) returns (h: Handled)
    requires Consistent(ns, l)
    ensures Guard(ListContainer, l).Some? ==> h == Handled(ErrorPage(ASO_REFUSAL), [])
    ensures Guard(ListContainer, l).None? ==> h.calls == [ListBlobsFlat(ContainerName(ns))]
    ensures Guard(ListContainer, l).None? && listing.failure.Some? ==> h.response == NoResponse
    ensures Guard(ListContainer, l).None? && listing.failure.None? ==>
      && h.response.ContainerPage?
      && h.response.containerName == ContainerName(ns)
      && |h.response.blobNames| == |listing.items|
      && forall i :: 0 <= i < |listing.items| ==> h.response.blobNames[i] == listing.items[i].name
  {
    var refusal := Guard(ListContainer, l);
    if refusal.Some? {
      return Handled(refusal.value, []);
    }
    var calls := [ListBlobsFlat(l.containerClient.value)];
    var names := CollectBlobNames(listing.items);
    if listing.failure.Some? {
      h := Handled(NoResponse, calls);
    } else {
      h := Handled(ContainerPage(names, ContainerName(ns)), calls);
    }
  }

  /** How a failed blob read is reported. */
  datatype BlobFailure = BlobNotFound(msg: string) | OtherFailure(msg: string)

  /** The `catch` of GET /viewblob: "not found" exactly for a 404 whose code
      is "BlobNotFound"; every other error shows its own message. */
  function ClassifyBlobError(blobName: string, e: JsError): (f: BlobFailure)
    ensures f.BlobNotFound? <==> e.statusCode == Some(404) && e.code == Some("BlobNotFound")
    ensures f.BlobNotFound? ==> f.msg == blobName + " not found."
    ensures f.OtherFailure? ==> f.msg == e.message
  {
    if e.statusCode == Some(404) && e.code == Some("BlobNotFound") then BlobNotFound(blobName + " not found.")
    else OtherFailure(e.message)
  }

  /** What `blobClient.download()` does: throw, or hand over a body stream. */
  datatype Download = DownloadThrew(error: JsError) | Body(events: seq<StreamEvent>)

  /** GET /viewblob/:blobName. */
  method ViewBlobHandler(ns: string, l: Locals, blobName: string, download: Download) returns (h: Handled)
    requires Consistent(ns, l)
    ensures Guard(ViewBlob(blobName), l).Some? ==> h == Handled(ErrorPage(ASO_REFUSAL), [])
    ensures Guard(ViewBlob(blobName), l).None? ==> h.calls == [DownloadBlob(ContainerName(ns), blobName)]
    ensures Guard(ViewBlob(blobName), l).None? ==>
      h.response == match download
        case DownloadThrew(e) => ErrorPage(ClassifyBlobError(blobName, e).msg)
        case Body(events) =>
          match Settle(events)
          case Resolved(text) => ViewContents(blobName, text)
          case Rejected(e) => ErrorPage(ClassifyBlobError(blobName, e).msg)
          case Pending => NoResponse
  {
    var refusal := Guard(ViewBlob(blobName), l);
    if refusal.Some? {
      return Handled(refusal.value, []);
    }
    var calls := [DownloadBlob(l.containerClient.value, blobName)];
    match download {
      case DownloadThrew(e) =>
        h := Handled(ErrorPage(ClassifyBlobError(blobName, e).msg), calls);
      case Body(events) =>
        var settled := StreamToString(events);
        match settled {
          case Resolved(text) =>
            h := Handled(ViewContents(blobName, text), calls);
          case Rejected(e) =>
            h := Handled(ErrorPage(ClassifyBlobError(blobName, e).msg), calls);
          case Pending =>
            h := Handled(NoResponse, calls);
        }
    }
  }

  /** POST /createblob: upload with `content.length` as the length. The form
      fields may be absent. An absent content makes `undefined.length` throw
      inside the `try` before any upload; an absent file name is taken to make
      `getBlockBlobClient(undefined)` throw there too. `typeError` is the
      message of that throw. */
  function CreateBlobHandler(ns: string, l: Locals, filename: Option<string>, content: Option<string>,
                             typeError: string, uploaded: Reply<()>): (h: Handled)
    requires Consistent(ns, l)
    ensures Guard(CreateBlob(filename, content), l).Some? ==> h == Handled(ErrorPage(ASO_REFUSAL), [])
    ensures Guard(CreateBlob(filename, content), l).None? && (filename.None? || content.None?) ==>
      h == Handled(ErrorPage("Error uploading file: " + typeError), [])
    ensures Guard(CreateBlob(filename, content), l).None? && filename.Some? && content.Some? ==>
      h.calls == [UploadBlob(ContainerName(ns), filename.value, content.value, |content.value|)]
    ensures Guard(CreateBlob(filename, content), l).None? && filename.Some? && content.Some? ==>
      h.response == if uploaded.Ok? then Redirect("/aso") else ErrorPage("Error uploading file: " + uploaded.detail)
  {
    match Guard(CreateBlob(filename, content), l)
    case Some(refusal) => Handled(refusal, [])
    case None =>
      if filename.None? || content.None? then Handled(ErrorPage("Error uploading file: " + typeError), [])
      else
        var calls := [UploadBlob(l.containerClient.value, filename.value, content.value, |content.value|)];
        match uploaded
        case Ok(_) => Handled(Redirect("/aso"), calls)
        case Err(message) => Handled(ErrorPage("Error uploading file: " + message), calls)
  }

  /** The backend's replies to whichever call a route makes. */
  datatype Replies = Replies(
    listed: Reply<ObjectListing>,
    got: Reply<string>,
    put: Reply<()>,
    listing: BlobListing,
    download: Download,
    typeError: string,
    uploaded: Reply<()>)

  /** A POST /createblob whose form lacks a field. */
  predicate MissingField(r: Route)
  {
    r.CreateBlob? && (r.blobFile.None? || r.blobContent.None?)
  }

  /** Any cloud route. */
  method Handle(ns: string, l: Locals, r: Route, replies: Replies) returns (h: Handled)
    requires Consistent(ns, l)
    ensures h.calls == [] <==> Guard(r, l).Some? || MissingField(r)
    ensures Guard(r, l).Some? ==> h.response == ErrorPage(RefusalMessage(r))
    ensures |h.calls| <= 1
    ensures forall c :: c in h.calls ==>
      && CallPlatform(c) == PlatformOf(r)
      && Target(c) == (if PlatformOf(r) == Aws then BucketName(ns) else ContainerName(ns))
      && Mode(l) == (if PlatformOf(r) == Aws then AwsS3 else AzureBlob)
  {
    match r {
      case ListBucket =>
        h := ListBucketHandler(ns, l, replies.listed);
      case GetFile(filename) =>
        h := GetFileHandler(ns, l, filename, replies.got);
      case S3Upload(filename, content) =>
        h := S3UploadHandler(ns, l, filename, content, replies.put);
      case ListContainer =>
        h := ListContainerHandler(ns, l, replies.listing);
      case ViewBlob(blobName) =>
        h := ViewBlobHandler(ns, l, blobName, replies.download);
      case CreateBlob(filename, content) =>
        h := CreateBlobHandler(ns, l, filename, content, replies.typeError, replies.uploaded);
    }
  }

  /** While the probe has not answered, every cloud route refuses. */
  lemma StartupRaceRefusesEveryRoute(r: Route)
    ensures Guard(r, INITIAL) == Some(ErrorPage(RefusalMessage(r)))
  {
  }

  /** In a consistent state, the routes that pass their guard all belong to
      one platform: the one the probe selected. */
  lemma OnePlatformServes(ns: string, l: Locals, r1: Route, r2: Route)
    requires Consistent(ns, l)
    requires Guard(r1, l).None? && Guard(r2, l).None?
    ensures PlatformOf(r1) == PlatformOf(r2)
    ensures Mode(l) == if PlatformOf(r1) == Aws then AwsS3 else AzureBlob
  {
  }
}
