# OSToy runtime feature detection, verified in Dafny

OSToy is a demonstration web service (`app.js`, an Express application).
Most of it forwards requests to the filesystem, to the AWS S3 SDK or to the
Azure Blob SDK. Under that plumbing sits a small state machine and the
request-side decisions that read it. This project models those parts:

- **Cloud probe** (`probe.dfy`, module `CloudProbe`). At start the service
  runs `headBucket` on `<namespace>-bucket`. Success turns the S3 feature
  (ACK) on and the Azure feature (ASO) off. Any error turns ACK off and runs
  `checkIfAzure`. That function reads the mounted connection string and asks
  whether `<namespace>-container` exists. The module-level state (`isAWS`,
  `isAzure`, `connectionString`, the container client) is the class
  `CloudState`. The callbacks are sequential methods over it. The SDK and
  filesystem outcomes are parameters. A ghost log of probe steps shows that
  the Azure check only ever follows a failed bucket probe.
- **Cloud routes** (`routes.dfy`, module `CloudRoutes`). These are the three
  S3 routes (`/ack`, `/getFile`, `/s3upload`) and the three Blob routes
  (`/aso`, `/viewblob/:blobName`, `/createblob`). Each handler returns the
  page it answers with and the list of SDK calls it issued. A refused route
  issues none. This module also holds the BlobNotFound classification and
  the loop that collects blob names.
- **Health flag** (`health.dfy`): `healthy`, `healthStatus()`, GET and
  POST `/health`.
- **Filesystem index check** (`filesystem.dfy`): GET `/filesystem` with
  `filenameIndex`.
- **Helpers**. `streamToString` is in `streams.dfy`. The address list that
  `processDNS` builds is in `network.dfy`.

`common.dfy` holds the shared types. `Option.None` stands for `undefined`.
`Reply` is the result of a call that is not modelled. `JsError` is a
thrown error. `Response` is a rendered page or a redirect. The module also
derives the bucket and container names.

Points where the code's behaviour is easy to misread:

- The code keeps two tri-state flags, `isAWS` and `isAzure`, each `true`,
  `false` or `undefined`. The model keeps both flags and proves that they
  are never both on (`CloudProbe.Consistent`).
- `readFileSync` (app.js:558) runs outside the `try` of `checkIfAzure`. An
  unreadable connection-string file makes the function's promise reject
  before `isAzure` is assigned, and nothing awaits or catches that promise
  (app.js:616). The model records the rejection and keeps the state as it
  was at the throw. The guards treat the unassigned `isAzure` as off.
- The code renders raw error messages. Only the blob read (app.js:419)
  tells "not found" apart from other errors. The model renders what the
  code renders.
- The `for await` listing of `/aso` (app.js:398) is not inside a `try`. A
  failing listing rejects the handler's promise. A stream that never ends
  leaves `/viewblob` pending. Neither request is answered (`NoResponse`).
- The form fields of `/createblob` may be absent. An absent content makes
  `content.length` (app.js:441) throw inside the `try`, before any upload.
  An absent file name is assumed to make `getBlockBlobClient(undefined)`
  throw there as well; whether it does depends on the release of the Azure
  Blob SDK, which `app.js` does not pin. The error page then shows the
  thrown message.

## Model

| member | source | states |
|---|---|---|
| `CloudProbe.AfterStartup` | app.js:602-622 | When `headBucket` succeeds, the state is AWS on, Azure off, and no connection string or container client. Otherwise AWS is off. Azure is on exactly when AWS failed, the secret file was read and the container exists. Azure is left unassigned (`undefined`, because the promise rejected) exactly when the file exists but cannot be read. A missing file leaves the connection string undefined and Azure off. The mode is S3 exactly when `headBucket` succeeded, so AWS wins a tie. The flags are never both on. |
| `CloudProbe.HeadBucketKeepsConsistent` | app.js:610-621 | From any consistent state, the `headBucket` callback keeps the flags consistent and leaves AWS on exactly when the probe succeeded. |
| `CloudProbe.AzureAfterAwsFailureExtends` | app.js:610-616 | Logging a probe step keeps every Azure check after a failed `headBucket`, provided the Azure check is logged only once such a failure is. |
| `CloudProbe.CloudState.constructor` | app.js:67-73 | Both flags, the connection string and the container client start undefined, and the probe log is empty. |
| `CloudProbe.CloudState.CheckIfAzure` | app.js:553-585 | The state after `checkIfAzure` is `AzureChecked` of the state before. An unreadable secret file leaves the state as it is. Otherwise a readable file sets the connection string, and then: no connection string turns Azure off; a client-construction error turns Azure off; a throwing `exists()` binds the client to `<ns>-container` and turns Azure off; an answer from `exists()` binds the client and sets Azure to that answer. The log gains one Azure check. The promise rejects unhandled exactly when the secret file exists but cannot be read. The flags stay consistent. |
| `CloudProbe.CloudState.OnHeadBucket` | app.js:610-622 | The state after the `headBucket` callback is `AfterHeadBucket` of the state before. Success turns AWS on and Azure off. An error turns AWS off and then applies `AzureChecked`. It runs the Azure check exactly when the bucket probe failed, and logs it after the failure. |
| `CloudProbe.DemoDeployments` | app.js:602-622 | For namespace `demo`: a missing bucket with a readable secret and an existing container selects Azure, bound to `demo-container`. A missing bucket and a missing secret select no cloud. |
| `CloudProbe.CloudState.Startup` | app.js:602-624 | The bucket is probed exactly when `isAWS` is still undefined. A fresh state then ends in the `AfterStartup` state. Otherwise nothing changes. |
| `CloudRoutes.Guard` | app.js:301-303 | A route proceeds exactly when its platform flag is `true`. `undefined` and `false` both refuse. A refusal renders that route's wrong-platform error page. |
| `CloudRoutes.ListBucketHandler` | app.js:300-322 | Refused: the ACK error page and no S3 call. Otherwise exactly one `listObjects` on `<ns>-bucket`. A success renders the listing. A failure renders the error with the bucket name appended. |
| `CloudRoutes.GetFileHandler` | app.js:325-350 | Refused: the ACK error page and no S3 call. Otherwise exactly one `getObject` for the file in `<ns>-bucket`. The reply renders the object body or the error. |
| `CloudRoutes.S3UploadHandler` | app.js:353-380 | Refused: the "Wrong cloud platform" page and no S3 call. Otherwise exactly one `putObject` of the content as `text/plain`, then a redirect to `/ack` or the error page. |
| `CloudRoutes.CollectBlobNames` | app.js:395-401 | The collected names are the listed blobs' names, one for one and in listing order. |
| `CloudRoutes.ListContainerHandler` | app.js:390-403 | Refused: the ASO error page and no Blob call. Otherwise one flat listing of `<ns>-container`. The page shows every blob name in order with the container name. A listing that throws leaves the request unanswered. |
| `CloudRoutes.ClassifyBlobError` | app.js:418-426 | The error is "not found" exactly when `statusCode` is 404 and `code` is "BlobNotFound". The message is then `<blobName> not found.`. Any other error shows its own message. |
| `CloudRoutes.ViewBlobHandler` | app.js:406-428 | Refused: the ASO error page and no Blob call. Otherwise one download from `<ns>-container`. A resolved stream renders its joined text. A throw or a stream error renders the classified message. A stream that never settles leaves the request unanswered. |
| `CloudRoutes.CreateBlobHandler` | app.js:431-449 | Refused: the ASO error page and no Blob call. With the file name or the content absent: no Blob call and `Error uploading file: <TypeError message>`. Otherwise one upload of the content with its length into `<ns>-container`. The result is a redirect to `/aso` or `Error uploading file: <message>`. |
| `CloudRoutes.Handle` | app.js:300-449 | For every cloud route, no SDK call is issued exactly when the guard refuses or a `/createblob` form field is absent. A refusal renders the route's error page. At most one call is issued. That call goes to the route's own platform and to the namespace's bucket or container, and only while that platform is the selected mode. |
| `CloudRoutes.StartupRaceRefusesEveryRoute` | app.js:67-68 | Before the probe answers, both flags are undefined and every cloud route refuses. |
| `CloudRoutes.OnePlatformServes` | app.js:610-621 | In a consistent state, all routes that pass their guard belong to one platform, the mode the probe selected. |
| `Common.ResourceNamesDetermineNamespace` | app.js:607 | A bucket name and a container name each determine their namespace. No bucket name equals a container name. |
| `Health.HealthStatus` | app.js:148-154 | The status sentence is "I'm feeling OK." exactly when healthy, and the other sentence exactly when not. |
| `Health.HealthReply` | app.js:105-113 | GET `/health` answers 200 exactly when healthy and 500 exactly when not. The body is the status sentence of `healthStatus()`, so it is the OK sentence exactly when the status is 200. |
| `Health.HealthFlag.constructor` | app.js:54 | The flag starts healthy. |
| `Health.HealthFlag.Get` | app.js:105-113 | Answers 200 exactly when the flag is set, with the status sentence as the body. |
| `Health.HealthFlag.Home` | app.js:96-99 | `/home` shows the status sentence of `healthStatus()`: the OK sentence exactly when healthy. |
| `Health.HealthFlag.Toggle` | app.js:115-119 | POST `/health` negates the flag and redirects to `/home`. |
| `Health.ToggleTwiceRestores` | app.js:105-119 | Two toggles restore the original flag. A GET `/health` between them answers `HealthReply` of the flipped flag, so 200 exactly when the pod was unhealthy before. |
| `Filesystem.SelectFile` | app.js:167-196 | Without an index, the page only lists. An entry is read exactly when the index names one (0 <= index < length), and it is that entry. Any other index, including a non-number, gives "File not found.". |
| `Filesystem.AsWrittenDiffersOnlyOnNegativeIndex` | app.js:169-171 | The check as written reaches an undefined entry exactly for a negative index. On every other query it agrees with `SelectFile`. |
| `Filesystem.NegativeIndexReachesUndefinedEntry` | app.js:170-171 | `filenameIndex=-1` on a one-file directory passes the check as written. The corrected check answers "File not found.". |
| `Filesystem.FilesystemHandler` | app.js:161-202 | A `readdir` error renders the error and touches no file. A selected entry gets exactly one `lstat`, followed by one `readFile` of it when it is a file. A file is read exactly when the index names an entry and `lstat` says it is a file. For a selected entry, an `lstat` error renders that error. A non-file renders the listing with `Path (<name>) is not a file. Please only attempt to read files.`. A file renders its contents under its name, or the `readFile` error. An index that is out of range or not a number renders the listing with "File not found." and makes no file call. With an index, no file call happens exactly when the page says "File not found.". Without an index, the page lists the entries, with `[]` for an undefined listing. The index check is the corrected one of the Findings row. |
| `Streams.JoinAppend` | app.js:545 | Joining two runs of chunks is joining each and concatenating the results. |
| `Streams.JoinChunked` | app.js:541-546 | Cutting a text into pieces of any one fixed size and joining them in order gives the text back. It does not cover uneven cut points. |
| `Streams.FirstSettling` | app.js:541-547 | The settling index is the first `end` or `error` event. Every event before it is data. |
| `Streams.Chunks` | app.js:541-543 | The pushed chunks are the data events' chunks, one for one, in order. |
| `Streams.ChunksAppend` | app.js:541-543 | Collecting two runs of data events one after the other gives the chunks of the whole run. This is the step the loop of `StreamToString` takes. |
| `Streams.StreamToString` | app.js:538-549 | The promise settles as the first `end` or `error` decides. It resolves to the in-order join of the chunks before `end`, rejects with the first error, or never settles. |
| `Streams.EndResolvesToJoin` | app.js:544-546 | Chunks followed by `end` resolve to the join of those chunks, whatever comes after. |
| `Streams.ErrorRejects` | app.js:547 | Chunks followed by an error reject with that error. |
| `Streams.DataOnlyStaysPending` | app.js:538-549 | A stream that only sends data never settles. |
| `Network.AddressListAppend` | app.js:530-531 | One more loop step appends the next address and a newline. |
| `Network.FormatAddresses` | app.js:529-532 | The loop builds every address followed by `\n`, in order. |
| `Network.LinesOfAddressList` | app.js:529-533 | Reading the page back line by line gives exactly the resolved addresses, in order. |
| `Network.ProcessDns` | app.js:524-536 | A lookup error is shown as the response. Otherwise the page is the address list (every address followed by `\n`) for the hostname asked. When no address holds a newline, its lines are exactly the resolved addresses. |

## Left out

- The Express setup, views, static files, and `render`/`redirect` as HTML. Pages are `Response` values.
- The debugging and plain routes (`/rip`, `/error`, `/`, `/log-stdout`, `/log-stderr`, `/about`, `/autoscaling`, GET `/network`). They only render or log.
- The SDK calls `headBucket`, `listObjects`, `getObject`, `putObject`, `exists`, `listBlobsFlat`, `download` and `upload`. They are foreign libraries, so their outcomes are parameters.
- `MaxKeys: 10` of `listObjects`. It is a parameter passed through to the SDK.
- `JSON.stringify` of SDK errors. It is modelled as the error text `Reply.Err` carries.
- Node's `fs` and `path` calls. `existsSync`, `readFileSync`, `readdir`, `lstat`, `readFile` and `writeFile` are inputs or left out.
- POST `/create-file` (app.js:204-228). It checks the file name with the `valid-filename` package, which is not part of this model. It then writes the file or lists the directory with an "Invalid filename" message.
- GET `/secrets` and GET `/configmaps` (app.js:236-261). Each reads one fixed mounted file (`secretFile`, `configFile`) and renders its contents or the read error.
- Console logging. Every handler and the probe log through `console.log` or `console.error`, for example the health status on POST `/health` (app.js:117). Nothing is logged in the model.
- `blobServiceClient`. The routes only read `containerClient`, which is modelled as the container it is bound to.
- The asynchrony of the probe. The callbacks run as sequential transitions, and interleavings with requests are not modelled. The startup race is covered by the guards' behaviour on the initial state.
- `/hpa`, `/network/colors`, the `dns.resolve4` lookup and the `/crash` timer. They are network I/O and process control.
- The environment-variable redaction regex of `/env-variables`. It depends on JavaScript regular expressions and `JSON.stringify(process.env)`.
- POST `/network` without a host name. It reads an undefined `hostname`, so it throws rather than showing a page.
- Timeouts, retries and any in-memory object store. The code has none of them.
- Filesystem.SelectFile: a non-canonical numeric index is not modelled. Examples are "01", "1.5", " 2" and the empty `?filenameIndex=`. The comparison `index < items.length` converts the text to a number. When that number is below the length, the check passes, but `items[index]` looks up the text itself and is undefined, as with a negative index. The empty index converts to 0, so it passes on every non-empty directory. "1.5" on a one-file directory does not pass and gets "File not found.".
- Streams.StreamToString: chunks arrive as decoded text. Decoding each chunk apart (`data.toString()`) can split a multi-byte character, and that is not modelled.
- CloudRoutes.CreateBlobHandler: the upload length is the content's length in characters. JavaScript's `content.length` counts UTF-16 code units, and the SDK expects bytes. These differ for non-ASCII content.
- Filesystem.FilesystemHandler: follows the corrected index check of the Findings row. On a negative index the code as written throws (app.js:171), where the model answers "File not found.".
- What an unhandled rejection does to the process is not modelled. It depends on Node's `--unhandled-rejections` mode, and since Node 15 the default ends the process. This affects `checkIfAzure`, called without `await` at app.js:616, and the `/aso` listing at app.js:398. The model records the rejection (`RejectedUnhandled` from `CloudProbe.CloudState.CheckIfAzure`, `NoResponse` from `CloudRoutes.ListContainerHandler`) and keeps the state as it was at the throw.
- CloudRoutes.ListBucketHandler: each S3 object in `data.Contents` is reduced to its key.

## Findings

| source | as written | input that shows it | evidently intended | confidence | as-written member | corrected member |
|---|---|---|---|---|---|---|
| app.js:170-171 | `index < items.length` admits a negative index. `items[index]` is then `undefined`, and `path.resolve(directory, undefined)` throws inside the `readdir` callback. | GET `/filesystem?filenameIndex=-1` | Any index that names no entry shows "File not found." | not executed; the comparison and the array lookup follow JavaScript semantics | `Filesystem.NegativeIndexReachesUndefinedEntry`, `Filesystem.SelectFileAsWritten` | `Filesystem.SelectFile` |
