/** The startup feature detection: which cloud object store, if any, the
    service may use. Every SDK and filesystem result is an input; the two
    callbacks of the source run here as sequential transitions. */
module CloudProbe {
  import opened Common

  /** What the mounted connection-string secret yields to `existsSync` and
      `readFileSync`. */
  datatype ConnectionFile =
    | Missing                     // existsSync answers false
    | Readable(contents: string)  // the file exists and reads as `contents`
    | Unreadable                  // the file exists but readFileSync throws

  /** The outcome of the `try` block that builds the Azure clients and asks
      whether the container exists. */
  datatype ContainerProbe =
    | ClientRejected(message: string)  // fromConnectionString or getContainerClient threw
    | ExistsThrew(message: string)     // the client was built, exists() rejected
    | ExistsAnswered(found: bool)     // the client was built, exists() resolved

  /** The probe steps, in the order they happened. */
  datatype ProbeEvent = HeadBucket(ok: bool) | AzureCheck

  /** How the (unawaited) `checkIfAzure` promise ends. */
  datatype AzureCheckEnd = Settled | RejectedUnhandled

  /** The cloud backend the flags select. */
  datatype RuntimeMode = NoCloud | AwsS3 | AzureBlob

  /** `app.locals.isAWS`, `app.locals.isAzure`, `connectionString`, and the
      container the Azure `containerClient` is bound to. */
  datatype Locals = Locals(
    isAWS: Option<bool>,
    isAzure: Option<bool>,
    connectionString: Option<string>,
    containerClient: Option<string>)

  /** Before the probe, every value is `undefined`. */
  const INITIAL := Locals(None, None, None, None)

  /** JavaScript truthiness of a tri-state flag: only `true` enables. */
  predicate Enabled(flag: Option<bool>)
  {
    flag == Some(true)
  }

  function Mode(l: Locals): RuntimeMode
  {
    if Enabled(l.isAWS) then AwsS3
    else if Enabled(l.isAzure) then AzureBlob
    else NoCloud
  }

  /** The state the probe keeps: never both clouds, and Azure only once AWS
      was ruled out, with the connection string read and the client bound to
      the namespace's container. */
  predicate Consistent(ns: string, l: Locals)
  {
    && !(Enabled(l.isAWS) && Enabled(l.isAzure))
    && (Enabled(l.isAzure) ==>
          && l.isAWS == Some(false)
          && l.connectionString.Some?
          && l.containerClient == Some(ContainerName(ns)))
  }

  /** `checkIfAzure()` run from state `l`. */
  function AzureChecked(ns: string, l: Locals, file: ConnectionFile, probe: ContainerProbe): Locals
  {
    match file
    case Unreadable => l
    case _ =>
      var conn := if file.Readable? then Some(file.contents) else l.connectionString;
      if conn.None? then
        l.(isAzure := Some(false))
      else
        match probe
        case ClientRejected(_) =>
          l.(connectionString := conn, isAzure := Some(false))
        case ExistsThrew(_) =>
          l.(connectionString := conn, containerClient := Some(ContainerName(ns)), isAzure := Some(false))
        case ExistsAnswered(found) =>
          l.(connectionString := conn, containerClient := Some(ContainerName(ns)), isAzure := Some(found))
  }

  /** The `headBucket` callback run from state `l`: success enables AWS and
      disables Azure; any error disables AWS and then checks Azure. */
  function AfterHeadBucket(ns: string, l: Locals, ok: bool, file: ConnectionFile, probe: ContainerProbe): Locals
  {
    if ok then l.(isAWS := Some(true), isAzure := Some(false))
    else AzureChecked(ns, l.(isAWS := Some(false)), file, probe)
  }

  /** The whole startup probe from the initial state. */
  function AfterStartup(ns: string, ok: bool, file: ConnectionFile, probe: ContainerProbe): (r: Locals)
    ensures ok ==> r == Locals(Some(true), Some(false), None, None)
    ensures !ok ==> r.isAWS == Some(false)
    ensures Enabled(r.isAzure) <==> !ok && file.Readable? && probe == ExistsAnswered(true)
    ensures r.isAzure == None <==> !ok && file.Unreadable?
    ensures !ok && file.Missing? ==> r.connectionString == None && r.isAzure == Some(false)
    ensures Mode(r) == AwsS3 <==> ok
    ensures Consistent(ns, r)
  {
    AfterHeadBucket(ns, INITIAL, ok, file, probe)
  }

  /** The probe never breaks the state it keeps, from any consistent state. */
  lemma HeadBucketKeepsConsistent(ns: string, l: Locals, ok: bool, file: ConnectionFile, probe: ContainerProbe)
    requires Consistent(ns, l)
    ensures Consistent(ns, AfterHeadBucket(ns, l, ok, file, probe))
    ensures Enabled(AfterHeadBucket(ns, l, ok, file, probe).isAWS) <==> ok
  {
  }

  /** Every Azure check in the log comes after a failed `headBucket`. */
  ghost predicate AzureAfterAwsFailure(events: seq<ProbeEvent>)
  {
    forall i :: 0 <= i < |events| && events[i] == AzureCheck ==> HeadBucket(false) in events[..i]
  }

  /** Logging one more step keeps the order, provided an Azure check is only
      logged once a failed `headBucket` is. */
  lemma AzureAfterAwsFailureExtends(events: seq<ProbeEvent>, e: ProbeEvent)
    requires AzureAfterAwsFailure(events)
    requires e == AzureCheck ==> HeadBucket(false) in events
    ensures AzureAfterAwsFailure(events + [e])
  {
    var longer := events + [e];
    forall i | 0 <= i < |longer| && longer[i] == AzureCheck
      ensures HeadBucket(false) in longer[..i]
    {
      if i < |events| {
        assert longer[..i] == events[..i];
      } else {
        assert longer[..i] == events;
      }
    }
  }

  /** The module-level detection state of the service. */
  class CloudState {
    const ns: string
    var isAWS: Option<bool>
    var isAzure: Option<bool>
    var connectionString: Option<string>
    var containerClient: Option<string>
    ghost var events: seq<ProbeEvent>

    function Snapshot(): Locals
      reads this
    {
      Locals(isAWS, isAzure, connectionString, containerClient)
    }

    ghost predicate Valid()
      reads this
    {
      && Consistent(ns, Snapshot())
      && (isAWS == None ==> Snapshot() == INITIAL && events == [])
      && AzureAfterAwsFailure(events)
    }

    constructor (ns: string)
      ensures Valid()
      ensures this.ns == ns && Snapshot() == INITIAL && events == []
    {
      this.ns := ns;
      isAWS, isAzure := None, None;
      connectionString, containerClient := None, None;
      events := [];
    }

    /** `checkIfAzure()`. Its one caller runs it right after `isAWS := false`. */
    method CheckIfAzure(file: ConnectionFile, probe: ContainerProbe) returns (end: AzureCheckEnd)
      requires Valid() && isAWS == Some(false)
      requires HeadBucket(false) in events
      modifies this
      ensures Valid()
      ensures Snapshot() == AzureChecked(ns, old(Snapshot()), file, probe)
      ensures events == old(events) + [AzureCheck]
      ensures end == RejectedUnhandled <==> file.Unreadable?
    {
      if file.Unreadable? {
        // readFileSync throws outside the try block: nothing is assigned
        end := RejectedUnhandled;
      } else {
        if file.Readable? {
          connectionString := Some(file.contents);
        }
        if connectionString == None {
          isAzure := Some(false);
        } else {
          match probe {
            case ClientRejected(_) =>
              isAzure := Some(false);
            case ExistsThrew(_) =>
              containerClient := Some(ContainerName(ns));
              isAzure := Some(false);
            case ExistsAnswered(found) =>
              containerClient := Some(ContainerName(ns));
              isAzure := Some(found);
          }
        }
        end := Settled;
      }
      AzureAfterAwsFailureExtends(events, AzureCheck);
      events := events + [AzureCheck];
    }

    /** The `headBucket` callback. */
    method OnHeadBucket(ok: bool, file: ConnectionFile, probe: ContainerProbe) returns (azureChecked: bool)
      requires Valid()
      modifies this
      ensures Valid()
      ensures Snapshot() == AfterHeadBucket(ns, old(Snapshot()), ok, file, probe)
      ensures azureChecked == !ok
      ensures events == old(events) + [HeadBucket(ok)] + (if ok then [] else [AzureCheck])
    {
      AzureAfterAwsFailureExtends(events, HeadBucket(ok));
      events := events + [HeadBucket(ok)];
      if !ok {
        isAWS := Some(false);
        var _ := CheckIfAzure(file, probe);
        azureChecked := true;
      } else {
        isAWS := Some(true);
        isAzure := Some(false);
        azureChecked := false;
      }
    }

    /** Server start: the bucket is probed only while `isAWS` is undefined. */
    method Startup(ok: bool, file: ConnectionFile, probe: ContainerProbe) returns (probed: bool)
      requires Valid()
      modifies this
      ensures Valid()
      ensures probed <==> old(isAWS) == None
      ensures probed ==> Snapshot() == AfterStartup(ns, ok, file, probe)
      ensures !probed ==> Snapshot() == old(Snapshot()) && events == old(events)
    {
      probed := isAWS == None;
      if probed {
        var _ := OnHeadBucket(ok, file, probe);
      }
    }
  }

  /** The two deployments of the demonstration, namespace "demo": with the
      bucket missing and the container present Azure is selected; with
      neither cloud reachable, no cloud is. */
  lemma DemoDeployments()
    ensures Mode(AfterStartup("demo", false, Readable("conn"), ExistsAnswered(true))) == AzureBlob
    ensures AfterStartup("demo", false, Readable("conn"), ExistsAnswered(true)).containerClient == Some("demo-container")
    ensures Mode(AfterStartup("demo", false, Missing, ExistsAnswered(true))) == NoCloud
  {
    assert ContainerName("demo") == "demo" + CONTAINER_SUFFIX == "demo-container";
  }
}
