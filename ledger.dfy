/**
 * The interaction ledger: one JSON line per interaction or pipeline step
 * appended to a local file, each line optionally mirrored to an object
 * store.  The file and the store are the fields of a `Ledger` object; the
 * outcome of each write (success, or the error text) is a parameter, as are
 * the clock reading and the fresh session id.
 */
module Ledger {
  import opened Wrappers
  import opened PyJson

  /** A line of the ledger file. */
  datatype Record =
    | Entry(ts: string, sessionId: string, agentVersion: string, modelId: Option<string>,
            userQuery: string, args: map<string, Json>,
            plan: Json, actions: Json, verify: Json, answer: Json)
    | Step(ts: string, sessionId: string, agentVersion: string, modelId: Option<string>,
           userQuery: string, stage: string, payload: map<string, Json>)

  /** `LEDGER_LOCAL_ENABLE`, `LEDGER_LOCAL_PATH`, and whether a bucket is configured and the client available. */
  datatype Config = Config(localEnabled: bool, localPath: string, mirrorEnabled: bool, bucket: string, prefix: string)

  /** How a write to a sink ended: it succeeded, or it raised with this message. */
  datatype IoOutcome = Succeeded | Failed(message: string)

  /** The status of a local append: `{"ok", "local_path"}` or `{"ok": false, "local_error"}`. */
  datatype LocalStatus = LocalStatus(ok: bool, localPath: Option<string>, localError: Option<string>)

  /** The status `write_entry_s3` returns. */
  datatype MirrorStatus = MirrorStatus(ok: bool, s3Uri: Option<string>, s3Error: Option<string>)

  /**
   * The status `write_entry` returns.  `s3Uri` is `None` when the key is
   * absent and `Some(None)` when it is present with the value `None`.
   */
  datatype EntryStatus = EntryStatus(
    ok: bool, localPath: Option<string>, localError: Option<string>,
    s3Uri: Option<Option<string>>, s3Error: Option<string>)

  /** What `write_step` returns: both statuses. */
  datatype StepStatus = StepStatus(local: LocalStatus, mirror: MirrorStatus)

  /** `session_id or str(uuid.uuid4())`, the fresh id given. */
  function SessionOrFresh(sessionId: Option<string>, freshId: string): (s: string)
    ensures sessionId.Some? && sessionId.value != "" ==> s == sessionId.value
    ensures sessionId.None? || sessionId.value == "" ==> s == freshId
  {
    if sessionId.Some? && sessionId.value != "" then sessionId.value else freshId
  }

  /** The object key of a mirrored record: prefix, session, `/`, timestamp, `.json`. */
  function MirrorKey(prefix: string, r: Record): (key: string)
    ensures |key| == |prefix| + |r.sessionId| + 1 + |r.ts| + 5
    ensures key[..|prefix|] == prefix
    ensures key[|prefix|..|prefix| + |r.sessionId|] == r.sessionId
    ensures key[|prefix| + |r.sessionId|] == '/'
    ensures key[|key| - 5..] == ".json"
  {
    prefix + r.sessionId + "/" + r.ts + ".json"
  }

  function MirrorUri(bucket: string, key: string): string {
    "s3://" + bucket + "/" + key
  }

  /** The status of a mirror write, given its configuration and how the upload ended. */
  function MirrorStatusOf(config: Config, r: Record, put: IoOutcome): (s: MirrorStatus)
    ensures s.ok <==> !config.mirrorEnabled || put.Succeeded?
    ensures s.s3Uri.Some? <==> config.mirrorEnabled && put.Succeeded?
    ensures s.s3Uri.Some? ==> s.s3Uri.value == MirrorUri(config.bucket, MirrorKey(config.prefix, r))
    ensures s.s3Error.Some? <==> !s.ok
    ensures s.s3Error.Some? ==> s.s3Error.value == put.message
  {
    if !config.mirrorEnabled then MirrorStatus(true, None, None)
    else match put
      case Succeeded => MirrorStatus(true, Some(MirrorUri(config.bucket, MirrorKey(config.prefix, r))), None)
      case Failed(message) => MirrorStatus(false, None, Some(message))
  }

  /** The status of a local append. */
  function LocalStatusOf(config: Config, local: IoOutcome): (s: LocalStatus)
    ensures s.ok <==> !config.localEnabled || local.Succeeded?
    ensures s.localPath.Some? <==> config.localEnabled && local.Succeeded?
    ensures s.localPath.Some? ==> s.localPath.value == config.localPath
    ensures s.localError.Some? <==> !s.ok
  {
    if !config.localEnabled then LocalStatus(true, None, None)
    else match local
      case Succeeded => LocalStatus(true, Some(config.localPath), None)
      case Failed(message) => LocalStatus(false, None, Some(message))
  }

  /**
   * `write_entry`'s merge of the two statuses: `ok` is the local status
   * alone; a mirror success adds its URI, a mirror failure only its error
   * text, and only when that text is not empty.
   */
  function EntryStatusOf(local: LocalStatus, mirror: MirrorStatus): (s: EntryStatus)
    ensures s.ok == local.ok
    ensures s.localPath == local.localPath && s.localError == local.localError
    ensures s.s3Uri.Some? <==> mirror.ok
    ensures mirror.ok ==> s.s3Uri == Some(mirror.s3Uri)
    ensures s.s3Error.Some? <==> !mirror.ok && mirror.s3Error.Some? && mirror.s3Error.value != ""
    ensures s.s3Error.Some? ==> s.s3Error == mirror.s3Error
  {
    var base := EntryStatus(local.ok, local.localPath, local.localError, None, None);
    if mirror.ok then base.(s3Uri := Some(mirror.s3Uri))
    else if mirror.s3Error.Some? && mirror.s3Error.value != "" then base.(s3Error := mirror.s3Error)
    else base
  }

  /** A mirror failure never makes an entry fail: `ok` depends on the local write alone. */
  lemma MirrorNeverFailsEntry(config: Config, r: Record, local: IoOutcome, put1: IoOutcome, put2: IoOutcome)
    ensures EntryStatusOf(LocalStatusOf(config, local), MirrorStatusOf(config, r, put1)).ok ==
            EntryStatusOf(LocalStatusOf(config, local), MirrorStatusOf(config, r, put2)).ok
    ensures !EntryStatusOf(LocalStatusOf(config, local), MirrorStatusOf(config, r, put1)).ok <==>
            config.localEnabled && local.Failed?
  {
  }

  /** The record `write_entry` builds from a result envelope. */
  function EntryRecord(ts: string, sessionId: string, agentVersion: string, modelId: Option<string>,
                       userQuery: string, args: map<string, Json>, result: map<string, Json>): (r: Record)
    ensures r.Entry? && r.ts == ts && r.sessionId == sessionId && r.userQuery == userQuery && r.args == args
    ensures r.plan == GetOrNull(result, "plan") && r.actions == GetOrNull(result, "actions")
    ensures r.verify == GetOrNull(result, "verify") && r.answer == GetOrNull(result, "answer")
  {
    Entry(ts, sessionId, agentVersion, modelId, userQuery, args,
          GetOrNull(result, "plan"), GetOrNull(result, "actions"),
          GetOrNull(result, "verify"), GetOrNull(result, "answer"))
  }

  class Ledger {
    /** The lines of the local ledger file, oldest first. */
    var lines: seq<Record>
    /** The objects put to the bucket, by key. */
    var mirrored: seq<(string, Record)>
    const config: Config

    constructor(config: Config, lines: seq<Record>)
      ensures this.config == config && this.lines == lines && mirrored == []
    {
      this.config := config;
      this.lines := lines;
      mirrored := [];
    }

    /** `write_entry_s3`: best effort; with mirroring off it reports success and writes nothing. */
    method WriteEntryS3(r: Record, put: IoOutcome) returns (status: MirrorStatus)
      modifies this
      ensures status == MirrorStatusOf(config, r, put)
      ensures lines == old(lines)
      ensures mirrored == if config.mirrorEnabled && put.Succeeded?
        then old(mirrored) + [(MirrorKey(config.prefix, r), r)]
        else old(mirrored)
    {
      status := MirrorStatus(true, None, None);
      if !config.mirrorEnabled {
        return;
      }
      var key := MirrorKey(config.prefix, r);
      match put {
        case Succeeded =>
          mirrored := mirrored + [(key, r)];
          status := status.(s3Uri := Some(MirrorUri(config.bucket, key)));
        case Failed(message) =>
          status := status.(ok := false, s3Error := Some(message));
      }
    }

    /** The local append both writers share. */
    method AppendLocal(r: Record, local: IoOutcome) returns (status: LocalStatus)
      modifies this
      ensures status == LocalStatusOf(config, local)
      ensures lines == if config.localEnabled && local.Succeeded? then old(lines) + [r] else old(lines)
      ensures mirrored == old(mirrored)
    {
      status := LocalStatus(true, None, None);
      if config.localEnabled {
        match local {
          case Succeeded =>
            lines := lines + [r];
            status := status.(localPath := Some(config.localPath));
          case Failed(message) =>
            status := LocalStatus(false, None, Some(message));
        }
      }
    }

    /** `write_entry`: append the interaction's record, mirror it, and merge the statuses. */
    method WriteEntry(userQuery: string, args: map<string, Json>, result: map<string, Json>,
                      sessionId: Option<string>, agentVersion: string, modelId: Option<string>,
                      ts: string, freshId: string, local: IoOutcome, put: IoOutcome)
      returns (status: EntryStatus)
      modifies this
      ensures var r := EntryRecord(ts, SessionOrFresh(sessionId, freshId), agentVersion, modelId, userQuery, args, result);
        && status == EntryStatusOf(LocalStatusOf(config, local), MirrorStatusOf(config, r, put))
        && lines == (if config.localEnabled && local.Succeeded? then old(lines) + [r] else old(lines))
        && mirrored == (if config.mirrorEnabled && put.Succeeded?
                         then old(mirrored) + [(MirrorKey(config.prefix, r), r)] else old(mirrored))
      ensures !status.ok <==> config.localEnabled && local.Failed?
    {
      var r := EntryRecord(ts, SessionOrFresh(sessionId, freshId), agentVersion, modelId, userQuery, args, result);
      var localStatus := AppendLocal(r, local);
      var mirrorStatus := WriteEntryS3(r, put);
      status := EntryStatus(localStatus.ok, localStatus.localPath, localStatus.localError, None, None);
      if mirrorStatus.ok {
        status := status.(s3Uri := Some(mirrorStatus.s3Uri));
      } else if mirrorStatus.s3Error.Some? && mirrorStatus.s3Error.value != "" {
        status := status.(s3Error := mirrorStatus.s3Error);
      }
    }

    /** `write_step`: append a step record carrying stage and payload, mirror it, return both statuses. */
    method WriteStep(userQuery: string, stage: string, payload: map<string, Json>,
                     sessionId: Option<string>, agentVersion: string, modelId: Option<string>,
                     ts: string, freshId: string, local: IoOutcome, put: IoOutcome)
      returns (status: StepStatus)
      modifies this
      ensures var r := Step(ts, SessionOrFresh(sessionId, freshId), agentVersion, modelId, userQuery, stage, payload);
        && status == StepStatus(LocalStatusOf(config, local), MirrorStatusOf(config, r, put))
        && lines == (if config.localEnabled && local.Succeeded? then old(lines) + [r] else old(lines))
        && mirrored == (if config.mirrorEnabled && put.Succeeded?
                         then old(mirrored) + [(MirrorKey(config.prefix, r), r)] else old(mirrored))
    {
      var r := Step(ts, SessionOrFresh(sessionId, freshId), agentVersion, modelId, userQuery, stage, payload);
      var localStatus := AppendLocal(r, local);
      var mirrorStatus := WriteEntryS3(r, put);
      status := StepStatus(localStatus, mirrorStatus);
    }
  }
}
