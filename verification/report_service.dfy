/** `ReportService.create_report`: the incident record is assembled from
    the submitted form, an optional uploaded file and the classifier's
    result, and written to the incidents collection under a fresh id.
    `secure_filename`, saving the file, the model's reply, the JSON parser
    and the store's write are foreign; their outcomes are parameters. */
module ReportService {
  import opened Values
  import opened AiService
  import opened IncidentRepo

  /** An uploaded file; only its client-side filename matters here. */
  datatype Upload = Upload(filename: string)

  /** What the foreign calls of one `create_report` do: how `secure_filename`
      rewrites a name, whether saving the file succeeds, the model's reply,
      the JSON parser, whether the store's write succeeds and its commit time. */
  datatype ReportEnv = ReportEnv(secureFilename: string -> string, save: Outcome, reply: Result<string>,
                                 parse: string -> Option<Value>, write: Outcome, commitTime: int)

  /** `form.get(key)`: the submitted text, or None when the field is absent. */
  function FormGet(form: map<string, string>, key: string): Value {
    if key in form then VStr(form[key]) else VNone
  }

  /** `files.get("media")` is truthy: a file was sent under "media" and its
      filename is not empty (an empty file input arrives with filename ""). */
  function Media(files: map<string, Upload>): Option<string> {
    if "media" in files && files["media"].filename != "" then Some(files["media"].filename) else None
  }

  /** `os.path.join("static/uploads", name)`, for the names `secure_filename`
      produces, which never start with "/". */
  function MediaPath(name: string): string {
    "static/uploads/" + name
  }

  /** `url_for('static', filename="uploads/" + name)`; the names
      `secure_filename` produces need no URL quoting. */
  function MediaUrl(name: string): Value {
    VStr("/static/uploads/" + name)
  }

  /** The record literal the report starts from. */
  function BaseIncident(form: map<string, string>, user: Value): Dict {
    map["location" := FormGet(form, "location"), "type" := FormGet(form, "type"),
        "description" := FormGet(form, "description"), "submitted_by" := user,
        "timestamp" := ServerTimestamp]
  }

  /** The record before classification: the base record, with `media_url`
      when a file was sent and saved; a failed save raises. */
  function WithMedia(form: map<string, string>, files: map<string, Upload>, user: Value, env: ReportEnv): Result<Dict> {
    match Media(files)
    case None => Ok(BaseIncident(form, user))
    case Some(filename) =>
      if env.save.Failed? then Raise(env.save.exc)
      else Ok(BaseIncident(form, user)["media_url" := MediaUrl(env.secureFilename(filename))])
  }

  /** The classifier's result for the submitted description. */
  function Classified(form: map<string, string>, env: ReportEnv): Result<Value> {
    ClassifyIncident(FormGet(form, "description"), env.reply, env.parse)
  }

  /** The record `create_report` hands to the store when the classifier's
      outcome is `ai`, or what it raises before reaching the store.
      `incident.update(ai_result)` merges a JSON object; any other classifier
      result is taken to raise. */
  function Assemble(form: map<string, string>, files: map<string, Upload>, user: Value, env: ReportEnv,
                    ai: Result<Value>): (r: Result<Dict>)
    ensures r.Ok? ==> && WithMedia(form, files, user, env).Ok? && ai.Ok? && ai.value.VDict?
                      && r.value.Keys == WithMedia(form, files, user, env).value.Keys + ai.value.fields.Keys
  {
    match WithMedia(form, files, user, env)
    case Raise(e) => Raise(e)
    case Ok(incident) =>
      match ai
      case Raise(e) => Raise(e)
      case Ok(result) => if result.VDict? then Ok(Update(incident, result.fields)) else Raise(TypeError)
  }

  /** The external calls `create_report` attempts before the store: saving
      the file, when one was sent, then, unless that failed, the model call. */
  function CallsBeforeWrite(form: map<string, string>, files: map<string, Upload>, env: ReportEnv): seq<Effect> {
    var save := if Media(files).Some? then [SaveMedia(MediaPath(env.secureFilename(Media(files).value)))] else [];
    if Media(files).Some? && env.save.Failed? then save
    else save + [CallModel(FormGet(form, "description"))]
  }

  /** All the external calls `create_report` attempts, in order, when the
      classifier's result is `ai` and the next document id is `id`. */
  function ReportEffects(form: map<string, string>, files: map<string, Upload>, user: Value, env: ReportEnv,
                         ai: Result<Value>, id: nat): seq<Effect>
  {
    var record := Assemble(form, files, user, env, ai);
    CallsBeforeWrite(form, files, env) + (if record.Ok? then [WriteIncident(id, record.value)] else [])
  }

  /** The steps of `create_report` before the store: the incident is built
      in place, the file saved and the model called; the calls made and the
      record to store (or the error raised) are returned. */
  method BuildIncident(form: map<string, string>, files: map<string, Upload>, user: Value, env: ReportEnv)
    returns (calls: seq<Effect>, record: Result<Dict>)
    ensures calls == CallsBeforeWrite(form, files, env)
    ensures record == Assemble(form, files, user, env, Classified(form, env))
  {
    calls := [];
    var incident := BaseIncident(form, user);
    var media := Media(files);
    if media.Some? {
      var filename := env.secureFilename(media.value);
      calls := calls + [SaveMedia(MediaPath(filename))];
      if env.save.Failed? {
        return calls, Raise(env.save.exc);
      }
      incident := incident["media_url" := MediaUrl(filename)];
    }
    assert WithMedia(form, files, user, env) == Ok(incident);
    calls := calls + [CallModel(incident["description"])];
    var ai := Classified(form, env);
    if ai.Raise? {
      return calls, Raise(ai.exc);
    }
    if !ai.value.VDict? {
      return calls, Raise(TypeError);
    }
    incident := Update(incident, ai.value.fields);
    record := Ok(incident);
  }

  /** The place of each kind of call in `create_report`. */
  function Step(e: Effect): nat {
    match e
    case SaveMedia(_) => 0
    case CallModel(_) => 1
    case WriteIncident(_, _) => 2
    case _ => 3
  }

  class ReportService {
    const repo: IncidentStore
    var trace: seq<Effect>

    constructor (repo: IncidentStore)
      ensures this.repo == repo && trace == []
    {
      this.repo := repo;
      trace := [];
    }

    /** `create_report`: the attempted calls are appended to the trace;
        the assembled record is written under a fresh id, which is returned,
        or the first error is raised.  Nothing is written when the error
        comes before the store, and a failed write leaves the store as it was. */
    method CreateReport(form: map<string, string>, files: map<string, Upload>, user: Value, env: ReportEnv)
      returns (r: Result<nat>)
      requires repo.Valid()
      modifies this, repo
      ensures repo.Valid()
      ensures var ai := Classified(form, env);
        && trace == old(trace) + ReportEffects(form, files, user, env, ai, old(repo.nextId))
        && match Assemble(form, files, user, env, ai)
           case Raise(e) => r == Raise(e) && repo.docs == old(repo.docs)
           case Ok(record) =>
             if env.write.Failed? then r == Raise(env.write.exc) && repo.docs == old(repo.docs)
             else && r == Ok(old(repo.nextId))
                  && old(repo.nextId) !in old(repo.docs)
                  && repo.docs == old(repo.docs)[old(repo.nextId) := ResolveServerTimestamps(record, env.commitTime)]
    {
      var calls, record := BuildIncident(form, files, user, env);
      if record.Raise? {
        trace := trace + calls;
        r := Raise(record.exc);
        return;
      }
      trace := trace + calls + [WriteIncident(repo.nextId, record.value)];
      r := repo.Save(record.value, env.write, env.commitTime);
    }
  }

  /** Before classification the record holds exactly `location`, `type`,
      `description`, `submitted_by` (the user) and `timestamp` (the server
      timestamp placeholder), plus `media_url` exactly when a file was sent;
      it is missing only when saving that file failed. */
  lemma PreMergeRecord(form: map<string, string>, files: map<string, Upload>, user: Value, env: ReportEnv)
    ensures WithMedia(form, files, user, env).Raise? <==> Media(files).Some? && env.save.Failed?
    ensures var r := WithMedia(form, files, user, env);
      r.Ok? ==>
        && r.value.Keys == {"location", "type", "description", "submitted_by", "timestamp"}
                           + (if Media(files).Some? then {"media_url"} else {})
        && r.value["location"] == FormGet(form, "location")
        && r.value["type"] == FormGet(form, "type")
        && r.value["description"] == FormGet(form, "description")
        && r.value["submitted_by"] == user
        && r.value["timestamp"] == ServerTimestamp
        && (Media(files).Some? ==> r.value["media_url"] == MediaUrl(env.secureFilename(Media(files).value)))
  {
    var base := BaseIncident(form, user);
    assert base.Keys == {"location", "type", "description", "submitted_by", "timestamp"};
    if Media(files).Some? && env.save.Done? {
      var url := MediaUrl(env.secureFilename(Media(files).value));
      assert WithMedia(form, files, user, env) == Ok(base["media_url" := url]);
    }
  }

  /** The record written is the pre-classification record merged with the
      classifier's object: its keys are the union, every key of the
      classifier's object has the classifier's value, every other key keeps
      its earlier value.  It is produced exactly when the file save (if any)
      and the classifier succeed and the classifier returns an object. */
  lemma AssembleMerge(form: map<string, string>, files: map<string, Upload>, user: Value, env: ReportEnv,
                      ai: Result<Value>)
    ensures Assemble(form, files, user, env, ai).Ok? <==>
      WithMedia(form, files, user, env).Ok? && ai.Ok? && ai.value.VDict?
    ensures Assemble(form, files, user, env, ai).Ok? ==>
      var before := WithMedia(form, files, user, env).value;
      var r := Assemble(form, files, user, env, ai).value;
      && r.Keys == before.Keys + ai.value.fields.Keys
      && (forall k :: k in ai.value.fields ==> r[k] == ai.value.fields[k])
      && (forall k :: k in before && k !in ai.value.fields ==> r[k] == before[k])
  {
  }

  /** When the model's reply does not parse and the description was
      submitted, the record written is the pre-classification record with
      `category` "Other", `summary` the first 100 characters of the
      description and `priority` "Low". */
  lemma AssembleOnParseFailure(form: map<string, string>, files: map<string, Upload>, user: Value, env: ReportEnv)
    requires "description" in form && env.reply.Ok? && env.parse(CleanReply(env.reply.value)).None?
    requires WithMedia(form, files, user, env).Ok?
    ensures Assemble(form, files, user, env, Classified(form, env))
      == Ok(WithMedia(form, files, user, env).value["category" := VStr("Other")]
                                                   ["summary" := VStr(Take(form["description"], 100))]
                                                   ["priority" := VStr("Low")])
  {
    var d := form["description"];
    ClassifyIncidentFallback(d, env.reply.value, env.parse);
    var fallback := map["category" := VStr("Other"), "summary" := VStr(Take(d, 100)), "priority" := VStr("Low")];
    assert Classified(form, env) == Ok(VDict(fallback));
    MergeThree(WithMedia(form, files, user, env).value, VStr("Other"), VStr(Take(d, 100)), VStr("Low"));
  }

  /** Merging a three-key record is updating those three keys. */
  lemma MergeThree(before: Dict, category: Value, summary: Value, priority: Value)
    ensures Update(before, map["category" := category, "summary" := summary, "priority" := priority])
         == before["category" := category]["summary" := summary]["priority" := priority]
  {
    var other := map["category" := category, "summary" := summary, "priority" := priority];
    var r := before["category" := category]["summary" := summary]["priority" := priority];
    assert Update(before, other).Keys == r.Keys;
  }

  /** The calls are a prefix of: the file save if a file was sent, the
      model call, the store write. */
  lemma ReportEffectsCases(form: map<string, string>, files: map<string, Upload>, user: Value, env: ReportEnv,
                           ai: Result<Value>, id: nat)
    ensures var effects := ReportEffects(form, files, user, env, ai, id);
      var record := Assemble(form, files, user, env, ai);
      var save := if Media(files).Some? then [SaveMedia(MediaPath(env.secureFilename(Media(files).value)))] else [];
      var write := if record.Ok? then [WriteIncident(id, record.value)] else [];
      if Media(files).Some? && env.save.Failed? then effects == save && record.Raise?
      else effects == save + [CallModel(FormGet(form, "description"))] + write
  {
  }

  /** The calls happen in the order save file, classify, write, each at
      most once, and nothing else is called. */
  lemma ReportEffectsOrder(form: map<string, string>, files: map<string, Upload>, user: Value, env: ReportEnv,
                           ai: Result<Value>, id: nat)
    ensures var effects := ReportEffects(form, files, user, env, ai, id);
      && (forall i, j :: 0 <= i < j < |effects| ==> Step(effects[i]) < Step(effects[j]))
      && (forall e :: e in effects ==> Step(e) < 3)
  {
    ReportEffectsCases(form, files, user, env, ai, id);
  }

  /** The file is saved exactly when one was sent; the model is called, with
      the submitted description, unless saving the file failed; the store is
      written, with the assembled record under the next id, exactly when the
      record could be assembled. */
  lemma ReportEffectsCalls(form: map<string, string>, files: map<string, Upload>, user: Value, env: ReportEnv,
                           ai: Result<Value>, id: nat)
    ensures var effects := ReportEffects(form, files, user, env, ai, id);
      && ((exists e :: e in effects && e.SaveMedia?) <==> Media(files).Some?)
      && ((exists e :: e in effects && e.CallModel?) <==> !(Media(files).Some? && env.save.Failed?))
      && (forall e :: e in effects && e.CallModel? ==> e.description == FormGet(form, "description"))
      && ((exists e :: e in effects && e.WriteIncident?) <==> Assemble(form, files, user, env, ai).Ok?)
      && (Assemble(form, files, user, env, ai).Ok? ==> WriteIncident(id, Assemble(form, files, user, env, ai).value) in effects)
  {
    ReportEffectsCases(form, files, user, env, ai, id);
    var effects := ReportEffects(form, files, user, env, ai, id);
    if Media(files).Some? {
      assert effects[0].SaveMedia?;
    }
    if !(Media(files).Some? && env.save.Failed?) {
      assert effects[if Media(files).Some? then 1 else 0].CallModel?;
    }
    if Assemble(form, files, user, env, ai).Ok? {
      assert effects[|effects| - 1].WriteIncident?;
    }
  }
}
