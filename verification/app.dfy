/** The Flask application module: its own copy of the classifier, the
    `/submit` route (classify, publish, store, broadcast), the broker
    subscription's message handler, the `/register` route, `/history` and
    `/logout`.  The model call, the publisher, the incidents collection's
    write and the socket emit are foreign: their outcomes are parameters, and
    each of them, and the message ack, which always succeeds, is appended to
    the application's trace of effects when attempted.  The users collection
    and the `/history` query are untraced map operations that cannot fail. */
module App {
  import opened Values
  import AiService
  import opened IncidentRepo
  import opened UserRepo

  // ---- classify_incident (the application's own copy) ----

  /** `classify_incident` in the application module: the same reply cleaning
      and parsing as the service's classifier, but its fallback has no
      `priority` key. */
  function ClassifyIncident(description: Value, reply: Result<string>, parse: string -> Option<Value>): (r: Result<Value>)
    ensures reply.Raise? ==> r == Raise(reply.exc)
    ensures reply.Ok? && parse(AiService.CleanReply(reply.value)).None? && r.Ok? ==>
      r.value.VDict? && r.value.fields.Keys == {"category", "summary"}
  {
    AiService.ClassifyReply(description, reply, parse, None)
  }

  /** When parsing fails on a string description the result is exactly
      `{category: "Other", summary: description[:100]}`, with no priority. */
  lemma ClassifyIncidentFallback(description: string, reply: string, parse: string -> Option<Value>)
    requires parse(AiService.CleanReply(reply)).None?
    ensures ClassifyIncident(VStr(description), Ok(reply), parse)
      == Ok(VDict(map["category" := VStr("Other"), "summary" := VStr(Take(description, 100))]))
    ensures "priority" !in ClassifyIncident(VStr(description), Ok(reply), parse).value.fields
  {
    var r := ClassifyIncident(VStr(description), Ok(reply), parse);
    assert r.value.fields == map["category" := VStr("Other"), "summary" := VStr(Take(description, 100))];
  }

  /** The two classifiers agree on every reply: they raise the same errors
      and return the same parsed value, and where they fall back the
      service's record is the application's with `priority` "Low" added. */
  lemma ClassifiersAgree(description: Value, reply: Result<string>, parse: string -> Option<Value>)
    ensures var app := ClassifyIncident(description, reply, parse);
      var service := AiService.ClassifyIncident(description, reply, parse);
      && (app.Raise? <==> service.Raise?)
      && (app.Raise? ==> app.exc == service.exc)
      && (reply.Ok? && parse(AiService.CleanReply(reply.value)).Some? ==> app == service)
      && (reply.Ok? && parse(AiService.CleanReply(reply.value)).None? && app.Ok? ==>
            service.value.fields == app.value.fields["priority" := VStr("Low")])
  {
    var app := ClassifyIncident(description, reply, parse);
    var service := AiService.ClassifyIncident(description, reply, parse);
    if reply.Ok? && parse(AiService.CleanReply(reply.value)).None? && app.Ok? {
      assert service.value.fields == app.value.fields["priority" := VStr("Low")];
    }
  }

  // ---- /submit ----

  /** What the foreign calls of one submission do: the model's reply, the
      JSON parser, the clock's ISO text, the broker's answer to the publish
      (a message id), the store's write and commit time, and the broadcast. */
  datatype SubmitEnv = SubmitEnv(reply: Result<string>, parse: string -> Option<Value>, now: string,
                                 publish: Result<string>, write: Outcome, commitTime: int, emit: Outcome)

  /** The JSON response of `/submit`. */
  datatype SubmitResponse =
    | Success(messageId: string, incidentId: nat)  // {"status": "success", "message_id", "incident_id"}
    | Error(exc: Exception)                         // {"status": "error", "detail": str(e)}

  function StatusCode(response: SubmitResponse): int {
    if response.Success? then 200 else 500
  }

  /** `incident["description"]` on the request's JSON value. */
  function Description(body: Value): Result<Value> {
    if !body.VDict? then Raise(TypeError)
    else if "description" in body.fields then Ok(body.fields["description"])
    else Raise(KeyError("description"))
  }

  /** The classifier's result for the request, once its description is read. */
  function Classification(request: Result<Value>, env: SubmitEnv): Result<Value> {
    if request.Raise? then Raise(request.exc)
    else match Description(request.value)
      case Raise(e) => Raise(e)
      case Ok(description) => ClassifyIncident(description, env.reply, env.parse)
  }

  /** `{**incident, **ai_result, "timestamp": <ISO text>}`: what is published and broadcast. */
  function PublishedRecord(incident: Dict, ai: Dict, now: string): Dict {
    Update(Update(incident, ai), map["timestamp" := VStr(now)])
  }

  /** `{**incident, **ai_result, "timestamp": SERVER_TIMESTAMP}`: what is stored. */
  function StoredRecord(incident: Dict, ai: Dict): Dict {
    Update(Update(incident, ai), map["timestamp" := ServerTimestamp])
  }

  /** One run of `/submit`: the calls attempted, the response, and the
      record written to the store, if any. */
  datatype SubmitRun = SubmitRun(effects: seq<Effect>, response: SubmitResponse, stored: Option<Dict>)

  /** `/submit` for a request body, the classifier's result `ai` and the id
      the store hands out next: each step either fails, which ends the run
      with an error response, or leads to the next. */
  function Submit(request: Result<Value>, env: SubmitEnv, ai: Result<Value>, id: nat): (run: SubmitRun)
    ensures run.response.Success? ==> env.publish.Ok? && run.response == Success(env.publish.value, id) && run.stored.Some?
    ensures run.stored.Some? <==> |run.effects| == 4
  {
    if request.Raise? then SubmitRun([], Error(request.exc), None)
    else match Description(request.value)
      case Raise(e) => SubmitRun([], Error(e), None)
      case Ok(description) =>
        var classify := [CallModel(description)];
        if ai.Raise? then SubmitRun(classify, Error(ai.exc), None)
        else if !ai.value.VDict? then SubmitRun(classify, Error(TypeError), None)
        else
          var incident := request.value.fields;
          var published := PublishedRecord(incident, ai.value.fields, env.now);
          var stored := StoredRecord(incident, ai.value.fields);
          var publish := classify + [Publish(published)];
          if env.publish.Raise? then SubmitRun(publish, Error(env.publish.exc), None)
          else
            var write := publish + [WriteIncident(id, stored)];
            if env.write.Failed? then SubmitRun(write, Error(env.write.exc), None)
            else
              var response := if env.emit.Failed? then Error(env.emit.exc) else Success(env.publish.value, id);
              SubmitRun(write + [Emit("new_incident", VDict(published))], response, Some(stored))
  }

  /** The place of each kind of call in `/submit`. */
  function SubmitStep(e: Effect): nat {
    match e
    case CallModel(_) => 0
    case Publish(_) => 1
    case WriteIncident(_, _) => 2
    case Emit(_, _) => 3
    case _ => 4
  }

  /** The published and the stored record are the request merged with the
      classifier's object, the classifier winning, plus `timestamp`; they
      differ only in the timestamp, the clock's text in one and the store's
      placeholder in the other. */
  lemma PublishedAndStoredRecords(incident: Dict, ai: Dict, now: string)
    ensures var published := PublishedRecord(incident, ai, now);
      var stored := StoredRecord(incident, ai);
      && published.Keys == stored.Keys == incident.Keys + ai.Keys + {"timestamp"}
      && published["timestamp"] == VStr(now) && stored["timestamp"] == ServerTimestamp
      && (forall k :: k in ai && k != "timestamp" ==> published[k] == stored[k] == ai[k])
      && (forall k :: k in incident && k !in ai && k != "timestamp" ==> published[k] == stored[k] == incident[k])
  {
  }

  /** A submission succeeds exactly when every step does; it then makes the
      calls classify, publish, write, broadcast, in that order, answers with
      the broker's message id and the new document's id, and stores the
      merged record. */
  lemma SubmitSucceeds(request: Result<Value>, env: SubmitEnv, ai: Result<Value>, id: nat)
    ensures Submit(request, env, ai, id).response.Success? <==>
      && request.Ok? && Description(request.value).Ok?
      && ai.Ok? && ai.value.VDict?
      && env.publish.Ok? && env.write.Done? && env.emit.Done?
    ensures var run := Submit(request, env, ai, id);
      run.response.Success? ==>
        var published := PublishedRecord(request.value.fields, ai.value.fields, env.now);
        var stored := StoredRecord(request.value.fields, ai.value.fields);
        && run.effects == [CallModel(request.value.fields["description"]), Publish(published),
                           WriteIncident(id, stored), Emit("new_incident", VDict(published))]
        && run.response == Success(env.publish.value, id)
        && StatusCode(run.response) == 200
        && run.stored == Some(stored)
  {
  }

  /** Every failure answers 500 with the error raised.  A request that cannot
      be read, has no description, or whose classification or publish fails
      stores nothing and broadcasts nothing; a failed write comes after the
      message was published and broadcasts nothing; a failed broadcast comes
      after the record was stored. */
  lemma SubmitFails(request: Result<Value>, env: SubmitEnv, ai: Result<Value>, id: nat)
    ensures var run := Submit(request, env, ai, id);
      && (run.response.Error? <==> StatusCode(run.response) == 500)
      && (run.stored.Some? <==> exists e :: e in run.effects && e.Emit?)
      && (run.stored.Some? ==> WriteIncident(id, run.stored.value) in run.effects)
    ensures var run := Submit(request, env, ai, id);
      (request.Raise? || Description(request.value).Raise? || ai.Raise? || !ai.value.VDict? || env.publish.Raise?) ==>
        && run.response.Error?
        && run.stored.None?
        && (forall e :: e in run.effects ==> !e.WriteIncident? && !e.Emit?)
    ensures var run := Submit(request, env, ai, id);
      (request.Ok? && Description(request.value).Ok? && ai.Ok? && ai.value.VDict? && env.publish.Ok? && env.write.Failed?) ==>
        && run.response == Error(env.write.exc)
        && run.stored.None?
        && (exists e :: e in run.effects && e.Publish?)
        && (forall e :: e in run.effects ==> !e.Emit?)
    ensures var run := Submit(request, env, ai, id);
      (request.Ok? && Description(request.value).Ok? && ai.Ok? && ai.value.VDict? && env.publish.Ok? && env.write.Done? && env.emit.Failed?) ==>
        run.response == Error(env.emit.exc) && run.stored.Some?
  {
    var run := Submit(request, env, ai, id);
    if run.stored.Some? {
      assert run.effects[3].Emit?;
    } else if |run.effects| >= 2 {
      assert run.effects[1].Publish?;
    }
  }

  /** The calls of a submission are a prefix of classify, publish, write,
      broadcast: each at most once, in that order, and nothing else; the
      store is never written before the message is published. */
  lemma SubmitEffectsOrder(request: Result<Value>, env: SubmitEnv, ai: Result<Value>, id: nat)
    ensures var effects := Submit(request, env, ai, id).effects;
      && |effects| <= 4
      && (forall i :: 0 <= i < |effects| ==> SubmitStep(effects[i]) == i)
  {
    var effects := Submit(request, env, ai, id).effects;
    if request.Ok? && Description(request.value).Ok? {
      var c := CallModel(Description(request.value).value);
      if ai.Ok? && ai.value.VDict? {
        var incident, fields := request.value.fields, ai.value.fields;
        var p := Publish(PublishedRecord(incident, fields, env.now));
        var w := WriteIncident(id, StoredRecord(incident, fields));
        var e := Emit("new_incident", VDict(PublishedRecord(incident, fields, env.now)));
        var n := if env.publish.Raise? then 2 else if env.write.Failed? then 3 else 4;
        assert effects == [c, p, w, e][..n];
        StepsInOrder(c, p, w, e, n);
      } else {
        assert effects == [c];
        StepsInOrder(c, Ack, Ack, Ack, 1);
      }
    } else {
      assert effects == [];
    }
  }

  lemma StepsInOrder(c: Effect, p: Effect, w: Effect, e: Effect, n: nat)
    requires c.CallModel? && n <= 4
    requires n >= 2 ==> p.Publish?
    requires n >= 3 ==> w.WriteIncident?
    requires n >= 4 ==> e.Emit?
    ensures forall i :: 0 <= i < n ==> SubmitStep([c, p, w, e][..n][i]) == i
  {
  }

  // ---- the subscriber's callback ----

  /** The calls the message handler makes for a payload that decodes to
      `decoded` (None when it is not UTF-8 JSON) when the broadcast has
      outcome `emit`. */
  function CallbackEffects(decoded: Option<Value>, emit: Outcome): (effects: seq<Effect>)
    ensures |effects| == if decoded.Some? then 2 else 1
    ensures effects[|effects| - 1] == Ack <==> decoded.Some? && emit.Done?
  {
    match decoded
    case None => [LogError(DecodeError)]
    case Some(data) =>
      if emit.Failed? then [Emit("new_incident", data), LogError(emit.exc)]
      else [Emit("new_incident", data), Ack]
  }

  /** The message is acknowledged exactly when it decodes and its broadcast
      succeeds, and then as the last call, after the broadcast; otherwise the
      error is logged instead, and a message that does not decode is not
      broadcast. */
  lemma CallbackAcksOnlyOnSuccess(decoded: Option<Value>, emit: Outcome)
    ensures var effects := CallbackEffects(decoded, emit);
      && (Ack in effects <==> decoded.Some? && emit.Done?)
      && (Ack in effects ==> effects == [Emit("new_incident", decoded.value), Ack])
      && ((exists e :: e in effects && e.LogError?) <==> Ack !in effects)
      && ((exists e :: e in effects && e.Emit?) <==> decoded.Some?)
  {
    var effects := CallbackEffects(decoded, emit);
    if decoded.Some? {
      assert effects[0].Emit?;
    } else {
      assert effects[0].LogError?;
    }
    if Ack !in effects {
      assert effects[|effects| - 1].LogError?;
    }
  }

  // ---- /register ----

  /** The fields of the registration form this route reads. */
  datatype RegisterForm = RegisterForm(name: string, username: string, mail: string,
                                       password: string, confirmPassword: string)

  /** The page `/register` answers a POST with: the form again, with one
      error flag set and the entered name, username and e-mail, or a
      redirect to the login page. */
  datatype RegisterPage =
    | ShowForm(passError: bool, userError: bool, name: string, username: string, mail: string)
    | RedirectToLogin

  // ---- /logout ----

  /** `session.pop("user", None)`. */
  function WithoutUser(session: map<string, Value>): (r: map<string, Value>)
    ensures "user" !in r
    ensures forall k :: k != "user" ==> (k in r <==> k in session)
    ensures forall k :: k in r ==> r[k] == session[k]
  {
    session - {"user"}
  }

  /** Logging out twice is logging out once, and a session without a user
      is left as it is. */
  lemma LogoutIdempotent(session: map<string, Value>)
    ensures WithoutUser(WithoutUser(session)) == WithoutUser(session)
    ensures "user" !in session ==> WithoutUser(session) == session
  {
  }

  // ---- /history ----

  /** The documents of the history query's ids, in its order, are at most
      ten distinct timed incidents, newest first, and a timed incident is
      left out only when ten are returned and it is no newer than any
      returned. */
  lemma HistoryOfIds(docs: map<nat, Dict>, n: nat, ids: seq<nat>, history: seq<Dict>)
    requires forall id :: id in docs ==> id < n
    requires ids == Recent(docs, n, 10)
    requires |history| == |ids| && forall i :: 0 <= i < |ids| ==> ids[i] in docs && history[i] == docs[ids[i]]
    ensures |history| <= 10
    ensures forall i, j :: 0 <= i < j < |ids| ==> ids[i] != ids[j]
    ensures forall i :: 0 <= i < |history| ==> TimeOf(history[i]).Some?
    ensures forall i, j :: 0 <= i < j < |history| ==> TimeOf(history[i]).value >= TimeOf(history[j]).value
    ensures forall id :: id in docs && TimeOf(docs[id]).Some? && id !in ids ==>
      |history| == 10 && forall i :: 0 <= i < |history| ==> TimeOf(docs[id]).value <= TimeOf(history[i]).value
  {
    RecentSpec(docs, n, 10);
    forall i | 0 <= i < |history| ensures TimeOf(history[i]).Some? {
      assert Timed(docs, ids[i]);
    }
    forall i, j | 0 <= i < j < |history|
      ensures TimeOf(history[i]).value >= TimeOf(history[j]).value
    {
      assert Time(docs, ids[i]) >= Time(docs, ids[j]);
    }
    forall id | id in docs && TimeOf(docs[id]).Some? && id !in ids
      ensures |history| == 10 && forall i :: 0 <= i < |history| ==> TimeOf(docs[id]).value <= TimeOf(history[i]).value
    {
      assert Timed(docs, id);
      forall i | 0 <= i < |history| ensures TimeOf(docs[id]).value <= TimeOf(history[i]).value {
        assert Timed(docs, ids[i]);
        assert Time(docs, id) <= Time(docs, ids[i]);
      }
    }
  }

  /** The module's shared state: the two store collections, the session of
      the current request, and the trace of foreign calls. */
  class App {
    const incidents: IncidentStore
    const users: UserStore
    var session: map<string, Value>
    var trace: seq<Effect>

    constructor (incidents: IncidentStore, users: UserStore)
      ensures this.incidents == incidents && this.users == users
      ensures session == map[] && trace == []
    {
      this.incidents := incidents;
      this.users := users;
      session := map[];
      trace := [];
    }

    /** `submit_report`: the calls are appended to the trace, the store gains
        the stored record under the next id when the run reaches a
        successful write, and the response is the run's. */
    method SubmitReport(request: Result<Value>, env: SubmitEnv) returns (response: SubmitResponse)
      requires incidents.Valid()
      modifies this, incidents
      ensures incidents.Valid()
      ensures session == old(session)
      ensures var run := Submit(request, env, Classification(request, env), old(incidents.nextId));
        && trace == old(trace) + run.effects
        && response == run.response
        && incidents.docs == (if run.stored.Some?
                              then old(incidents.docs)[old(incidents.nextId) := ResolveServerTimestamps(run.stored.value, env.commitTime)]
                              else old(incidents.docs))
        && (run.stored.Some? ==> old(incidents.nextId) !in old(incidents.docs))
    {
      if request.Raise? {
        response := Error(request.exc);
        return;
      }
      var description := Description(request.value);
      if description.Raise? {
        response := Error(description.exc);
        return;
      }
      var calls := [CallModel(description.value)];
      var ai := Classification(request, env);
      if ai.Raise? || !ai.value.VDict? {
        trace := trace + calls;
        response := if ai.Raise? then Error(ai.exc) else Error(TypeError);
        return;
      }
      var incident := request.value.fields;
      var published := PublishedRecord(incident, ai.value.fields, env.now);
      var stored := StoredRecord(incident, ai.value.fields);
      calls := calls + [Publish(published)];
      if env.publish.Raise? {
        trace := trace + calls;
        response := Error(env.publish.exc);
        return;
      }
      calls := calls + [WriteIncident(incidents.nextId, stored)];
      if env.write.Done? {
        calls := calls + [Emit("new_incident", VDict(published))];
      }
      assert Submit(request, env, ai, incidents.nextId).effects == calls;
      trace := trace + calls;
      var saved := incidents.Save(stored, env.write, env.commitTime);
      if saved.Raise? {
        response := Error(saved.exc);
        return;
      }
      response := if env.emit.Failed? then Error(env.emit.exc) else Success(env.publish.value, saved.value);
    }

    /** `callback`: the handler's calls for one message are appended to the
        trace. */
    method Callback(data: seq<bv8>, decode: seq<bv8> -> Option<Value>, emit: Outcome)
      modifies this
      ensures trace == old(trace) + CallbackEffects(decode(data), emit)
      ensures session == old(session)
    {
      var decoded := decode(data);
      if decoded.None? {
        trace := trace + [LogError(DecodeError)];
        return;
      }
      var calls := [Emit("new_incident", decoded.value)];
      if emit.Failed? {
        calls := calls + [LogError(emit.exc)];
      } else {
        calls := calls + [Ack];
      }
      trace := trace + calls;
    }

    /** `register` on POST: a password mismatch is reported before the
        username is looked up; an existing username is reported next; only
        then is exactly one user document written, under the username,
        holding the hashed password and no phone, and the answer is a
        redirect to the login page. */
    method Register(form: RegisterForm, hash: string -> string, now: int) returns (page: RegisterPage)
      modifies users
      ensures form.password != form.confirmPassword ==>
        page == ShowForm(true, false, form.name, form.username, form.mail) && users.users == old(users.users)
      ensures form.password == form.confirmPassword && form.username in old(users.users) ==>
        page == ShowForm(false, true, form.name, form.username, form.mail) && users.users == old(users.users)
      ensures form.password == form.confirmPassword && form.username !in old(users.users) ==>
        && page == RedirectToLogin
        && users.users == old(users.users)[form.username := User(form.name, form.username, form.mail, None,
                                                                 hash(form.password), now)]
    {
      if form.password != form.confirmPassword {
        return ShowForm(true, false, form.name, form.username, form.mail);
      }
      if users.GetUserByUsername(form.username).Some? {
        return ShowForm(false, true, form.name, form.username, form.mail);
      }
      users.SaveUser(User(form.name, form.username, form.mail, None, hash(form.password), now));
      page := RedirectToLogin;
    }

    /** `get_history`: the stored incidents `ids` names, at most ten, each
        at most once, all with a time, newest first; a timed incident is
        left out only when ten are returned, and none left out is newer
        than one returned. */
    method GetHistory() returns (history: seq<Dict>, ghost ids: seq<nat>)
      requires incidents.Valid()
      ensures |history| == |ids| <= 10
      ensures forall i :: 0 <= i < |ids| ==> ids[i] in incidents.docs && history[i] == incidents.docs[ids[i]]
      ensures forall i, j :: 0 <= i < j < |ids| ==> ids[i] != ids[j]
      ensures forall i :: 0 <= i < |history| ==> TimeOf(history[i]).Some?
      ensures forall i, j :: 0 <= i < j < |history| ==> TimeOf(history[i]).value >= TimeOf(history[j]).value
      ensures forall id :: id in incidents.docs && TimeOf(incidents.docs[id]).Some? && id !in ids ==>
        |history| == 10 && forall i :: 0 <= i < |history| ==> TimeOf(incidents.docs[id]).value <= TimeOf(history[i]).value
    {
      var docs := incidents.docs;
      var recent := Recent(docs, incidents.nextId, 10);
      RecentSpec(docs, incidents.nextId, 10);
      history := seq(|recent|, i requires 0 <= i < |recent| => docs[recent[i]]);
      ids := recent;
      HistoryOfIds(docs, incidents.nextId, ids, history);
    }

    /** `logout`: only the session's `user` entry is removed. */
    method Logout()
      modifies this
      ensures session == WithoutUser(old(session))
      ensures trace == old(trace)
    {
      session := WithoutUser(session);
    }
  }
}
