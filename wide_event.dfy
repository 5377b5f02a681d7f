/**
 * The wide event: one structured log record per request, built up as a
 * dictionary of dotted field names while the request runs and completed with
 * the response status, the duration, an outcome and a timestamp.
 */
module WideEvents {
  import opened Wrappers

  /** A logged value: the `object?` values the request pipeline stores. */
  datatype Value = Null | Str(s: string) | Int(i: int) | Real(r: real)

  /** An exception as far as the log reads it: its type's full name, its
      message and its inner exception. */
  datatype Exception = Exception(typeName: string, message: string, inner: Option<Exception>)

  /** `data` after writing `key` when `value` is present; an absent value writes nothing. */
  function WriteIfPresent(data: map<string, Value>, key: string, value: Option<string>): (r: map<string, Value>)
    ensures key in r <==> key in data || value.Some?
    ensures value.Some? ==> r[key] == Str(value.value)
    ensures value.None? ==> r == data
    ensures forall k :: k != key ==> (k in r <==> k in data) && (k in r ==> r[k] == data[k])
  {
    match value
    case Some(v) => data[key := Str(v)]
    case None => data
  }

  /** The dictionary after `SetRequestContext`. */
  function WithRequest(data: map<string, Value>, httpMethod: string, path: string, requestId: string,
                       userAgent: Option<string>, clientIp: Option<string>): (r: map<string, Value>)
    ensures RequestKeys <= r.Keys
    ensures userAgent.Some? ==> "request.user_agent" in r
    ensures clientIp.Some? ==> "request.client_ip" in r
    ensures r["request.method"] == Str(httpMethod) && r["request.path"] == Str(path) && r["request.id"] == Str(requestId)
    ensures userAgent.Some? ==> r["request.user_agent"] == Str(userAgent.value)
    ensures clientIp.Some? ==> r["request.client_ip"] == Str(clientIp.value)
    ensures forall k :: k !in RequestKeys && (k != "request.user_agent" || userAgent.None?)
                          && (k != "request.client_ip" || clientIp.None?) ==>
              (k in r <==> k in data) && (k in r ==> r[k] == data[k])
  {
    var d := data["request.method" := Str(httpMethod)]["request.path" := Str(path)]["request.id" := Str(requestId)];
    WriteIfPresent(WriteIfPresent(d, "request.user_agent", userAgent), "request.client_ip", clientIp)
  }

  /** The keys `SetRequestContext` always writes. */
  const RequestKeys: set<string> := {"request.method", "request.path", "request.id"}

  /** The dictionary after `SetUserContext`: only the fields given are written. */
  function WithUser(data: map<string, Value>, userId: Option<string>, username: Option<string>, email: Option<string>): (r: map<string, Value>)
    ensures userId.Some? ==> "user.id" in r && r["user.id"] == Str(userId.value)
    ensures username.Some? ==> "user.username" in r && r["user.username"] == Str(username.value)
    ensures email.Some? ==> "user.email" in r && r["user.email"] == Str(email.value)
    ensures forall k :: (k != "user.id" || userId.None?) && (k != "user.username" || username.None?)
                          && (k != "user.email" || email.None?) ==>
              (k in r <==> k in data) && (k in r ==> r[k] == data[k])
  {
    WriteIfPresent(WriteIfPresent(WriteIfPresent(data, "user.id", userId), "user.username", username), "user.email", email)
  }

  /** `$"{type.FullName}: {message}"` of an inner exception. */
  function InnerDescription(inner: Exception): string {
    inner.typeName + ": " + inner.message
  }

  /** The dictionary after `SetErrorContext(Exception)`. */
  function WithError(data: map<string, Value>, ex: Exception): (r: map<string, Value>)
    ensures "error.type" in r && r["error.type"] == Str(ex.typeName)
    ensures "error.message" in r && r["error.message"] == Str(ex.message)
    ensures ex.inner.Some? ==> "error.inner_exception" in r && r["error.inner_exception"] == Str(InnerDescription(ex.inner.value))
    ensures forall k :: k != "error.type" && k != "error.message" && (k != "error.inner_exception" || ex.inner.None?) ==>
              (k in r <==> k in data) && (k in r ==> r[k] == data[k])
  {
    var d := data["error.type" := Str(ex.typeName)]["error.message" := Str(ex.message)];
    match ex.inner
    case Some(inner) => d["error.inner_exception" := Str(InnerDescription(inner))]
    case None => d
  }

  /** The dictionary after `SetEnvironmentContext`. */
  function WithEnvironment(data: map<string, Value>, serviceName: string, version: Option<string>, environment: Option<string>): (r: map<string, Value>)
    ensures "service.name" in r && r["service.name"] == Str(serviceName)
    ensures version.Some? ==> "service.version" in r && r["service.version"] == Str(version.value)
    ensures environment.Some? ==> "service.environment" in r && r["service.environment"] == Str(environment.value)
    ensures forall k :: k != "service.name" && (k != "service.version" || version.None?)
                          && (k != "service.environment" || environment.None?) ==>
              (k in r <==> k in data) && (k in r ==> r[k] == data[k])
  {
    WriteIfPresent(WriteIfPresent(data["service.name" := Str(serviceName)], "service.version", version),
                   "service.environment", environment)
  }

  /** The outcome of a request with status `statusCode`. */
  function Outcome(statusCode: int): (r: string)
    ensures r == "success" || r == "failure"
    ensures r == "success" <==> 200 <= statusCode < 400
  {
    if statusCode >= 200 && statusCode < 400 then "success" else "failure"
  }

  /** The dictionary after `Complete`; the elapsed time and the formatted clock
      reading are passed in. */
  function WithCompletion(data: map<string, Value>, statusCode: int, durationMs: real, timestamp: string): (r: map<string, Value>)
    ensures CompletionKeys <= r.Keys
    ensures r["response.status_code"] == Int(statusCode) && r["duration_ms"] == Real(durationMs)
    ensures r["outcome"] == Str(if 200 <= statusCode < 400 then "success" else "failure")
    ensures r["timestamp"] == Str(timestamp)
    ensures forall k :: k !in CompletionKeys ==> (k in r <==> k in data) && (k in r ==> r[k] == data[k])
  {
    data["response.status_code" := Int(statusCode)]["duration_ms" := Real(durationMs)]
        ["outcome" := Str(Outcome(statusCode))]["timestamp" := Str(timestamp)]
  }

  /** The keys `Complete` writes. */
  const CompletionKeys: set<string> := {"response.status_code", "duration_ms", "outcome", "timestamp"}

  /** The dictionary after writing `entries` one after the other. */
  function Assigned(data: map<string, Value>, entries: seq<(string, Value)>): map<string, Value>
    decreases |entries|
  {
    if |entries| == 0 then data
    else Assigned(data, entries[..|entries| - 1])[entries[|entries| - 1].0 := entries[|entries| - 1].1]
  }

  /** The keys of an entry list are pairwise distinct, as a dictionary's are. */
  ghost predicate DistinctKeys(entries: seq<(string, Value)>) {
    forall i, j :: 0 <= i < j < |entries| ==> entries[i].0 != entries[j].0
  }

  /** After a run of writes with distinct keys, each written key holds its
      value and every other key is as before. */
  lemma {:induction false} AssignedLookup(data: map<string, Value>, entries: seq<(string, Value)>, key: string)
    requires DistinctKeys(entries)
    ensures key in Assigned(data, entries) <==> key in data || exists i :: 0 <= i < |entries| && entries[i].0 == key
    ensures forall i :: 0 <= i < |entries| && entries[i].0 == key ==> Assigned(data, entries)[key] == entries[i].1
    ensures (forall i :: 0 <= i < |entries| ==> entries[i].0 != key) && key in data ==>
              Assigned(data, entries)[key] == data[key]
    decreases |entries|
  {
    if |entries| > 0 {
      var init := entries[..|entries| - 1];
      AssignedLookup(data, init, key);
      if exists i :: 0 <= i < |entries| && entries[i].0 == key {
        var i :| 0 <= i < |entries| && entries[i].0 == key;
        if i < |entries| - 1 {
          assert init[i] == entries[i];
        }
      }
      forall i | 0 <= i < |init| && init[i].0 == key
        ensures entries[i].0 == key
      {
      }
    }
  }

  /** The event's accumulated fields. */
  class WideEvent {
    var data: map<string, Value>

    constructor()
      ensures data == map[]
    {
      data := map[];
    }

    /** The indexer's getter: a missing key reads as null. */
    function Get(key: string): (r: Value)
      reads this
      ensures key !in data ==> r == Null
      ensures key in data ==> r == data[key]
    {
      if key in data then data[key] else Null
    }

    /** `Set` and the indexer's setter: only `key` changes. */
    method Set(key: string, value: Value)
      modifies this
      ensures data == old(data)[key := value]
      ensures Get(key) == value
      ensures forall k :: k != key ==> Get(k) == old(Get(k))
    {
      data := data[key := value];
    }

    method SetRequestContext(httpMethod: string, path: string, requestId: string,
                             userAgent: Option<string>, clientIp: Option<string>)
      modifies this
      ensures data == WithRequest(old(data), httpMethod, path, requestId, userAgent, clientIp)
    {
      data := data["request.method" := Str(httpMethod)];
      data := data["request.path" := Str(path)];
      data := data["request.id" := Str(requestId)];
      if userAgent.Some? {
        data := data["request.user_agent" := Str(userAgent.value)];
      }
      if clientIp.Some? {
        data := data["request.client_ip" := Str(clientIp.value)];
      }
    }

    method SetUserContext(userId: Option<string>, username: Option<string>, email: Option<string>)
      modifies this
      ensures data == WithUser(old(data), userId, username, email)
    {
      if userId.Some? {
        data := data["user.id" := Str(userId.value)];
      }
      if username.Some? {
        data := data["user.username" := Str(username.value)];
      }
      if email.Some? {
        data := data["user.email" := Str(email.value)];
      }
    }

    /** `SetBusinessContext`: the dictionary's entries, in enumeration order,
        each written as by `Set`. */
    method SetBusinessContext(context: seq<(string, Value)>)
      requires DistinctKeys(context)
      modifies this
      ensures data == Assigned(old(data), context)
    {
      var i := 0;
      while i < |context|
        invariant 0 <= i <= |context|
        invariant data == Assigned(old(data), context[..i])
      {
        PrefixStep(context, i);
        data := data[context[i].0 := context[i].1];
        i := i + 1;
      }
      assert context[..i] == context;
    }

    method SetErrorContext(ex: Exception)
      modifies this
      ensures data == WithError(old(data), ex)
    {
      data := data["error.type" := Str(ex.typeName)];
      data := data["error.message" := Str(ex.message)];
      if ex.inner.Some? {
        data := data["error.inner_exception" := Str(InnerDescription(ex.inner.value))];
      }
    }

    /** The `SetErrorContext(string, string)` overload. */
    method SetErrorContextOf(errorType: string, errorMessage: string)
      modifies this
      ensures data == old(data)["error.type" := Str(errorType)]["error.message" := Str(errorMessage)]
      ensures Get("error.type") == Str(errorType) && Get("error.message") == Str(errorMessage)
    {
      data := data["error.type" := Str(errorType)];
      data := data["error.message" := Str(errorMessage)];
    }

    method SetEnvironmentContext(serviceName: string, version: Option<string>, environment: Option<string>)
      modifies this
      ensures data == WithEnvironment(old(data), serviceName, version, environment)
    {
      data := data["service.name" := Str(serviceName)];
      if version.Some? {
        data := data["service.version" := Str(version.value)];
      }
      if environment.Some? {
        data := data["service.environment" := Str(environment.value)];
      }
    }

    /** `Complete`: `durationMs` is the stopwatch reading, `timestamp` the
        round-trip formatted clock. */
    method Complete(statusCode: int, durationMs: real, timestamp: string)
      modifies this
      ensures data == WithCompletion(old(data), statusCode, durationMs, timestamp)
      ensures Get("outcome") == Str("success") <==> 200 <= statusCode < 400
    {
      data := data["response.status_code" := Int(statusCode)];
      data := data["duration_ms" := Real(durationMs)];
      data := data["outcome" := Str(if statusCode >= 200 && statusCode < 400 then "success" else "failure")];
      data := data["timestamp" := Str(timestamp)];
    }
  }

  /** The business context is a run of `Set`s: starting from any event, each key
      it names ends up with its value. */
  lemma BusinessContextWrites(data: map<string, Value>, context: seq<(string, Value)>, i: int)
    requires DistinctKeys(context) && 0 <= i < |context|
    ensures context[i].0 in Assigned(data, context)
    ensures Assigned(data, context)[context[i].0] == context[i].1
  {
    AssignedLookup(data, context, context[i].0);
  }

  /** Keys the business context does not name keep their values. */
  lemma BusinessContextKeeps(data: map<string, Value>, context: seq<(string, Value)>, key: string)
    requires DistinctKeys(context) && key in data
    requires forall i :: 0 <= i < |context| ==> context[i].0 != key
    ensures key in Assigned(data, context) && Assigned(data, context)[key] == data[key]
  {
    AssignedLookup(data, context, key);
  }
}
