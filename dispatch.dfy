/** Tool dispatch policy of the conversation loop: tool calls are split by
    the `music_assistant` prefix; a music call has its service name taken
    from the tool name, its `entity_id` replaced by a target, its
    arguments cut down to a per-service allow-list and is then run through
    the host's service registry; a standard call goes to the host's tool
    executor. Every call yields exactly one tool-result entry. */
module ToolDispatch {
  import opened Wrappers
  import opened Json
  import opened MessageCodec

  /** What an executor gave back: a value, or the text of the exception it raised. */
  datatype Outcome = Returned(value: Json) | Raised(message: string)

  /** One call into the host's service registry. */
  datatype ServiceCall = ServiceCall(
    domain: string,
    service: string,
    data: map<string, Json>,
    target: Option<Json>,
    returnResponse: bool)

  // ---------------------------------------------------------------------------
  // Splitting by prefix

  const MusicDomain := "music_assistant"

  predicate IsMusicTool(c: ToolCall) {
    MusicDomain <= c.toolName
  }

  /** The music calls, in their original order. */
  function MusicCalls(calls: seq<ToolCall>): (r: seq<ToolCall>)
    ensures forall i :: 0 <= i < |r| ==> IsMusicTool(r[i])
    ensures |r| <= |calls|
  {
    if calls == [] then []
    else MusicCalls(calls[..|calls| - 1]) + (if IsMusicTool(calls[|calls| - 1]) then [calls[|calls| - 1]] else [])
  }

  /** The other calls, in their original order. */
  function StandardCalls(calls: seq<ToolCall>): (r: seq<ToolCall>)
    ensures forall i :: 0 <= i < |r| ==> !IsMusicTool(r[i])
    ensures |r| <= |calls|
  {
    if calls == [] then []
    else StandardCalls(calls[..|calls| - 1]) + (if IsMusicTool(calls[|calls| - 1]) then [] else [calls[|calls| - 1]])
  }

  /** Both groups take their calls in order: splitting a concatenation
      splits each part. */
  lemma {:induction false} SplitAppend(a: seq<ToolCall>, b: seq<ToolCall>)
    ensures MusicCalls(a + b) == MusicCalls(a) + MusicCalls(b)
    ensures StandardCalls(a + b) == StandardCalls(a) + StandardCalls(b)
  {
    if b == [] {
      assert a + b == a;
    } else {
      assert (a + b)[..|a + b| - 1] == a + b[..|b| - 1];
      SplitAppend(a, b[..|b| - 1]);
    }
  }

  /** Every call lands in exactly one group, so the two groups together are
      a rearrangement of the calls; a non-empty call list always has a
      non-empty group. */
  lemma {:induction false} SplitPartition(calls: seq<ToolCall>)
    ensures multiset(MusicCalls(calls)) + multiset(StandardCalls(calls)) == multiset(calls)
    ensures |MusicCalls(calls)| + |StandardCalls(calls)| == |calls|
  {
    if calls != [] {
      var init, last := calls[..|calls| - 1], calls[|calls| - 1];
      SplitPartition(init);
      assert calls == init + [last];
      if IsMusicTool(last) {
        assert MusicCalls(calls) == MusicCalls(init) + [last];
        assert StandardCalls(calls) == StandardCalls(init);
      } else {
        assert MusicCalls(calls) == MusicCalls(init);
        assert StandardCalls(calls) == StandardCalls(init) + [last];
      }
    }
  }

  /** A list of music calls only is kept whole. */
  lemma {:induction false} AllMusicKept(calls: seq<ToolCall>)
    requires forall i :: 0 <= i < |calls| ==> IsMusicTool(calls[i])
    ensures MusicCalls(calls) == calls
    ensures StandardCalls(calls) == []
  {
    if calls != [] {
      AllMusicKept(calls[..|calls| - 1]);
    }
  }

  // ---------------------------------------------------------------------------
  // `tool_name.split(".")[1]`

  /** `str.split(".")`. */
  function SplitDot(s: string): (parts: seq<string>)
    ensures |parts| >= 1
    ensures forall i :: 0 <= i < |parts| ==> '.' !in parts[i]
  {
    if s == [] then [""]
    else if s[0] == '.' then [""] + SplitDot(s[1..])
    else
      var rest := SplitDot(s[1..]);
      [[s[0]] + rest[0]] + rest[1..]
  }

  /** `".".join(parts)` */
  function JoinDot(parts: seq<string>): string
    requires |parts| >= 1
  {
    if |parts| == 1 then parts[0] else parts[0] + "." + JoinDot(parts[1..])
  }

  /** Splitting loses nothing: joining the parts gives the name back. */
  lemma {:induction false} SplitJoin(s: string)
    ensures JoinDot(SplitDot(s)) == s
  {
    if s != [] {
      SplitJoin(s[1..]);
      var rest := SplitDot(s[1..]);
      if s[0] == '.' {
        assert SplitDot(s)[1..] == rest;
        assert s == "" + "." + s[1..];
      } else {
        var parts := SplitDot(s);
        if |rest| == 1 {
          assert parts == [[s[0]] + rest[0]];
        } else {
          assert parts[1..] == rest[1..];
          assert JoinDot(rest) == rest[0] + "." + JoinDot(rest[1..]);
        }
      }
    }
  }

  /** The service name: the second dot-separated part of the tool name;
      `IndexError` when there is no dot. */
  function ServiceOf(toolName: string): (r: Result<string, string>)
    ensures r.Failure? <==> '.' !in toolName
    ensures r.Failure? ==> r.error == "list index out of range"
  {
    SplitJoin(toolName);
    var parts := SplitDot(toolName);
    if |parts| > 1 then Success(parts[1]) else Failure("list index out of range")
  }

  lemma {:induction false} SplitNoDot(s: string)
    requires '.' !in s
    ensures SplitDot(s) == [s]
  {
    if s != [] {
      SplitNoDot(s[1..]);
      assert [s[0]] + s[1..] == s;
    }
  }

  lemma {:induction false} SplitAtDot(p: string, s: string)
    requires '.' !in p
    ensures SplitDot(p + "." + s) == [p] + SplitDot(s)
  {
    if p == [] {
      assert p + "." + s == "." + s;
      assert ("." + s)[1..] == s;
    } else {
      SplitAtDot(p[1..], s);
      var t := p + "." + s;
      assert t[0] == p[0] && t[1..] == p[1..] + "." + s;
      assert [p[0]] + p[1..] == p;
    }
  }

  /** The part after the first dot, up to the next dot, names the service. */
  lemma ServiceAfterDot(p: string, service: string, rest: string)
    requires '.' !in p && '.' !in service
    requires rest == [] || rest[0] == '.'
    ensures ServiceOf(p + "." + service + rest) == Success(service)
  {
    assert p + "." + service + rest == p + "." + (service + rest);
    SplitAtDot(p, service + rest);
    if rest == [] {
      assert service + rest == service;
      SplitNoDot(service);
    } else {
      assert service + rest == service + "." + rest[1..];
      SplitAtDot(service, rest[1..]);
    }
  }

  /** `dict(tool_args)`: an object is copied; an empty array or string
      gives an empty dictionary; any other value raises. */
  function ToDict(v: Json): (r: Result<map<string, Json>, string>)
    ensures v.JObj? ==> r == Success(v.fields)
    ensures r.Success? ==> v.JObj? || r.value == map[]
  {
    match v
    case JObj(m) => Success(m)
    case JArr(items) => if items == [] then Success(map[]) else Failure("dictionary update sequence element #0 is not a key/value pair")
    case JStr(s) => if s == "" then Success(map[]) else Failure("dictionary update sequence element #0 has length 1; 2 is required")
    case JNull => Failure("'NoneType' object is not iterable")
    case JBool(_) => Failure("'bool' object is not iterable")
    case JNum(_) => Failure("'int' object is not iterable")
  }

  // ---------------------------------------------------------------------------
  // Allow-lists

  const PlayMediaKeys: set<string> := {"media_id", "media_type"}
  const SearchKeys: set<string> := {"name", "limit", "media_type", "artist"}
  const LibraryKeys: set<string> := {"media_type", "limit", "offset", "order_by"}
  const EntryKey := "config_entry_id"
  const EntityKey := "entity_id"

  /** The keys a service may receive; `None` for a service with no list. */
  function AllowedKeys(service: string, configured: bool): Option<set<string>> {
    if service == "play_media" then Some(PlayMediaKeys)
    else if service == "search" then Some(SearchKeys + (if configured then {EntryKey} else {}))
    else if service == "get_library" then Some(LibraryKeys + (if configured then {EntryKey} else {}))
    else None
  }

  function Restrict(args: map<string, Json>, keys: set<string>): (r: map<string, Json>)
    ensures r.Keys == args.Keys * keys
    ensures forall k :: k in r ==> r[k] == args[k]
  {
    map k | k in args && k in keys :: args[k]
  }

  /** A music call ready to run: its service, arguments and target player. */
  datatype Prepared = Prepared(service: string, data: map<string, Json>, target: Json)

  /** Service name, `dict()`, `pop("entity_id", VOICE_BOX)`, the added
      `config_entry_id` and the allow-list, in the order the loop applies
      them; the error is the text of the exception raised on the way. */
  function PrepareMusicCall(call: ToolCall, voiceBox: string, maEntry: Option<string>): (r: Result<Prepared, string>)
    ensures r.Failure? <==> ServiceOf(call.toolName).Failure? || ToDict(call.toolArgs).Failure?
    ensures r.Success? ==> r.value.service == ServiceOf(call.toolName).value && EntityKey !in r.value.data
  {
    match ServiceOf(call.toolName)
    case Failure(e) => Failure(e)
    case Success(service) =>
      match ToDict(call.toolArgs)
      case Failure(e) => Failure(e)
      case Success(args) =>
        var eid := if EntityKey in args then args[EntityKey] else JStr(voiceBox);
        var popped := args - {EntityKey};
        var withEntry := if NonEmpty(maEntry) && service in {"search", "get_library"} then popped[EntryKey := JStr(maEntry.value)] else popped;
        var data := match AllowedKeys(service, NonEmpty(maEntry))
                    case Some(keys) => Restrict(withEntry, keys)
                    case None => withEntry;
        Success(Prepared(service, data, eid))
  }

  /** The argument policy: the target is the call's `entity_id`, else the
      configured player; each allow-listed service receives exactly its
      allowed keys among the call's own, unchanged, plus `config_entry_id`
      for search and library calls when one is configured; other services
      receive every argument but `entity_id`. */
  lemma MusicPolicy(call: ToolCall, voiceBox: string, maEntry: Option<string>)
    requires call.toolArgs.JObj? && '.' in call.toolName
    ensures var args := call.toolArgs.fields;
      var p := PrepareMusicCall(call, voiceBox, maEntry).value;
      && p.target == (if EntityKey in args then args[EntityKey] else JStr(voiceBox))
      && (p.service == "play_media" ==> p.data == Restrict(args, PlayMediaKeys))
      && (p.service == "search" ==> p.data.Keys == args.Keys * SearchKeys + (if NonEmpty(maEntry) then {EntryKey} else {}))
      && (p.service == "get_library" ==> p.data.Keys == args.Keys * LibraryKeys + (if NonEmpty(maEntry) then {EntryKey} else {}))
      && (p.service in {"search", "get_library"} && NonEmpty(maEntry) ==> p.data[EntryKey] == JStr(maEntry.value))
      && (p.service in {"search", "get_library"} ==> forall k :: k in p.data && k != EntryKey ==> p.data[k] == args[k])
      && (p.service !in {"play_media", "search", "get_library"} ==> p.data == args - {EntityKey})
  {
  }

  // ---------------------------------------------------------------------------
  // Results

  /** `{"error": message}`: an object whose only key is `error`, holding the message. */
  function ErrorResult(message: string): (r: Json)
    ensures r.JObj? && r.fields.Keys == {"error"} && r.fields["error"] == JStr(message)
    ensures Truthy(r)
  {
    assert "error" in map["error" := JStr(message)];
    JObj(map["error" := JStr(message)])
  }

  const PlaybackStarted: Json := JObj(map["status" := JStr("success"), "message" := JStr("Playback started")])
  const StatusSuccess: Json := JObj(map["status" := JStr("success")])

  /** The service call a prepared music call makes: `play_media` is targeted
      at the player and asks for no response; every other service asks for
      one and has no target. */
  function ServiceCallOf(p: Prepared): ServiceCall {
    if p.service == "play_media" then ServiceCall(MusicDomain, p.service, p.data, Some(p.target), false)
    else ServiceCall(MusicDomain, p.service, p.data, None, true)
  }

  /** The tool result of a music call. */
  function MusicResult(call: ToolCall, voiceBox: string, maEntry: Option<string>, services: ServiceCall -> Outcome): (r: Json)
    ensures Truthy(r)
  {
    match PrepareMusicCall(call, voiceBox, maEntry)
    case Failure(e) => ErrorResult(e)
    case Success(p) =>
      match services(ServiceCallOf(p))
      case Raised(e) => ErrorResult(e)
      case Returned(v) =>
        if p.service == "play_media" then (assert "status" in PlaybackStarted.fields; PlaybackStarted)
        else if Truthy(v) then v else (assert "status" in StatusSuccess.fields; StatusSuccess)
  }

  /** The tool result of a standard call: what the executor returned, or the error. */
  function StandardResult(call: ToolCall, callTool: ToolCall -> Outcome): Json {
    match callTool(call)
    case Returned(v) => v
    case Raised(e) => ErrorResult(e)
  }

  /** The entry appended for a call and its result. */
  function ResultEntry(call: ToolCall, result: Json): (e: Content)
    ensures e.ToolResultContent? && e.toolCallId == call.id && e.toolName == call.toolName
  {
    ToolResultContent(call.id, call.toolName, result)
  }

  /** The results of running the music calls, one per call, in order. */
  function MusicEntries(calls: seq<ToolCall>, voiceBox: string, maEntry: Option<string>, services: ServiceCall -> Outcome): (r: seq<Content>)
    ensures |r| == |calls|
  {
    if calls == [] then []
    else MusicEntries(calls[..|calls| - 1], voiceBox, maEntry, services)
         + [ResultEntry(calls[|calls| - 1], MusicResult(calls[|calls| - 1], voiceBox, maEntry, services))]
  }

  /** The results of running the standard calls, one per call, in order. */
  function StandardEntries(calls: seq<ToolCall>, callTool: ToolCall -> Outcome): (r: seq<Content>)
    ensures |r| == |calls|
  {
    if calls == [] then []
    else StandardEntries(calls[..|calls| - 1], callTool) + [ResultEntry(calls[|calls| - 1], StandardResult(calls[|calls| - 1], callTool))]
  }

  /** The i-th music result belongs to the i-th music call. */
  lemma {:induction false} MusicEntriesInOrder(calls: seq<ToolCall>, voiceBox: string, maEntry: Option<string>, services: ServiceCall -> Outcome)
    ensures forall i :: 0 <= i < |calls| ==>
      MusicEntries(calls, voiceBox, maEntry, services)[i] == ResultEntry(calls[i], MusicResult(calls[i], voiceBox, maEntry, services))
  {
    if calls != [] {
      MusicEntriesInOrder(calls[..|calls| - 1], voiceBox, maEntry, services);
    }
  }

  /** The i-th standard result belongs to the i-th standard call. */
  lemma {:induction false} StandardEntriesInOrder(calls: seq<ToolCall>, callTool: ToolCall -> Outcome)
    ensures forall i :: 0 <= i < |calls| ==>
      StandardEntries(calls, callTool)[i] == ResultEntry(calls[i], StandardResult(calls[i], callTool))
  {
    if calls != [] {
      StandardEntriesInOrder(calls[..|calls| - 1], callTool);
    }
  }

  /** The result policy: a call that cannot be prepared, or whose service
      raises, gets the error; `play_media` gets the fixed success result
      whatever the service returns; any other service's response is passed
      on, an empty one replaced by `{"status": "success"}`; a standard
      call gets the executor's value or its error. */
  lemma ResultPolicy(call: ToolCall, voiceBox: string, maEntry: Option<string>, services: ServiceCall -> Outcome, callTool: ToolCall -> Outcome)
    ensures var prep := PrepareMusicCall(call, voiceBox, maEntry);
      var r := MusicResult(call, voiceBox, maEntry, services);
      && (prep.Failure? ==> r == ErrorResult(prep.error))
      && (prep.Success? ==>
            var out := services(ServiceCallOf(prep.value));
            && (out.Raised? ==> r == ErrorResult(out.message))
            && (out.Returned? && prep.value.service == "play_media" ==> r == PlaybackStarted)
            && (out.Returned? && prep.value.service != "play_media" ==> r == if Truthy(out.value) then out.value else StatusSuccess))
    ensures callTool(call).Raised? ==> StandardResult(call, callTool) == ErrorResult(callTool(call).message)
    ensures callTool(call).Returned? ==> StandardResult(call, callTool) == callTool(call).value
  {
  }
}
