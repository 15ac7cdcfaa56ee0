/** The conversation loop: a bounded number of request rounds, each
    building the wire messages from the chat log with a leading system
    turn, getting one assistant turn from the API (streamed or blocking),
    and either returning it or running its tool calls and going round
    again. */
module ConversationLoop {
  import opened Wrappers
  import opened Json
  import opened ToolIds
  import opened MessageCodec
  import opened StreamDecoder
  import opened ToolDispatch

  /** A host tool: its name and description; its parameter schema is not modelled. */
  datatype HostTool = HostTool(name: string, description: Option<string>)

  /** `chat_log.llm_api`: its tools, and its `async_call_tool` when it has one. */
  datatype LlmApi = LlmApi(tools: seq<HostTool>, callTool: Option<ToolCall -> Outcome>)

  /** The host's chat log: an append-only list of entries. */
  class ChatLog {
    var content: seq<Content>
    const llmApi: Option<LlmApi>

    constructor (content: seq<Content>, llmApi: Option<LlmApi>)
      ensures this.content == content && this.llmApi == llmApi
    {
      this.content := content;
      this.llmApi := llmApi;
    }

    /** `_add_assistant_content` */
    method AddAssistantContent(c: Content)
      requires c.AssistantContent?
      modifies this
      ensures content == old(content) + [c]
    {
      content := content + [c];
    }

    /** `_add_tool_content` */
    method AddToolContent(c: Content)
      requires c.ToolResultContent?
      modifies this
      ensures content == old(content) + [c]
    {
      content := content + [c];
    }
  }

  // ---------------------------------------------------------------------------
  // The request

  /** A `{"type": "function", "function": ...}` entry of the tool list. */
  datatype ToolSpec = ToolSpec(name: string, description: string)

  datatype Request = Request(model: string, messages: seq<WireMessage>, tools: seq<ToolSpec>, stream: bool)

  const SearchTool := ToolSpec("music_assistant.search", "Suche nach Musik.")
  const PlayMediaTool := ToolSpec("music_assistant.play_media", "Spielt Musik ab.")

  function FormatTool(t: HostTool): ToolSpec {
    ToolSpec(t.name, t.description.GetOr(""))
  }

  function HostNames(api: Option<LlmApi>): set<string> {
    if api.Some? then set t | t in api.value.tools :: t.name else {}
  }

  /** Neither music tool name is among the host's tools. */
  predicate MusicToolsMissing(api: Option<LlmApi>) {
    SearchTool.name !in HostNames(api) && PlayMediaTool.name !in HostNames(api)
  }

  /** The host's tools, formatted, followed by the two music tools unless
      the host already offers either of them. */
  function ToolsFor(api: Option<LlmApi>): (r: seq<ToolSpec>)
    ensures var n := if api.Some? then |api.value.tools| else 0;
      && |r| >= n
      && (forall i :: 0 <= i < n ==> r[i] == FormatTool(api.value.tools[i]))
      && (MusicToolsMissing(api) ==> |r| == n + 2 && r[n] == SearchTool && r[n + 1] == PlayMediaTool)
      && (!MusicToolsMissing(api) ==> |r| == n)
  {
    var host := if api.Some? && |api.value.tools| > 0 then seq(|api.value.tools|, i requires 0 <= i < |api.value.tools| => FormatTool(api.value.tools[i])) else [];
    assert {SearchTool.name, PlayMediaTool.name} * HostNames(api) == {} <==> MusicToolsMissing(api) by {
      if !MusicToolsMissing(api) {
        if SearchTool.name in HostNames(api) {
          assert SearchTool.name in {SearchTool.name, PlayMediaTool.name} * HostNames(api);
        } else {
          assert PlayMediaTool.name in {SearchTool.name, PlayMediaTool.name} * HostNames(api);
        }
      }
    }
    if {SearchTool.name, PlayMediaTool.name} * HostNames(api) == {} then host + [SearchTool, PlayMediaTool] else host
  }

  /** Whatever the host offers, a search or a play-media tool is on the list. */
  lemma MusicToolOffered(api: Option<LlmApi>)
    ensures exists i :: 0 <= i < |ToolsFor(api)| && ToolsFor(api)[i].name in {SearchTool.name, PlayMediaTool.name}
  {
    var r := ToolsFor(api);
    var n := if api.Some? then |api.value.tools| else 0;
    if MusicToolsMissing(api) {
      assert r[n] == SearchTool;
    } else if SearchTool.name in HostNames(api) {
      var t :| t in api.value.tools && t.name == SearchTool.name;
      var k :| 0 <= k < |api.value.tools| && api.value.tools[k] == t;
      assert r[k] == FormatTool(t);
    } else {
      var t :| t in api.value.tools && t.name == PlayMediaTool.name;
      var k :| 0 <= k < |api.value.tools| && api.value.tools[k] == t;
      assert r[k] == FormatTool(t);
    }
  }

  /** `suffix` is the end of `s`, stated by index. */
  predicate EndsWith(s: string, suffix: string) {
    |suffix| <= |s| && forall k :: 0 <= k < |suffix| ==> s[|s| - |suffix| + k] == suffix[k]
  }

  /** The system turn: the structure prompt, when non-empty, followed by the
      player instruction. */
  function SystemPrompt(structure: Option<string>, instruction: string): (p: string)
    ensures NonEmpty(structure) ==> |p| == |structure.value| + |instruction| && structure.value <= p
    ensures EndsWith(p, instruction)
    ensures !NonEmpty(structure) ==> p == instruction
  {
    if NonEmpty(structure) then structure.value + instruction else instruction
  }

  function SystemMessage(prompt: string): WireMessage {
    WireMessage("system", Some(prompt), None, None, None)
  }

  // ---------------------------------------------------------------------------
  // The assistant turn

  /** One assistant turn as received: its text and its tool calls. */
  datatype Turn = Turn(content: Option<string>, toolCalls: seq<ToolCall>)

  function AsContent(t: Turn): (c: Content)
    ensures c.AssistantContent?
  {
    AssistantContent(t.content, t.toolCalls)
  }

  /** The `message` of a blocking reply. */
  datatype BlockingReply = BlockingReply(content: Option<string>, toolCalls: Option<seq<WireToolCall>>)

  /** The turn of a blocking reply: its content as it is, its tool calls
      with parsed arguments and the wire IDs taken as they are. */
  function BlockingTurn(reply: BlockingReply, loads: string -> Option<Json>): (t: Turn)
    ensures t.content == reply.content
    ensures reply.toolCalls.Some? ==> |t.toolCalls| == |reply.toolCalls.value|
    ensures reply.toolCalls.None? ==> t.toolCalls == []
  {
    Turn(reply.content, if reply.toolCalls.Some? then FromWireToolCalls(reply.toolCalls.value, loads) else [])
  }

  /** All tool calls of the events, in order. */
  function CallsOf(events: seq<DeltaEvent>): seq<ToolCall> {
    if events == [] then []
    else CallsOf(events[..|events| - 1]) + (if events[|events| - 1].ToolCallsDelta? then events[|events| - 1].calls else [])
  }

  lemma {:induction false} AnonymizeKeepsTurn(events: seq<DeltaEvent>)
    ensures TextOf(Anonymize(events)) == TextOf(events)
    ensures CallsOf(Anonymize(events)) == BlankIds(CallsOf(events))
  {
    if events != [] {
      var init := events[..|events| - 1];
      AnonymizeKeepsTurn(init);
      AnonymizeAppend(init, [events[|events| - 1]]);
      assert events == init + [events[|events| - 1]];
      var a := Anonymize(events);
      assert a[..|a| - 1] == Anonymize(init);
      var last := events[|events| - 1];
      if last.ToolCallsDelta? {
        BlankIdsAppend(CallsOf(init), last.calls);
      } else {
        assert BlankIds(CallsOf(init) + []) == BlankIds(CallsOf(init)) by {
          assert CallsOf(init) + [] == CallsOf(init);
        }
      }
    }
  }

  lemma BlankIdsAppend(a: seq<ToolCall>, b: seq<ToolCall>)
    ensures BlankIds(a + b) == BlankIds(a) + BlankIds(b)
  {
  }

  /** The external services the loop talks to, as functions of the request:
      the API's streamed and blocking replies, the JSON codec and the
      host's service registry. */
  datatype Host = Host(
    streamReply: Request -> seq<Chunk>,
    chatReply: Request -> BlockingReply,
    dumps: Json -> string,
    loads: string -> Option<Json>,
    services: ServiceCall -> Outcome)

  /** The turn answers the request: for a streamed reply, its text is the
      stream's text and its calls, IDs aside, are the decoded ones; for a
      blocking reply it is the reply's message. */
  ghost predicate TurnFor(req: Request, t: Turn, h: Host) {
    if req.stream then
      var cs := AllChoices(h.streamReply(req));
      && t.content == Some(StreamText(cs))
      && BlankIds(t.toolCalls) == CallsOf(Decode(cs, map[], h.loads).events)
    else t == BlockingTurn(h.chatReply(req), h.loads)
  }

  /** Every call ID of `calls` is a key of `m`. */
  ghost predicate CallIdsIn(calls: seq<ToolCall>, m: map<string, string>) {
    forall k :: 0 <= k < |calls| ==> calls[k].id in m
  }

  /** The calls gathered from the events carry only IDs the map knows. */
  lemma {:induction false} CallsKnown(events: seq<DeltaEvent>, m: map<string, string>)
    requires IdsKnown(events, m)
    ensures CallIdsIn(CallsOf(events), m)
  {
    if events != [] {
      var init := events[..|events| - 1];
      assert forall i :: 0 <= i < |init| ==> init[i] == events[i];
      CallsKnown(init, m);
    }
  }

  /** One request: `_transform_stream` with the text and calls gathered, or
      the blocking reply read. A streamed turn's call IDs are recorded in the
      map; a blocking reply leaves the map as it was. */
  method RequestTurn(req: Request, idMap: map<string, string>, rng: Rng, h: Host)
    returns (t: Turn, idMap': map<string, string>, rng': Rng)
    ensures TurnFor(req, t, h)
    ensures req.stream ==> CallIdsIn(t.toolCalls, idMap')
    ensures !req.stream ==> idMap' == idMap
    ensures Injective(idMap) ==> Injective(idMap')
    ensures idMap.Keys <= idMap'.Keys
    ensures rng'.pick == rng.pick
  {
    if req.stream {
      var events;
      events, idMap', rng' := TransformStream(h.streamReply(req), idMap, rng, h.loads);
      var text, calls := "", [];
      for i := 0 to |events|
        invariant text == TextOf(events[..i]) && calls == CallsOf(events[..i])
      {
        assert events[..i + 1][..i] == events[..i];
        match events[i]
        case ContentDelta(s) =>
          text := text + s;
        case ToolCallsDelta(cs) =>
          calls := calls + cs;
      }
      assert events[..|events|] == events;
      t := Turn(Some(text), calls);
      var cs := AllChoices(h.streamReply(req));
      AnonymizeKeepsTurn(events);
      DecodeTextAndBatches(cs, map[], h.loads);
      CallsKnown(events, idMap');
    } else {
      t := BlockingTurn(h.chatReply(req), h.loads);
      idMap', rng' := idMap, rng;
    }
  }

  // ---------------------------------------------------------------------------
  // One round's effect on the log

  /** The configuration the loop reads. */
  datatype Settings = Settings(
    model: string,
    voiceBox: string,
    maEntry: Option<string>,
    instruction: string,
    maxIterations: nat)

  function CanCall(api: Option<LlmApi>): bool {
    api.Some? && api.value.callTool.Some?
  }

  /** The entries a round appends, and whether the loop returns after it. */
  datatype Round = Round(entries: seq<Content>, done: bool)

  /** The music calls as their own assistant turn, followed by one result each. */
  function MusicPart(t: Turn, s: Settings, services: ServiceCall -> Outcome): seq<Content> {
    var music := MusicCalls(t.toolCalls);
    if music != [] then [AssistantContent(t.content, music)] + MusicEntries(music, s.voiceBox, s.maEntry, services) else []
  }

  /** The standard calls as their own assistant turn (with empty text when
      music calls went first), followed by one result each when the host can
      run them. */
  function StandardPart(t: Turn, api: Option<LlmApi>): seq<Content> {
    var std := StandardCalls(t.toolCalls);
    if std != [] then
      [AssistantContent(if MusicCalls(t.toolCalls) == [] then t.content else Some(""), std)]
      + (if CanCall(api) then StandardEntries(std, api.value.callTool.value) else [])
    else []
  }

  /** A turn without tool calls is appended once and ends the loop.
      Otherwise its music part and standard part are appended; the loop
      ends when standard calls could not be run. (A turn with calls always
      has a non-empty group, by `SplitPartition`, so the loop's final
      "no tools were processed" fall-through never runs.) */
  function RoundOf(t: Turn, api: Option<LlmApi>, s: Settings, services: ServiceCall -> Outcome): (r: Round)
    ensures t.toolCalls == [] ==> r == Round([AsContent(t)], true)
    ensures t.toolCalls != [] ==> (r.done <==> StandardCalls(t.toolCalls) != [] && !CanCall(api))
  {
    if t.toolCalls == [] then Round([AsContent(t)], true)
    else Round(MusicPart(t, s, services) + StandardPart(t, api), StandardCalls(t.toolCalls) != [] && !CanCall(api))
  }

  /** The calls the assistant entries announce, in order. */
  function Asked(entries: seq<Content>): seq<ToolCall> {
    if entries == [] then []
    else Asked(entries[..|entries| - 1]) + (if entries[|entries| - 1].AssistantContent? then entries[|entries| - 1].toolCalls else [])
  }

  /** The (ID, name) pairs of the result entries, in order. */
  function Answered(entries: seq<Content>): seq<(string, string)> {
    if entries == [] then []
    else Answered(entries[..|entries| - 1]) + (if entries[|entries| - 1].ToolResultContent? then [(entries[|entries| - 1].toolCallId, entries[|entries| - 1].toolName)] else [])
  }

  function Keys(calls: seq<ToolCall>): (r: seq<(string, string)>)
    ensures |r| == |calls|
  {
    seq(|calls|, i requires 0 <= i < |calls| => (calls[i].id, calls[i].toolName))
  }

  lemma {:induction false} AskedAnsweredAppend(a: seq<Content>, b: seq<Content>)
    ensures Asked(a + b) == Asked(a) + Asked(b)
    ensures Answered(a + b) == Answered(a) + Answered(b)
  {
    if b == [] {
      assert a + b == a;
    } else {
      assert (a + b)[..|a + b| - 1] == a + b[..|b| - 1];
      AskedAnsweredAppend(a, b[..|b| - 1]);
    }
  }

  /** Results, one per call and in the calls' order. */
  predicate ResultsFor(calls: seq<ToolCall>, results: seq<Content>) {
    && |results| == |calls|
    && forall i :: 0 <= i < |results| ==>
         results[i].ToolResultContent? && results[i].toolCallId == calls[i].id && results[i].toolName == calls[i].toolName
  }

  /** Results announce nothing and answer their calls, in order. */
  lemma {:induction false} ResultsAnswer(calls: seq<ToolCall>, results: seq<Content>)
    requires ResultsFor(calls, results)
    ensures Asked(results) == []
    ensures Answered(results) == Keys(calls)
    decreases |results|
  {
    if results != [] {
      var n := |results| - 1;
      assert ResultsFor(calls[..n], results[..n]);
      ResultsAnswer(calls[..n], results[..n]);
      assert Keys(calls) == Keys(calls[..n]) + [(calls[n].id, calls[n].toolName)];
    }
  }

  lemma AnnouncedOnce(c: Content)
    requires c.AssistantContent?
    ensures Asked([c]) == c.toolCalls && Answered([c]) == []
  {
    assert [c][..0] == [];
  }

  /** An assistant entry followed by one result per call announces those
      calls and answers each once, in order. */
  lemma AnnouncedThenAnswered(c: Content, results: seq<Content>)
    requires c.AssistantContent? && ResultsFor(c.toolCalls, results)
    ensures Asked([c] + results) == c.toolCalls
    ensures Answered([c] + results) == Keys(c.toolCalls)
  {
    ResultsAnswer(c.toolCalls, results);
    AnnouncedOnce(c);
    AskedAnsweredAppend([c], results);
  }

  lemma MusicPartAnswers(t: Turn, s: Settings, services: ServiceCall -> Outcome)
    ensures Asked(MusicPart(t, s, services)) == MusicCalls(t.toolCalls)
    ensures Answered(MusicPart(t, s, services)) == Keys(MusicCalls(t.toolCalls))
  {
    var music := MusicCalls(t.toolCalls);
    if music != [] {
      MusicEntriesInOrder(music, s.voiceBox, s.maEntry, services);
      AnnouncedThenAnswered(AssistantContent(t.content, music), MusicEntries(music, s.voiceBox, s.maEntry, services));
    }
  }

  lemma StandardPartAnswers(t: Turn, api: Option<LlmApi>)
    ensures Asked(StandardPart(t, api)) == StandardCalls(t.toolCalls)
    ensures CanCall(api) ==> Answered(StandardPart(t, api)) == Keys(StandardCalls(t.toolCalls))
    ensures !CanCall(api) ==> Answered(StandardPart(t, api)) == []
  {
    var std := StandardCalls(t.toolCalls);
    if std != [] {
      var sc := AssistantContent(if MusicCalls(t.toolCalls) == [] then t.content else Some(""), std);
      if CanCall(api) {
        var results := StandardEntries(std, api.value.callTool.value);
        assert StandardPart(t, api) == [sc] + results;
        StandardEntriesInOrder(std, api.value.callTool.value);
        AnnouncedThenAnswered(sc, results);
      } else {
        assert StandardPart(t, api) == [sc];
        AnnouncedOnce(sc);
      }
    }
  }

  /** Dispatch completeness: a round with tool calls announces exactly the
      turn's calls, music calls first; when the host can run tools it
      answers every announced call exactly once, in order; when it cannot,
      only the music calls are answered. */
  lemma EveryCallAnswered(t: Turn, api: Option<LlmApi>, s: Settings, services: ServiceCall -> Outcome)
    requires t.toolCalls != []
    ensures var r := RoundOf(t, api, s, services);
      && Asked(r.entries) == MusicCalls(t.toolCalls) + StandardCalls(t.toolCalls)
      && multiset(Asked(r.entries)) == multiset(t.toolCalls)
      && (CanCall(api) ==> Answered(r.entries) == Keys(Asked(r.entries)))
      && (!CanCall(api) ==> Answered(r.entries) == Keys(MusicCalls(t.toolCalls)))
  {
    SplitPartition(t.toolCalls);
    var music, std := MusicCalls(t.toolCalls), StandardCalls(t.toolCalls);
    MusicPartAnswers(t, s, services);
    StandardPartAnswers(t, api);
    AskedAnsweredAppend(MusicPart(t, s, services), StandardPart(t, api));
    assert RoundOf(t, api, s, services).entries == MusicPart(t, s, services) + StandardPart(t, api);
    KeysAppend(music, std);
    assert Keys(music) + [] == Keys(music);
  }

  lemma KeysAppend(a: seq<ToolCall>, b: seq<ToolCall>)
    ensures Keys(a + b) == Keys(a) + Keys(b)
  {
    forall i | 0 <= i < |a + b|
      ensures Keys(a + b)[i] == (Keys(a) + Keys(b))[i]
    {
      if i < |a| {
        assert (a + b)[i] == a[i];
      } else {
        assert (a + b)[i] == b[i - |a|];
      }
    }
  }

  /** The entries appended over the given rounds. */
  function Transcript(turns: seq<Turn>, api: Option<LlmApi>, s: Settings, services: ServiceCall -> Outcome): seq<Content> {
    if turns == [] then []
    else Transcript(turns[..|turns| - 1], api, s, services) + RoundOf(turns[|turns| - 1], api, s, services).entries
  }

  lemma TranscriptSnoc(turns: seq<Turn>, t: Turn, api: Option<LlmApi>, s: Settings, services: ServiceCall -> Outcome)
    ensures Transcript(turns + [t], api, s, services) == Transcript(turns, api, s, services) + RoundOf(t, api, s, services).entries
  {
    assert (turns + [t])[..|turns|] == turns;
  }

  const Apology: Content := AssistantContent(Some("Entschuldigung, ich konnte die Anfrage nicht vollständig verarbeiten."), [])

  /** The loop's reply: the last assistant turn, or the apology if there was none. */
  function ReplyAfter(turns: seq<Turn>): Content {
    if turns == [] then Apology else AsContent(turns[|turns| - 1])
  }

  /** One round's request: the system turn, then `log` encoded under the
      round's ID map, which resolves every caller ID of `log`; the tool list;
      and the turn answering the request. */
  ghost predicate RoundAgrees(req: Request, t: Turn, m: map<string, string>, log: seq<Content>,
                              api: Option<LlmApi>, s: Settings, h: Host,
                              structure: Option<string>, useStreaming: bool)
  {
    && req == Request(s.model, [SystemMessage(SystemPrompt(structure, s.instruction))] + BuildWith(log, m, h.dumps),
                      ToolsFor(api), useStreaming)
    && Covers(AllCallerIds(log), m)
    && TurnFor(req, t, h)
  }

  /** Every request of the loop so far agrees with the log as it stood
      before that round. */
  ghost predicate RequestsAgree(requests: seq<Request>, turns: seq<Turn>, maps: seq<map<string, string>>,
                                base: seq<Content>, api: Option<LlmApi>, s: Settings, h: Host,
                                structure: Option<string>, useStreaming: bool)
  {
    && |requests| == |turns| == |maps|
    && forall i :: 0 <= i < |requests| ==>
         RoundAgrees(requests[i], turns[i], maps[i], base + Transcript(turns[..i], api, s, h.services),
                     api, s, h, structure, useStreaming)
  }

  lemma RequestsAgreeSnoc(requests: seq<Request>, turns: seq<Turn>, maps: seq<map<string, string>>,
                          base: seq<Content>, api: Option<LlmApi>, s: Settings, h: Host,
                          structure: Option<string>, useStreaming: bool,
                          req: Request, t: Turn, m: map<string, string>)
    requires RequestsAgree(requests, turns, maps, base, api, s, h, structure, useStreaming)
    requires RoundAgrees(req, t, m, base + Transcript(turns, api, s, h.services), api, s, h, structure, useStreaming)
    ensures RequestsAgree(requests + [req], turns + [t], maps + [m], base, api, s, h, structure, useStreaming)
  {
    var turns' := turns + [t];
    forall i | 0 <= i < |turns'|
      ensures turns'[..i] == if i < |turns| then turns[..i] else turns
    {
    }
  }

  // ---------------------------------------------------------------------------
  // The loop

  /** The `for tool in assistant_content.tool_calls` split. */
  method SplitCalls(calls: seq<ToolCall>) returns (music: seq<ToolCall>, std: seq<ToolCall>)
    ensures music == MusicCalls(calls) && std == StandardCalls(calls)
  {
    music, std := [], [];
    for i := 0 to |calls|
      invariant music == MusicCalls(calls[..i]) && std == StandardCalls(calls[..i])
    {
      assert calls[..i + 1][..i] == calls[..i];
      if IsMusicTool(calls[i]) {
        music := music + [calls[i]];
      } else {
        std := std + [calls[i]];
      }
    }
    assert calls[..|calls|] == calls;
  }

  /** Runs the music calls one by one, appending each result. */
  method RunMusicCalls(log: ChatLog, music: seq<ToolCall>, s: Settings, services: ServiceCall -> Outcome)
    modifies log
    ensures log.content == old(log.content) + MusicEntries(music, s.voiceBox, s.maEntry, services)
  {
    ghost var base := log.content;
    for i := 0 to |music|
      invariant log.content == base + MusicEntries(music[..i], s.voiceBox, s.maEntry, services)
    {
      assert music[..i + 1][..i] == music[..i];
      var result := MusicResult(music[i], s.voiceBox, s.maEntry, services);
      log.AddToolContent(ResultEntry(music[i], result));
    }
    assert music[..|music|] == music;
  }

  /** Runs the standard calls one by one through the host's executor. */
  method RunStandardCalls(log: ChatLog, std: seq<ToolCall>, callTool: ToolCall -> Outcome)
    modifies log
    ensures log.content == old(log.content) + StandardEntries(std, callTool)
  {
    ghost var base := log.content;
    for i := 0 to |std|
      invariant log.content == base + StandardEntries(std[..i], callTool)
    {
      assert std[..i + 1][..i] == std[..i];
      var result := StandardResult(std[i], callTool);
      log.AddToolContent(ResultEntry(std[i], result));
    }
    assert std[..|std|] == std;
  }

  /** The music block: their own assistant turn, then one result each. */
  method AppendMusicPart(log: ChatLog, t: Turn, music: seq<ToolCall>, s: Settings, services: ServiceCall -> Outcome)
    requires music == MusicCalls(t.toolCalls)
    modifies log
    ensures log.content == old(log.content) + MusicPart(t, s, services)
  {
    if music != [] {
      ghost var before := log.content;
      log.AddAssistantContent(AssistantContent(t.content, music));
      RunMusicCalls(log, music, s, services);
      ghost var e := MusicEntries(music, s.voiceBox, s.maEntry, services);
      AppendAssoc(before, [AssistantContent(t.content, music)], e);
    }
  }

  /** The standard block: their own assistant turn, then one result each
      when the host can run them. */
  method AppendStandardPart(log: ChatLog, t: Turn, music: seq<ToolCall>, std: seq<ToolCall>)
    requires music == MusicCalls(t.toolCalls) && std == StandardCalls(t.toolCalls)
    modifies log
    ensures log.content == old(log.content) + StandardPart(t, log.llmApi)
  {
    if std != [] {
      var sc := AssistantContent(if music == [] then t.content else Some(""), std);
      ghost var before := log.content;
      log.AddAssistantContent(sc);
      var api := log.llmApi;
      if api.Some? && api.value.callTool.Some? {
        var callTool := api.value.callTool.value;
        RunStandardCalls(log, std, callTool);
        ghost var e := StandardEntries(std, callTool);
        AppendAssoc(before, [sc], e);
      } else {
        assert StandardPart(t, api) == [sc];
      }
    }
  }

  /** Runs one round's tool calls as the loop does, appending to the log. */
  method DispatchRound(log: ChatLog, t: Turn, s: Settings, services: ServiceCall -> Outcome) returns (done: bool)
    modifies log
    ensures log.content == old(log.content) + RoundOf(t, log.llmApi, s, services).entries
    ensures done == RoundOf(t, log.llmApi, s, services).done
  {
    if t.toolCalls == [] {
      log.AddAssistantContent(AsContent(t));
      return true;
    }
    var music, std := SplitCalls(t.toolCalls);
    ghost var base := log.content;
    AppendMusicPart(log, t, music, s, services);
    ghost var mid := log.content;
    AppendStandardPart(log, t, music, std);
    ghost var mp, sp := MusicPart(t, s, services), StandardPart(t, log.llmApi);
    AppendAssoc(base, mp, sp);
    done := std != [] && !(log.llmApi.Some? && log.llmApi.value.callTool.Some?);
  }

  /** The request of a round: the system turn, the log's messages, the tools. */
  function RequestOf(msgs: seq<WireMessage>, api: Option<LlmApi>, s: Settings, structure: Option<string>, useStreaming: bool): Request {
    Request(s.model, [SystemMessage(SystemPrompt(structure, s.instruction))] + msgs, ToolsFor(api), useStreaming)
  }

  /** One pass of the loop once the messages are built: get a turn, run its
      calls. The log grows by the round's entries, the new request encodes
      the log as it stood, and the loop's bookkeeping is carried one round
      further. */
  method PlayRound(log: ChatLog, s: Settings, h: Host, structure: Option<string>, useStreaming: bool,
                   msgs: seq<WireMessage>, m: map<string, string>, rng: Rng,
                   ghost base: seq<Content>, ghost turns: seq<Turn>, ghost requests: seq<Request>, ghost maps: seq<map<string, string>>)
    returns (t: Turn, done: bool, idMap': map<string, string>, rng': Rng,
             ghost turns': seq<Turn>, ghost requests': seq<Request>, ghost maps': seq<map<string, string>>)
    requires msgs == BuildWith(log.content, m, h.dumps)
    requires Covers(AllCallerIds(log.content), m)
    requires log.content == base + Transcript(turns, log.llmApi, s, h.services)
    requires RequestsAgree(requests, turns, maps, base, log.llmApi, s, h, structure, useStreaming)
    requires NoneFinal(turns, log.llmApi, s, h.services)
    requires Injective(m) && AllInjective(maps)
    modifies log
    ensures turns' == turns + [t] && |turns'| == |turns| + 1 && turns'[|turns|] == t
    ensures log.content == base + Transcript(turns', log.llmApi, s, h.services)
    ensures RequestsAgree(requests', turns', maps', base, log.llmApi, s, h, structure, useStreaming)
    ensures done == RoundOf(t, log.llmApi, s, h.services).done
    ensures forall i :: 0 <= i < |turns'| - 1 ==> !RoundOf(turns'[i], log.llmApi, s, h.services).done
    ensures !done ==> NoneFinal(turns', log.llmApi, s, h.services)
    ensures Injective(idMap') && AllInjective(maps')
    ensures maps' == maps + [m] && m.Keys <= idMap'.Keys
    ensures useStreaming ==> CallIdsIn(t.toolCalls, idMap')
    ensures !useStreaming ==> idMap' == m
    ensures rng'.pick == rng.pick
  {
    var req := RequestOf(msgs, log.llmApi, s, structure, useStreaming);
    t, idMap', rng' := RequestTurn(req, m, rng, h);
    RequestsAgreeSnoc(requests, turns, maps, base, log.llmApi, s, h, structure, useStreaming, req, t, m);
    turns', requests', maps' := turns + [t], requests + [req], maps + [m];
    AllInjectiveSnoc(maps, m);
    NoneFinalSnoc(turns, t, log.llmApi, s, h.services);
    TranscriptSnoc(turns, t, log.llmApi, s, h.services);
    ghost var entries := RoundOf(t, log.llmApi, s, h.services).entries;
    done := DispatchRound(log, t, s, h.services);
    AppendAssoc(base, Transcript(turns, log.llmApi, s, h.services), entries);
  }

  /** No round of `turns` ended the loop. */
  ghost predicate NoneFinal(turns: seq<Turn>, api: Option<LlmApi>, s: Settings, services: ServiceCall -> Outcome) {
    forall j :: 0 <= j < |turns| ==> !RoundOf(turns[j], api, s, services).done
  }

  /** One more round keeps every earlier round non-final, and the whole
      sequence non-final when the new round is not final either. */
  lemma NoneFinalSnoc(turns: seq<Turn>, t: Turn, api: Option<LlmApi>, s: Settings, services: ServiceCall -> Outcome)
    requires NoneFinal(turns, api, s, services)
    ensures |turns + [t]| == |turns| + 1 && (turns + [t])[|turns|] == t
    ensures forall i :: 0 <= i < |turns + [t]| - 1 ==> !RoundOf((turns + [t])[i], api, s, services).done
    ensures !RoundOf(t, api, s, services).done ==> NoneFinal(turns + [t], api, s, services)
  {
  }

  /** Every map of `maps` is injective. */
  ghost predicate AllInjective(maps: seq<map<string, string>>) {
    forall j :: 0 <= j < |maps| ==> Injective(maps[j])
  }

  /** One ID map threaded through the rounds: the keys of the round maps
      only grow, and all of them are keys of the current map. */
  ghost predicate Threaded(maps: seq<map<string, string>>, current: map<string, string>) {
    && (forall i, j :: 0 <= i <= j < |maps| ==> maps[i].Keys <= maps[j].Keys)
    && (forall i :: 0 <= i < |maps| ==> maps[i].Keys <= current.Keys)
  }

  /** The current map grows into the next round's map, which grows again
      during that round. */
  lemma ThreadedSnoc(maps: seq<map<string, string>>, current: map<string, string>, m: map<string, string>, m': map<string, string>)
    requires Threaded(maps, current) && current.Keys <= m.Keys && m.Keys <= m'.Keys
    ensures Threaded(maps + [m], m')
  {
    assert forall j :: 0 <= j < |maps| ==> (maps + [m])[j] == maps[j];
  }

  /** What each round hands to the next: `after[i]` is the map round i's
      reply left (it holds every streamed call ID; a blocking reply leaves
      the build map as it was), and the next round builds its request under
      an extension of it, so a recorded internal ID still resolves to the
      same wire ID. */
  ghost predicate HandedOver(turns: seq<Turn>, maps: seq<map<string, string>>, after: seq<map<string, string>>,
                             current: map<string, string>, useStreaming: bool)
  {
    && |after| == |maps| == |turns|
    && (forall i {:trigger after[i]} :: 0 <= i < |after| ==> maps[i].Keys <= after[i].Keys)
    && (forall i {:trigger after[i]} :: 0 <= i < |after| ==> useStreaming ==> CallIdsIn(turns[i].toolCalls, after[i]))
    && (forall i {:trigger after[i]} :: 0 <= i < |after| ==> !useStreaming ==> after[i] == maps[i])
    && (forall i {:trigger after[i]} :: 0 <= i < |after| - 1 ==> Extends(after[i], maps[i + 1]))
    && (after != [] ==> Extends(after[|after| - 1], current))
  }

  lemma HandedOverSnoc(turns: seq<Turn>, maps: seq<map<string, string>>, after: seq<map<string, string>>,
                       current: map<string, string>, useStreaming: bool,
                       t: Turn, m: map<string, string>, m': map<string, string>)
    requires HandedOver(turns, maps, after, current, useStreaming)
    requires Extends(current, m) && m.Keys <= m'.Keys
    requires useStreaming ==> CallIdsIn(t.toolCalls, m')
    requires !useStreaming ==> m' == m
    ensures HandedOver(turns + [t], maps + [m], after + [m'], m', useStreaming)
  {
    assert forall j :: 0 <= j < |after| ==> (after + [m'])[j] == after[j] && (maps + [m])[j] == maps[j] && (turns + [t])[j] == turns[j];
    if after != [] {
      ExtendsTrans(after[|after| - 1], current, m);
    }
  }

  lemma HandedOverWiden(turns: seq<Turn>, maps: seq<map<string, string>>, after: seq<map<string, string>>,
                        current: map<string, string>, useStreaming: bool, m: map<string, string>)
    requires HandedOver(turns, maps, after, current, useStreaming) && Extends(current, m)
    ensures HandedOver(turns, maps, after, m, useStreaming)
  {
    if after != [] {
      ExtendsTrans(after[|after| - 1], current, m);
    }
  }

  lemma ThreadedWiden(maps: seq<map<string, string>>, current: map<string, string>, m: map<string, string>)
    requires Threaded(maps, current) && current.Keys <= m.Keys
    ensures Threaded(maps, m)
  {
  }

  lemma AllInjectiveSnoc(maps: seq<map<string, string>>, m: map<string, string>)
    requires AllInjective(maps) && Injective(m)
    ensures AllInjective(maps + [m])
  {
    assert forall j :: 0 <= j < |maps| ==> (maps + [m])[j] == maps[j];
  }

  /** The loop's ID bookkeeping: every map stays injective, one map is
      threaded through the rounds, and the first round's map holds exactly
      the replaced IDs of the log the loop started from. */
  ghost predicate Threading(turns: seq<Turn>, maps: seq<map<string, string>>, after: seq<map<string, string>>,
                            current: map<string, string>, base: seq<Content>, useStreaming: bool)
  {
    && Injective(current) && AllInjective(maps)
    && Threaded(maps, current)
    && HandedOver(turns, maps, after, current, useStreaming)
    && (maps != [] ==> maps[0].Keys == Replaced(AllCallerIds(base)))
  }

  /** Within the loop, before the first round the map is still empty. */
  ghost predicate Reconciled(turns: seq<Turn>, maps: seq<map<string, string>>, after: seq<map<string, string>>,
                             current: map<string, string>, base: seq<Content>, useStreaming: bool)
  {
    && Threading(turns, maps, after, current, base, useStreaming)
    && (maps == [] ==> current == map[])
  }

  /** One round: the request is built under an extension `m` of the current
      map, and the reply leaves `m'`. */
  lemma ReconciledSnoc(turns: seq<Turn>, maps: seq<map<string, string>>, after: seq<map<string, string>>,
                       current: map<string, string>, base: seq<Content>, useStreaming: bool,
                       t: Turn, m: map<string, string>, m': map<string, string>)
    requires Reconciled(turns, maps, after, current, base, useStreaming)
    requires Extends(current, m) && Injective(m) && Injective(m') && m.Keys <= m'.Keys
    requires maps == [] ==> m.Keys == current.Keys + Replaced(AllCallerIds(base))
    requires useStreaming ==> CallIdsIn(t.toolCalls, m')
    requires !useStreaming ==> m' == m
    ensures Reconciled(turns + [t], maps + [m], after + [m'], m', base, useStreaming)
  {
    ThreadedSnoc(maps, current, m, m');
    HandedOverSnoc(turns, maps, after, current, useStreaming, t, m, m');
    AllInjectiveSnoc(maps, m);
  }

  /** Leaving the loop with an extension `m` of the current map. */
  lemma ReconciledExit(turns: seq<Turn>, maps: seq<map<string, string>>, after: seq<map<string, string>>,
                       current: map<string, string>, base: seq<Content>, useStreaming: bool, m: map<string, string>)
    requires Reconciled(turns, maps, after, current, base, useStreaming)
    requires Extends(current, m) && Injective(m)
    ensures Threading(turns, maps, after, m, base, useStreaming)
  {
    ThreadedWiden(maps, current, m);
    HandedOverWiden(turns, maps, after, current, useStreaming, m);
  }

  /** The loop's state after `turns`: the log is the starting log followed
      by their transcript, every request agrees with the log as it stood,
      and the ID bookkeeping holds. */
  ghost predicate LoopState(content: seq<Content>, turns: seq<Turn>, requests: seq<Request>,
                            maps: seq<map<string, string>>, after: seq<map<string, string>>, current: map<string, string>,
                            base: seq<Content>, api: Option<LlmApi>, s: Settings, h: Host,
                            structure: Option<string>, useStreaming: bool)
  {
    && content == base + Transcript(turns, api, s, h.services)
    && RequestsAgree(requests, turns, maps, base, api, s, h, structure, useStreaming)
    && Reconciled(turns, maps, after, current, base, useStreaming)
  }

  /** Building the messages for `cs` cannot go on: one of its caller IDs
      needs a fresh wire ID while every ID is a value of `m`, so the
      source's regenerate loop never ends. */
  ghost predicate Stuck(cs: seq<Content>, m: map<string, string>) {
    IdSpaceFull(m.Values) && exists o :: o in AllCallerIds(cs) && NeedsFreshId(o, m)
  }

  /** One pass of `for iteration in range(MAX_TOOL_ITERATIONS)`: build the
      messages under the threaded map, then play the round. Building fails
      only where the source would hang; the bookkeeping then describes the
      map the build left. */
  method Iteration(log: ChatLog, s: Settings, h: Host, structure: Option<string>, useStreaming: bool,
                   current: map<string, string>, rng: Rng,
                   ghost base: seq<Content>, ghost turns: seq<Turn>, ghost requests: seq<Request>,
                   ghost maps: seq<map<string, string>>, ghost after: seq<map<string, string>>)
    returns (built: bool, t: Turn, done: bool, current': map<string, string>, rng': Rng,
             ghost turns': seq<Turn>, ghost requests': seq<Request>,
             ghost maps': seq<map<string, string>>, ghost after': seq<map<string, string>>)
    requires Fair(rng.pick)
    requires LoopState(log.content, turns, requests, maps, after, current, base, log.llmApi, s, h, structure, useStreaming)
    requires NoneFinal(turns, log.llmApi, s, h.services)
    modifies log
    ensures rng'.pick == rng.pick
    ensures !built ==> && log.content == old(log.content)
                       && turns' == turns && requests' == requests && maps' == maps && after' == after
                       && Stuck(log.content, current')
                       && Threading(turns, maps, after, current', base, useStreaming)
    ensures built ==> && turns' == turns + [t] && turns' != [] && turns'[|turns'| - 1] == t
                      && ReplyAfter(turns') == AsContent(t)
                      && LoopState(log.content, turns', requests', maps', after', current', base, log.llmApi, s, h, structure, useStreaming)
                      && done == RoundOf(t, log.llmApi, s, h.services).done
                      && (forall i :: 0 <= i < |turns'| - 1 ==> !RoundOf(turns'[i], log.llmApi, s, h.services).done)
                      && (!done ==> NoneFinal(turns', log.llmApi, s, h.services))
  {
    var msgs, m;
    msgs, m, rng' := BuildMessages(log.content, current, rng, h.dumps);
    if msgs.None? {
      ReconciledExit(turns, maps, after, current, base, useStreaming, m);
      return false, Turn(None, []), false, m, rng', turns, requests, maps, after;
    }
    assert turns == [] ==> log.content == base;
    var idMap';
    t, done, idMap', rng', turns', requests', maps' := PlayRound(log, s, h, structure, useStreaming, msgs.value, m, rng', base, turns, requests, maps);
    ReconciledSnoc(turns, maps, after, current, base, useStreaming, t, m, idMap');
    built, current', after' := true, idMap', after + [idMap'];
  }

  /** `_async_handle_chat_log`: at most `maxIterations` rounds; the log
      grows by each round's entries; the loop returns after the first round
      that ends it, or after the last round with that round's turn, or with
      the apology when no round ran. The reply is `None` where the source
      never returns: building a request needed a fresh tool-call ID while
      every ID was taken. */
  method HandleChatLog(log: ChatLog, s: Settings, h: Host, structure: Option<string>, useStreaming: bool, rng: Rng)
    returns (reply: Option<Content>, ghost turns: seq<Turn>, ghost requests: seq<Request>, ghost maps: seq<map<string, string>>,
             ghost after: seq<map<string, string>>, ghost idMap: map<string, string>, rng': Rng)
    requires Fair(rng.pick)
    modifies log
    ensures |turns| <= s.maxIterations
    ensures log.content == old(log.content) + Transcript(turns, log.llmApi, s, h.services)
    ensures forall i :: 0 <= i < |turns| - 1 ==> !RoundOf(turns[i], log.llmApi, s, h.services).done
    ensures reply.Some? && |turns| < s.maxIterations ==> turns != [] && RoundOf(turns[|turns| - 1], log.llmApi, s, h.services).done
    ensures reply.Some? ==> reply.value == ReplyAfter(turns)
    ensures reply.None? ==> && |turns| < s.maxIterations && NoneFinal(turns, log.llmApi, s, h.services)
                            && Stuck(log.content, idMap)
    ensures RequestsAgree(requests, turns, maps, old(log.content), log.llmApi, s, h, structure, useStreaming)
    ensures Threading(turns, maps, after, idMap, old(log.content), useStreaming)
    ensures rng'.pick == rng.pick
  {
    ghost var base := log.content;
    var current: map<string, string> := map[];
    idMap := current;
    turns, requests, maps, after := [], [], [], [];
    rng' := rng;
    var answer := Apology;
    var stopped := false;
    reply := None;
    for i := 0 to s.maxIterations
      invariant |turns| == i
      invariant LoopState(log.content, turns, requests, maps, after, current, base, log.llmApi, s, h, structure, useStreaming)
      invariant NoneFinal(turns, log.llmApi, s, h.services)
      invariant answer == ReplyAfter(turns)
      invariant idMap == current
      invariant rng'.pick == rng.pick
    {
      var built, t, done;
      built, t, done, current, rng', turns, requests, maps, after :=
        Iteration(log, s, h, structure, useStreaming, current, rng', base, turns, requests, maps, after);
      idMap := current;
      if !built {
        stopped := true;
        break;
      }
      answer := AsContent(t);
      if done {
        stopped, reply := true, Some(answer);
        break;
      }
    }
    if !stopped {
      reply := Some(answer);
    }
  }
}
