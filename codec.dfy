/** The message codec: the host's chat history (a tagged union of turns)
    becomes the wire message array, tool-call IDs going through the
    reconciler; wire tool calls of a blocking reply become tool inputs. */
module MessageCodec {
  import opened Wrappers
  import opened Json
  import opened ToolIds

  /** `llm.ToolInput` */
  datatype ToolCall = ToolCall(id: string, toolName: string, toolArgs: Json)

  datatype Role = SystemRole | UserRole

  function RoleName(r: Role): string {
    match r
    case SystemRole => "system"
    case UserRole => "user"
  }

  /** `conversation.Content`: the three kinds of chat-log entry. */
  datatype Content =
    | PlainContent(role: Role, text: string)
    | AssistantContent(content: Option<string>, toolCalls: seq<ToolCall>)
    | ToolResultContent(toolCallId: string, toolName: string, toolResult: Json)

  /** `{"id": ..., "type": "function", "function": {"name": ..., "arguments": ...}}` */
  datatype WireToolCall = WireToolCall(id: string, name: string, arguments: string)

  /** A wire message; `None` marks a key the dictionary does not have. */
  datatype WireMessage = WireMessage(
    role: string,
    content: Option<string>,
    toolCalls: Option<seq<WireToolCall>>,
    toolCallId: Option<string>,
    name: Option<string>)

  /** Python truthiness of an optional string. */
  predicate NonEmpty(s: Option<string>) {
    s.Some? && s.value != ""
  }

  /** The wire ID that caller ID `o` has under the map `m`. */
  function WireId(o: string, m: map<string, string>): string {
    Resolve(o, m).GetOr(o)
  }

  function WireCall(tc: ToolCall, m: map<string, string>, dumps: Json -> string): WireToolCall {
    WireToolCall(WireId(tc.id, m), tc.toolName, dumps(tc.toolArgs))
  }

  function WireCalls(calls: seq<ToolCall>, m: map<string, string>, dumps: Json -> string): (r: seq<WireToolCall>)
    ensures |r| == |calls|
  {
    seq(|calls|, i requires 0 <= i < |calls| => WireCall(calls[i], m, dumps))
  }

  /** `_convert_chat_content`, once the map holds every ID the entry uses. */
  function ConvertWith(c: Content, m: map<string, string>, dumps: Json -> string): seq<WireMessage> {
    match c
    case ToolResultContent(id, name, result) =>
      [WireMessage("tool", Some(dumps(result)), None, Some(WireId(id, m)), Some(name))]
    case AssistantContent(text, calls) =>
      [WireMessage("assistant",
                   if NonEmpty(text) then text else None,
                   if calls != [] then Some(WireCalls(calls, m, dumps)) else None,
                   None, None)]
    case PlainContent(role, text) =>
      if text != "" then [WireMessage(RoleName(role), Some(text), None, None, None)] else []
  }

  /** `_build_messages`: the in-order concatenation of the entries' messages. */
  function BuildWith(cs: seq<Content>, m: map<string, string>, dumps: Json -> string): seq<WireMessage> {
    if cs == [] then [] else BuildWith(cs[..|cs| - 1], m, dumps) + ConvertWith(cs[|cs| - 1], m, dumps)
  }

  /** The caller-side IDs an entry sends through the reconciler, in order. */
  function CallerIds(c: Content): seq<string> {
    match c
    case ToolResultContent(id, _, _) => [id]
    case AssistantContent(_, calls) => CallIds(calls)
    case PlainContent(_, _) => []
  }

  function CallIds(calls: seq<ToolCall>): (ids: seq<string>)
    ensures |ids| == |calls| && forall i :: 0 <= i < |calls| ==> ids[i] == calls[i].id
  {
    seq(|calls|, i requires 0 <= i < |calls| => calls[i].id)
  }

  function AllCallerIds(cs: seq<Content>): seq<string> {
    if cs == [] then [] else AllCallerIds(cs[..|cs| - 1]) + CallerIds(cs[|cs| - 1])
  }

  /** The caller IDs among `ids` that the reconciler must replace. */
  function Replaced(ids: seq<string>): (r: set<string>)
    ensures forall o :: o in r <==> o in ids && !IsMistralId(o)
  {
    if ids == [] then {}
    else Replaced(ids[..|ids| - 1]) + (if IsMistralId(ids[|ids| - 1]) then {} else {ids[|ids| - 1]})
  }

  lemma ReplacedSnoc(ids: seq<string>, o: string)
    ensures Replaced(ids + [o]) == Replaced(ids) + (if IsMistralId(o) then {} else {o})
  {
    assert (ids + [o])[..|ids|] == ids;
  }

  ghost predicate Covers(ids: seq<string>, m: map<string, string>) {
    forall o :: o in ids ==> Resolve(o, m).Some?
  }

  // ---------------------------------------------------------------------------
  // Stability: entries already converted keep their messages as the map grows.

  lemma ConvertStable(c: Content, m: map<string, string>, m': map<string, string>, dumps: Json -> string)
    requires Covers(CallerIds(c), m) && Extends(m, m')
    ensures ConvertWith(c, m', dumps) == ConvertWith(c, m, dumps)
  {
    match c
    case ToolResultContent(id, _, _) =>
      assert id in CallerIds(c);
      ResolveStable(id, m, m');
    case AssistantContent(_, calls) =>
      forall i | 0 <= i < |calls|
        ensures WireCall(calls[i], m', dumps) == WireCall(calls[i], m, dumps)
      {
        assert calls[i].id in CallerIds(c);
        ResolveStable(calls[i].id, m, m');
      }
      assert WireCalls(calls, m', dumps) == WireCalls(calls, m, dumps);
    case PlainContent(_, _) =>
  }

  lemma {:induction false} BuildStable(cs: seq<Content>, m: map<string, string>, m': map<string, string>, dumps: Json -> string)
    requires Covers(AllCallerIds(cs), m) && Extends(m, m')
    ensures BuildWith(cs, m', dumps) == BuildWith(cs, m, dumps)
  {
    if cs != [] {
      var init, last := cs[..|cs| - 1], cs[|cs| - 1];
      assert AllCallerIds(cs) == AllCallerIds(init) + CallerIds(last);
      BuildStable(init, m, m', dumps);
      ConvertStable(last, m, m', dumps);
    }
  }

  // ---------------------------------------------------------------------------
  // The conversion as the source performs it: left to right, normalizing
  // each ID as it is met and updating the map in place.

  /** `wcs` is the translation of `calls` under `m`. */
  ghost predicate Translated(calls: seq<ToolCall>, wcs: seq<WireToolCall>, m: map<string, string>, dumps: Json -> string) {
    && |wcs| == |calls|
    && (forall j :: 0 <= j < |calls| ==> Resolve(calls[j].id, m) == Some(wcs[j].id))
    && (forall j :: 0 <= j < |calls| ==> wcs[j] == WireCall(calls[j], m, dumps))
  }

  lemma TranslatedSnoc(calls: seq<ToolCall>, wcs: seq<WireToolCall>, m: map<string, string>, m': map<string, string>,
                       c: ToolCall, w: string, dumps: Json -> string)
    requires Translated(calls, wcs, m, dumps) && Extends(m, m')
    requires Resolve(c.id, m') == Some(w)
    ensures Translated(calls + [c], wcs + [WireToolCall(w, c.toolName, dumps(c.toolArgs))], m', dumps)
  {
    forall j | 0 <= j < |calls| ensures Resolve(calls[j].id, m') == Some(wcs[j].id) {
      ResolveStable(calls[j].id, m, m');
    }
  }

  /** The state after the comprehension has translated `calls[..i]`,
      starting from the map `m0`. */
  ghost predicate CallsPrefixDone(calls: seq<ToolCall>, i: nat, wcs: seq<WireToolCall>, m0: map<string, string>,
                                  m: map<string, string>, pick: nat -> nat, rng: Rng, dumps: Json -> string) {
    && i <= |calls|
    && Translated(calls[..i], wcs, m, dumps)
    && Extends(m0, m)
    && m.Keys == m0.Keys + Replaced(CallIds(calls)[..i])
    && (Injective(m0) ==> Injective(m))
    && (RemoteValues(m0) ==> RemoteValues(m))
    && rng.pick == pick
  }

  /** One step of the comprehension; `ok` is false where the source would
      regenerate forever. */
  method ConvertNextCall(calls: seq<ToolCall>, i: nat, wcs: seq<WireToolCall>, ghost m0: map<string, string>,
                         idMap: map<string, string>, ghost pick: nat -> nat, rng: Rng, dumps: Json -> string)
    returns (ok: bool, wcs': seq<WireToolCall>, idMap': map<string, string>, rng': Rng)
    requires i < |calls| && Fair(pick)
    requires CallsPrefixDone(calls, i, wcs, m0, idMap, pick, rng, dumps)
    ensures ok ==> CallsPrefixDone(calls, i + 1, wcs', m0, idMap', pick, rng', dumps)
    ensures !ok ==> && IdSpaceFull(idMap'.Values) && (exists o :: o in CallIds(calls) && NeedsFreshId(o, idMap'))
                    && Extends(m0, idMap') && (Injective(m0) ==> Injective(idMap'))
                    && (RemoteValues(m0) ==> RemoteValues(idMap')) && rng'.pick == pick
  {
    ghost var ids := CallIds(calls);
    var w;
    w, idMap', rng' := NormalizeOutgoing(Some(calls[i].id), idMap, rng);
    if w.None? {
      assert ids[i] == calls[i].id;
      return false, wcs, idMap', rng';
    }
    TranslatedSnoc(calls[..i], wcs, idMap, idMap', calls[i], w.value, dumps);
    assert calls[..i + 1] == calls[..i] + [calls[i]];
    ExtendsTrans(m0, idMap, idMap');
    KeysStep(m0.Keys, ids[..i], calls[i].id, idMap, idMap');
    assert ids[..i + 1] == ids[..i] + [calls[i].id];
    ok, wcs' := true, wcs + [WireToolCall(w.value, calls[i].toolName, dumps(calls[i].toolArgs))];
  }

  /** The tool-call list comprehension of `_convert_chat_content`. The
      result is `None` only where a call needs a fresh ID and every ID is
      taken, so that the source would never return. */
  method ConvertToolCalls(calls: seq<ToolCall>, idMap: map<string, string>, rng: Rng, dumps: Json -> string)
    returns (wcs: Option<seq<WireToolCall>>, idMap': map<string, string>, rng': Rng)
    requires Fair(rng.pick)
    ensures wcs.Some? ==> wcs.value == WireCalls(calls, idMap', dumps)
    ensures wcs.Some? ==> Covers(CallIds(calls), idMap')
    ensures wcs.Some? ==> idMap'.Keys == idMap.Keys + Replaced(CallIds(calls))
    ensures wcs.None? ==> IdSpaceFull(idMap'.Values) && exists o :: o in CallIds(calls) && NeedsFreshId(o, idMap')
    ensures Extends(idMap, idMap')
    ensures Injective(idMap) ==> Injective(idMap')
    ensures RemoteValues(idMap) ==> RemoteValues(idMap')
    ensures rng'.pick == rng.pick
  {
    var acc: seq<WireToolCall> := [];
    idMap', rng' := idMap, rng;
    for i := 0 to |calls|
      invariant CallsPrefixDone(calls, i, acc, idMap, idMap', rng.pick, rng', dumps)
    {
      var ok;
      ok, acc, idMap', rng' := ConvertNextCall(calls, i, acc, idMap, idMap', rng.pick, rng', dumps);
      if !ok {
        return None, idMap', rng';
      }
    }
    assert calls[..|calls|] == calls;
    assert CallIds(calls)[..|calls|] == CallIds(calls);
    wcs := Some(acc);
  }

  /** One normalization adds `o` to the keys exactly when it is replaced. */
  lemma KeysStep(k0: set<string>, ids: seq<string>, o: string, m: map<string, string>, m': map<string, string>)
    requires m.Keys == k0 + Replaced(ids)
    requires m'.Keys == m.Keys + (if NeedsFreshId(o, m) then {o} else {})
    ensures m'.Keys == k0 + Replaced(ids + [o])
  {
    ReplacedSnoc(ids, o);
  }

  /** `_convert_chat_content`: zero or one wire message per entry; `None`
      where the source would regenerate an ID forever. */
  method ConvertChatContent(c: Content, idMap: map<string, string>, rng: Rng, dumps: Json -> string)
    returns (msgs: Option<seq<WireMessage>>, idMap': map<string, string>, rng': Rng)
    requires Fair(rng.pick)
    ensures msgs.Some? ==> msgs.value == ConvertWith(c, idMap', dumps)
    ensures msgs.Some? ==> Covers(CallerIds(c), idMap')
    ensures msgs.Some? ==> idMap'.Keys == idMap.Keys + Replaced(CallerIds(c))
    ensures msgs.None? ==> IdSpaceFull(idMap'.Values) && exists o :: o in CallerIds(c) && NeedsFreshId(o, idMap')
    ensures Extends(idMap, idMap')
    ensures Injective(idMap) ==> Injective(idMap')
    ensures RemoteValues(idMap) ==> RemoteValues(idMap')
    ensures rng'.pick == rng.pick
  {
    match c
    case ToolResultContent(id, name, result) =>
      msgs, idMap', rng' := ConvertToolResult(id, name, result, idMap, rng, dumps);
      assert CallerIds(c) == [id];
    case AssistantContent(text, calls) =>
      var toolCalls: Option<seq<WireToolCall>> := None;
      idMap', rng' := idMap, rng;
      if calls != [] {
        toolCalls, idMap', rng' := ConvertToolCalls(calls, idMap, rng, dumps);
        if toolCalls.None? {
          return None, idMap', rng';
        }
      }
      msgs := Some([WireMessage("assistant", if NonEmpty(text) then text else None, toolCalls, None, None)]);
    case PlainContent(role, text) =>
      idMap', rng' := idMap, rng;
      msgs := Some(if text != "" then [WireMessage(RoleName(role), Some(text), None, None, None)] else []);
  }

  /** The tool-result branch of `_convert_chat_content`. */
  method ConvertToolResult(id: string, name: string, result: Json, idMap: map<string, string>, rng: Rng, dumps: Json -> string)
    returns (msgs: Option<seq<WireMessage>>, idMap': map<string, string>, rng': Rng)
    requires Fair(rng.pick)
    ensures msgs.Some? ==> msgs.value == ConvertWith(ToolResultContent(id, name, result), idMap', dumps)
    ensures msgs.Some? ==> Resolve(id, idMap').Some?
    ensures msgs.Some? ==> idMap'.Keys == idMap.Keys + Replaced([id])
    ensures msgs.None? ==> IdSpaceFull(idMap'.Values) && NeedsFreshId(id, idMap')
    ensures Extends(idMap, idMap')
    ensures Injective(idMap) ==> Injective(idMap')
    ensures RemoteValues(idMap) ==> RemoteValues(idMap')
    ensures rng'.pick == rng.pick
  {
    var w;
    w, idMap', rng' := NormalizeOutgoing(Some(id), idMap, rng);
    if w.None? {
      return None, idMap', rng';
    }
    assert Replaced([id]) == if IsMistralId(id) then {} else {id};
    msgs := Some([WireMessage("tool", Some(dumps(result)), None, Some(w.value), Some(name))]);
  }

  /** The state after `_build_messages` has converted `cs[..i]`, starting
      from the map `m0`. */
  ghost predicate EntriesPrefixDone(cs: seq<Content>, i: nat, msgs: seq<WireMessage>, m0: map<string, string>,
                                    m: map<string, string>, pick: nat -> nat, rng: Rng, dumps: Json -> string) {
    && i <= |cs|
    && msgs == BuildWith(cs[..i], m, dumps)
    && Covers(AllCallerIds(cs[..i]), m)
    && Extends(m0, m)
    && m.Keys == m0.Keys + Replaced(AllCallerIds(cs[..i]))
    && (Injective(m0) ==> Injective(m))
    && (RemoteValues(m0) ==> RemoteValues(m))
    && rng.pick == pick
  }

  lemma ReplacedAppend(a: seq<string>, b: seq<string>)
    ensures Replaced(a + b) == Replaced(a) + Replaced(b)
  {
  }

  /** One pass of the `_build_messages` loop; `ok` is false where the
      source would regenerate an ID forever. */
  method BuildNext(cs: seq<Content>, i: nat, msgs: seq<WireMessage>, ghost m0: map<string, string>,
                   idMap: map<string, string>, ghost pick: nat -> nat, rng: Rng, dumps: Json -> string)
    returns (ok: bool, msgs': seq<WireMessage>, idMap': map<string, string>, rng': Rng)
    requires i < |cs| && Fair(pick)
    requires EntriesPrefixDone(cs, i, msgs, m0, idMap, pick, rng, dumps)
    ensures ok ==> EntriesPrefixDone(cs, i + 1, msgs', m0, idMap', pick, rng', dumps)
    ensures !ok ==> && IdSpaceFull(idMap'.Values) && (exists o :: o in CallerIds(cs[i]) && NeedsFreshId(o, idMap'))
                    && Extends(m0, idMap') && (Injective(m0) ==> Injective(idMap'))
                    && (RemoteValues(m0) ==> RemoteValues(idMap')) && rng'.pick == pick
  {
    var part;
    part, idMap', rng' := ConvertChatContent(cs[i], idMap, rng, dumps);
    ExtendsTrans(m0, idMap, idMap');
    if part.None? {
      return false, msgs, idMap', rng';
    }
    BuildStep(cs, i, msgs, m0, idMap, idMap', part.value, pick, rng', dumps);
    ok, msgs' := true, msgs + part.value;
  }

  /** Converting entry i under the grown map extends the converted prefix. */
  lemma BuildStep(cs: seq<Content>, i: nat, msgs: seq<WireMessage>, m0: map<string, string>,
                  m: map<string, string>, m': map<string, string>, part: seq<WireMessage>,
                  pick: nat -> nat, rng': Rng, dumps: Json -> string)
    requires i < |cs|
    requires EntriesPrefixDone(cs, i, msgs, m0, m, pick, rng', dumps)
    requires part == ConvertWith(cs[i], m', dumps) && Covers(CallerIds(cs[i]), m')
    requires m'.Keys == m.Keys + Replaced(CallerIds(cs[i])) && Extends(m, m') && Extends(m0, m')
    requires (Injective(m) ==> Injective(m')) && (RemoteValues(m) ==> RemoteValues(m'))
    ensures EntriesPrefixDone(cs, i + 1, msgs + part, m0, m', pick, rng', dumps)
  {
    assert cs[..i + 1][..i] == cs[..i];
    assert AllCallerIds(cs[..i + 1]) == AllCallerIds(cs[..i]) + CallerIds(cs[i]);
    BuildStable(cs[..i], m, m', dumps);
    forall o | o in AllCallerIds(cs[..i]) ensures Resolve(o, m').Some? {
      ResolveStable(o, m, m');
    }
    ReplacedAppend(AllCallerIds(cs[..i]), CallerIds(cs[i]));
  }

  /** `_build_messages`. The result is `None` only where an entry needs a
      fresh ID and every ID is taken, so that the source would never return. */
  method BuildMessages(cs: seq<Content>, idMap: map<string, string>, rng: Rng, dumps: Json -> string)
    returns (msgs: Option<seq<WireMessage>>, idMap': map<string, string>, rng': Rng)
    requires Fair(rng.pick)
    ensures msgs.Some? ==> msgs.value == BuildWith(cs, idMap', dumps)
    ensures msgs.Some? ==> Covers(AllCallerIds(cs), idMap')
    ensures msgs.Some? ==> idMap'.Keys == idMap.Keys + Replaced(AllCallerIds(cs))
    ensures msgs.None? ==> IdSpaceFull(idMap'.Values) && exists o :: o in AllCallerIds(cs) && NeedsFreshId(o, idMap')
    ensures Extends(idMap, idMap')
    ensures Injective(idMap) ==> Injective(idMap')
    ensures RemoteValues(idMap) ==> RemoteValues(idMap')
    ensures rng'.pick == rng.pick
  {
    var acc: seq<WireMessage> := [];
    idMap', rng' := idMap, rng;
    for i := 0 to |cs|
      invariant EntriesPrefixDone(cs, i, acc, idMap, idMap', rng.pick, rng', dumps)
    {
      var ok;
      ok, acc, idMap', rng' := BuildNext(cs, i, acc, idMap, idMap', rng.pick, rng', dumps);
      if !ok {
        CallerIdsWithin(cs, i);
        return None, idMap', rng';
      }
    }
    assert cs[..|cs|] == cs;
    msgs := Some(acc);
  }

  /** Entry i's caller IDs are among those of the whole history. */
  lemma {:induction false} CallerIdsWithin(cs: seq<Content>, i: nat)
    requires i < |cs|
    ensures forall o :: o in CallerIds(cs[i]) ==> o in AllCallerIds(cs)
  {
    var init := cs[..|cs| - 1];
    if i < |cs| - 1 {
      CallerIdsWithin(init, i);
      assert init[i] == cs[i];
    }
  }

  // ---------------------------------------------------------------------------
  // What the conversion guarantees

  /** The number of entries that produce no message: plain turns with empty text. */
  function SilentEntries(cs: seq<Content>): nat {
    if cs == [] then 0
    else SilentEntries(cs[..|cs| - 1]) + (if cs[|cs| - 1].PlainContent? && cs[|cs| - 1].text == "" then 1 else 0)
  }

  /** Every entry yields exactly one message, except empty plain turns, which yield none. */
  lemma {:induction false} BuildCount(cs: seq<Content>, m: map<string, string>, dumps: Json -> string)
    ensures |BuildWith(cs, m, dumps)| == |cs| - SilentEntries(cs)
  {
    if cs != [] {
      BuildCount(cs[..|cs| - 1], m, dumps);
    }
  }

  /** Building is concatenation over the history. */
  lemma {:induction false} BuildAppend(a: seq<Content>, b: seq<Content>, m: map<string, string>, dumps: Json -> string)
    ensures BuildWith(a + b, m, dumps) == BuildWith(a, m, dumps) + BuildWith(b, m, dumps)
  {
    if b == [] {
      assert a + b == a;
    } else {
      var init, last := b[..|b| - 1], b[|b| - 1];
      assert (a + b)[..|a + b| - 1] == a + init && (a + b)[|a + b| - 1] == last;
      calc {
        BuildWith(a + b, m, dumps);
        BuildWith(a + init, m, dumps) + ConvertWith(last, m, dumps);
        { BuildAppend(a, init, m, dumps); }
        BuildWith(a, m, dumps) + BuildWith(init, m, dumps) + ConvertWith(last, m, dumps);
        BuildWith(a, m, dumps) + BuildWith(b, m, dumps);
      }
    }
  }

  /** The messages of entry i sit, in order, right after those of the entries before it. */
  lemma EntryMessagesInPlace(cs: seq<Content>, i: nat, m: map<string, string>, dumps: Json -> string)
    requires i < |cs|
    ensures var before := |BuildWith(cs[..i], m, dumps)|;
      && before + |ConvertWith(cs[i], m, dumps)| <= |BuildWith(cs, m, dumps)|
      && BuildWith(cs, m, dumps)[before..before + |ConvertWith(cs[i], m, dumps)|] == ConvertWith(cs[i], m, dumps)
  {
    assert cs == cs[..i] + ([cs[i]] + cs[i + 1..]);
    BuildAppend(cs[..i], [cs[i]] + cs[i + 1..], m, dumps);
    BuildAppend([cs[i]], cs[i + 1..], m, dumps);
    assert BuildWith([cs[i]], m, dumps) == ConvertWith(cs[i], m, dumps) by {
      assert [cs[i]][..0] == [];
    }
  }

  /** A tool result and the assistant tool call it answers carry the same
      wire ID: both are translated through the same map. */
  lemma CallAndResultAgree(a: Content, k: nat, t: Content, m: map<string, string>, dumps: Json -> string)
    requires a.AssistantContent? && k < |a.toolCalls| && t.ToolResultContent?
    requires t.toolCallId == a.toolCalls[k].id
    ensures ConvertWith(a, m, dumps)[0].toolCalls.Some?
    ensures ConvertWith(t, m, dumps)[0].toolCallId == Some(ConvertWith(a, m, dumps)[0].toolCalls.value[k].id)
  {
  }

  /** Two different replaced caller IDs never share a wire ID. */
  lemma ReplacedIdsStayApart(o1: string, o2: string, m: map<string, string>)
    requires Injective(m) && o1 != o2
    requires !IsMistralId(o1) && !IsMistralId(o2) && o1 in m && o2 in m
    ensures WireId(o1, m) != WireId(o2, m)
  {
  }

  /** Every wire ID sent for a covered caller ID has the remote syntax. */
  lemma WireIdsAreRemote(o: string, m: map<string, string>)
    requires RemoteValues(m) && Resolve(o, m).Some?
    ensures IsMistralId(WireId(o, m))
  {
  }

  /** The tool inputs of a blocking reply: arguments parsed as JSON, `{}` on
      failure, the wire ID taken as it is. */
  function FromWireToolCalls(wcs: seq<WireToolCall>, loads: string -> Option<Json>): (calls: seq<ToolCall>)
    ensures |calls| == |wcs|
  {
    seq(|wcs|, i requires 0 <= i < |wcs| => ToolCall(wcs[i].id, wcs[i].name, ParseOrEmpty(loads, wcs[i].arguments)))
  }

  /** Sending tool calls and reading them back keeps names, arguments and
      order, and every replaced ID is found again by reverse lookup. */
  lemma ToolCallsRoundTrip(calls: seq<ToolCall>, m: map<string, string>, dumps: Json -> string, loads: string -> Option<Json>)
    requires LosslessCodec(dumps, loads)
    requires Injective(m) && Covers(CallIds(calls), m)
    ensures var back := FromWireToolCalls(WireCalls(calls, m, dumps), loads);
      && |back| == |calls|
      && forall i :: 0 <= i < |calls| ==>
           && back[i].toolName == calls[i].toolName
           && back[i].toolArgs == calls[i].toolArgs
           && back[i].id == WireId(calls[i].id, m)
           && (!IsMistralId(calls[i].id) ==> forall k :: k in m && m[k] == back[i].id ==> k == calls[i].id)
  {
    var back := FromWireToolCalls(WireCalls(calls, m, dumps), loads);
    forall i | 0 <= i < |calls|
      ensures back[i].toolArgs == calls[i].toolArgs
      ensures !IsMistralId(calls[i].id) ==> forall k :: k in m && m[k] == back[i].id ==> k == calls[i].id
    {
      assert loads(dumps(calls[i].toolArgs)) == Some(calls[i].toolArgs);
      assert calls[i].id in CallIds(calls);
    }
  }
}
