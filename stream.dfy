/** The stream decoder (`_transform_stream`): text fragments pass straight
    through, tool-call fragments are buffered per positional index, and a
    `finish_reason == "tool_calls"` emits the buffered calls in ascending
    index order and clears the buffers. */
module StreamDecoder {
  import opened Wrappers
  import opened Json
  import opened ToolIds
  import opened MessageCodec

  /** One entry of `delta["tool_calls"]`; the nested `function` object is
      flattened into `name` and `arguments`. */
  datatype Fragment = Fragment(index: Option<int>, id: Option<string>, name: Option<string>, arguments: Option<string>)

  /** `choice["delta"]`; `toolCalls == None` when the key is absent. */
  datatype Delta = Delta(content: Option<string>, toolCalls: Option<seq<Fragment>>)

  datatype Choice = Choice(delta: Delta, finishReason: Option<string>)

  datatype Chunk = Chunk(choices: seq<Choice>)

  /** A partially built tool call. */
  datatype Buf = Buf(id: string, name: string, arguments: string)

  /** `AssistantContentDeltaDict(content=...)` or `(tool_calls=...)`. */
  datatype DeltaEvent = ContentDelta(text: string) | ToolCallsDelta(calls: seq<ToolCall>)

  const EmptyBuf: Buf := Buf("", "", "")

  /** `tc.get("index", 0)` */
  function IndexOf(f: Fragment): int {
    f.index.GetOr(0)
  }

  function BufAt(bufs: map<int, Buf>, idx: int): Buf {
    if idx in bufs then bufs[idx] else EmptyBuf
  }

  /** The truthy value of an optional fragment field, or "". */
  function TextOr(s: Option<string>): string {
    if NonEmpty(s) then s.value else ""
  }

  /** `setdefault` and merge of one fragment: `id` and `name` overwritten by
      non-empty values, `arguments` appended. */
  function MergeFragment(bufs: map<int, Buf>, f: Fragment): map<int, Buf> {
    var b := BufAt(bufs, IndexOf(f));
    bufs[IndexOf(f) := Buf(if NonEmpty(f.id) then f.id.value else b.id,
                           if NonEmpty(f.name) then f.name.value else b.name,
                           b.arguments + TextOr(f.arguments))]
  }

  function MergeAll(bufs: map<int, Buf>, frags: seq<Fragment>): map<int, Buf> {
    if frags == [] then bufs else MergeFragment(MergeAll(bufs, frags[..|frags| - 1]), frags[|frags| - 1])
  }

  // ---------------------------------------------------------------------------
  // `sorted(tool_call_buffers)`

  predicate StrictlyIncreasing(s: seq<int>) {
    forall i, j :: 0 <= i < j < |s| ==> s[i] < s[j]
  }

  lemma EmptyOrHasElement(s: set<int>)
    ensures s == {} || exists y :: y in s
  {
    if forall y :: y !in s {
      assert s == {};
    }
  }

  predicate IsMin(x: int, s: set<int>) {
    x in s && forall y :: y in s ==> x <= y
  }

  lemma {:induction false} MinExists(s: set<int>)
    requires s != {}
    ensures exists x :: IsMin(x, s)
  {
    EmptyOrHasElement(s);
    var y :| y in s;
    var r := s - {y};
    if r == {} {
      assert s == {y};
      assert IsMin(y, s);
    } else {
      MinExists(r);
      var x :| IsMin(x, r);
      var m := if y < x then y else x;
      forall z | z in s ensures m <= z {
        if z != y { assert z in r; }
      }
      assert IsMin(m, s);
    }
  }

  function MinOf(s: set<int>): (x: int)
    requires s != {}
    ensures IsMin(x, s)
  {
    MinExists(s);
    var x :| IsMin(x, s);
    x
  }

  function SortedKeys(s: set<int>): (r: seq<int>)
    ensures StrictlyIncreasing(r)
    ensures |r| == |s|
    ensures forall x :: x in r <==> x in s
    decreases |s|
  {
    if s == {} then []
    else
      var x := MinOf(s);
      var rest := SortedKeys(s - {x});
      SortedCons(x, rest, s);
      [x] + rest
  }

  lemma SortedCons(x: int, rest: seq<int>, s: set<int>)
    requires IsMin(x, s)
    requires StrictlyIncreasing(rest) && |rest| == |s - {x}| && forall y :: y in rest <==> y in s - {x}
    ensures StrictlyIncreasing([x] + rest) && |[x] + rest| == |s|
    ensures forall y :: y in [x] + rest <==> y in s
  {
    forall i | 0 <= i < |rest| ensures x < rest[i] {
      assert rest[i] in rest;
    }
  }

  // ---------------------------------------------------------------------------
  // The decoder as a function of the stream, with tool-call IDs left blank.

  /** The calls a tool-calls finish emits, in ascending index order, before IDs are assigned. */
  function PendingCalls(bufs: map<int, Buf>, loads: string -> Option<Json>): (calls: seq<ToolCall>)
    ensures |calls| == |bufs|
  {
    var keys := SortedKeys(bufs.Keys);
    assert |bufs.Keys| == |bufs|;
    seq(|keys|, i requires 0 <= i < |keys| => ToolCall("", bufs[keys[i]].name, ParseOrEmpty(loads, bufs[keys[i]].arguments)))
  }

  predicate IsToolFinish(c: Choice) {
    c.finishReason == Some("tool_calls")
  }

  function FragmentsOf(c: Choice): seq<Fragment> {
    c.delta.toolCalls.GetOr([])
  }

  /** The decoder's buffers, and the events emitted so far. */
  datatype Decoded = Decoded(bufs: map<int, Buf>, events: seq<DeltaEvent>)

  /** The events one choice produces and the buffers it leaves. */
  function ChoiceStep(c: Choice, bufs: map<int, Buf>, loads: string -> Option<Json>): Decoded {
    var text := if NonEmpty(c.delta.content) then [ContentDelta(c.delta.content.value)] else [];
    var merged := MergeAll(bufs, FragmentsOf(c));
    if IsToolFinish(c) then Decoded(map[], text + [ToolCallsDelta(PendingCalls(merged, loads))])
    else Decoded(merged, text)
  }

  /** The buffers and events after a whole sequence of choices. */
  function Decode(cs: seq<Choice>, bufs: map<int, Buf>, loads: string -> Option<Json>): Decoded {
    if cs == [] then Decoded(bufs, [])
    else
      var d := Decode(cs[..|cs| - 1], bufs, loads);
      var step := ChoiceStep(cs[|cs| - 1], d.bufs, loads);
      Decoded(step.bufs, d.events + step.events)
  }

  function AllChoices(chunks: seq<Chunk>): seq<Choice> {
    if chunks == [] then [] else AllChoices(chunks[..|chunks| - 1]) + chunks[|chunks| - 1].choices
  }

  /** Events with every internal tool-call ID blanked. */
  function Anonymize(events: seq<DeltaEvent>): (r: seq<DeltaEvent>)
    ensures |r| == |events|
  {
    seq(|events|, i requires 0 <= i < |events| =>
      match events[i]
      case ContentDelta(t) => ContentDelta(t)
      case ToolCallsDelta(calls) => ToolCallsDelta(BlankIds(calls)))
  }

  function BlankIds(calls: seq<ToolCall>): (r: seq<ToolCall>)
    ensures |r| == |calls|
  {
    seq(|calls|, i requires 0 <= i < |calls| => calls[i].(id := ""))
  }

  lemma AnonymizeAppend(a: seq<DeltaEvent>, b: seq<DeltaEvent>)
    ensures Anonymize(a + b) == Anonymize(a) + Anonymize(b)
  {
  }

  lemma {:induction false} DecodeAppend(a: seq<Choice>, b: seq<Choice>, bufs: map<int, Buf>, loads: string -> Option<Json>)
    ensures var first := Decode(a, bufs, loads);
            var second := Decode(b, first.bufs, loads);
            Decode(a + b, bufs, loads) == Decoded(second.bufs, first.events + second.events)
  {
    var first := Decode(a, bufs, loads);
    if b == [] {
      assert a + b == a;
    } else {
      var init := b[..|b| - 1];
      assert (a + b)[..|a + b| - 1] == a + init;
      assert (a + b)[|a + b| - 1] == b[|b| - 1];
      DecodeAppend(a, init, bufs, loads);
      var mid := Decode(init, first.bufs, loads);
      var step := ChoiceStep(b[|b| - 1], mid.bufs, loads);
      assert Decode(b, first.bufs, loads) == Decoded(step.bufs, mid.events + step.events);
      assert Decode(a + b, bufs, loads) == Decoded(step.bufs, (first.events + mid.events) + step.events);
    }
  }

  // ---------------------------------------------------------------------------
  // The decoder as the source runs it

  /** Every tool-call ID the events carry is a key of `m`. */
  ghost predicate IdsKnown(events: seq<DeltaEvent>, m: map<string, string>) {
    forall i, j :: 0 <= i < |events| && events[i].ToolCallsDelta? && 0 <= j < |events[i].calls| ==> events[i].calls[j].id in m
  }

  /** The inner fragment loop: `setdefault`, overwrite `id`/`name`, append `arguments`. */
  method MergeFragments(bufs: map<int, Buf>, frags: seq<Fragment>) returns (bufs': map<int, Buf>)
    ensures bufs' == MergeAll(bufs, frags)
  {
    bufs' := bufs;
    for i := 0 to |frags|
      invariant bufs' == MergeAll(bufs, frags[..i])
    {
      MergeAllSnoc(bufs, frags, i);
      var f := frags[i];
      var idx := f.index.GetOr(0);
      var b := if idx in bufs' then bufs'[idx] else Buf("", "", "");
      ghost var old_b := b;
      if f.id.Some? && f.id.value != "" { b := b.(id := f.id.value); }
      if f.name.Some? && f.name.value != "" { b := b.(name := f.name.value); }
      if f.arguments.Some? && f.arguments.value != "" { b := b.(arguments := b.arguments + f.arguments.value); }
      assert b == Buf(if NonEmpty(f.id) then f.id.value else old_b.id,
                      if NonEmpty(f.name) then f.name.value else old_b.name,
                      old_b.arguments + TextOr(f.arguments));
      bufs' := bufs'[idx := b];
    }
    assert frags[..|frags|] == frags;
  }

  lemma MergeAllSnoc(bufs: map<int, Buf>, frags: seq<Fragment>, i: nat)
    requires i < |frags|
    ensures MergeAll(bufs, frags[..i + 1]) == MergeFragment(MergeAll(bufs, frags[..i]), frags[i])
  {
    assert frags[..i + 1][..i] == frags[..i];
  }

  /** `next((k for k, v in id_map.items() if v == wire), secrets.token_hex(8))`:
      a key already mapped to the wire ID, else a fresh token. The default
      argument is evaluated first, so a token is drawn in both cases. */
  method InternalIdFor(wire: string, idMap: map<string, string>, rng: Rng) returns (k: string, rng': Rng)
    ensures wire in idMap.Values ==> k in idMap && idMap[k] == wire
    ensures wire !in idMap.Values ==> k == Draws(rng, HexDigits, 16) && IsHexToken(k)
    ensures rng' == Skip(rng, 16)
  {
    var token;
    token, rng' := TokenHex(rng);
    if wire in idMap.Values {
      k :| k in idMap && idMap[k] == wire;
    } else {
      k := token;
    }
  }

  /** `id_map[int_id] = wire`, with `int_id` chosen as `InternalIdFor` does. */
  ghost predicate Recorded(m: map<string, string>, wire: string, k: string, m': map<string, string>) {
    && m' == m[k := wire]
    && ((k in m && m[k] == wire) || (wire !in m.Values && IsHexToken(k)))
  }

  lemma RecordedKeepsInjective(m: map<string, string>, wire: string, k: string, m': map<string, string>)
    requires Injective(m) && Recorded(m, wire, k, m')
    ensures Injective(m')
  {
    if k in m && m[k] == wire {
      assert m' == m;
    } else {
      forall a, b | a in m' && b in m' && a != b ensures m'[a] != m'[b] {
        if a == k {
          assert m'[b] == m[b];
        } else if b == k {
          assert m'[a] == m[a];
        }
      }
    }
  }

  /** `maps` is the history of the map while `calls` were emitted for `keys`. */
  ghost predicate RecordChain(bufs: map<int, Buf>, keys: seq<int>, calls: seq<ToolCall>, maps: seq<map<string, string>>) {
    && |calls| <= |keys| && |maps| == |calls| + 1
    && (forall j :: 0 <= j < |calls| ==> keys[j] in bufs)
    && forall j :: 0 <= j < |calls| ==> Recorded(maps[j], bufs[keys[j]].id, calls[j].id, maps[j + 1])
  }

  /** The wire IDs of the buffered calls, in ascending index order. */
  function PendingWireIds(bufs: map<int, Buf>): (ws: seq<string>)
    ensures |ws| == |SortedKeys(bufs.Keys)|
  {
    var keys := SortedKeys(bufs.Keys);
    seq(|keys|, i requires 0 <= i < |keys| => bufs[keys[i]].id)
  }

  /** Internal ID i maps back to wire ID i. */
  ghost predicate MapsBack(m: map<string, string>, calls: seq<ToolCall>, wires: seq<string>) {
    |calls| == |wires| && forall i :: 0 <= i < |calls| ==> calls[i].id in m && m[calls[i].id] == wires[i]
  }

  /** No drawn token collides with a key already in the map: a key chosen
      for call j that is already present maps to that call's wire ID. */
  ghost predicate NoTokenClash(bufs: map<int, Buf>, keys: seq<int>, calls: seq<ToolCall>, maps: seq<map<string, string>>)
    requires RecordChain(bufs, keys, calls, maps)
  {
    forall j :: 0 <= j < |calls| && calls[j].id in maps[j] ==> maps[j][calls[j].id] == bufs[keys[j]].id
  }

  /** Along the chain, every emitted internal ID keeps mapping to the wire ID
      of the buffer it was emitted for. */
  lemma {:induction false} ChainMapsBack(bufs: map<int, Buf>, keys: seq<int>, calls: seq<ToolCall>,
                                         maps: seq<map<string, string>>, n: nat)
    requires RecordChain(bufs, keys, calls, maps) && NoTokenClash(bufs, keys, calls, maps)
    requires n <= |calls|
    ensures forall j :: 0 <= j < n ==> calls[j].id in maps[n] && maps[n][calls[j].id] == bufs[keys[j]].id
  {
    if n > 0 {
      ChainMapsBack(bufs, keys, calls, maps, n - 1);
      assert Recorded(maps[n - 1], bufs[keys[n - 1]].id, calls[n - 1].id, maps[n]);
      forall j | 0 <= j < n ensures calls[j].id in maps[n] && maps[n][calls[j].id] == bufs[keys[j]].id {
        if j < n - 1 && calls[j].id == calls[n - 1].id {
          assert maps[n - 1][calls[n - 1].id] == bufs[keys[n - 1]].id;
        }
      }
    }
  }

  /** The state after emitting the calls for `keys[..|calls|]`. */
  ghost predicate FlushPrefixDone(bufs: map<int, Buf>, keys: seq<int>, calls: seq<ToolCall>, m0: map<string, string>,
                                  m: map<string, string>, maps: seq<map<string, string>>, pick: nat -> nat, rng: Rng,
                                  loads: string -> Option<Json>) {
    && (forall j :: 0 <= j < |keys| ==> keys[j] in bufs)
    && RecordChain(bufs, keys, calls, maps)
    && maps[0] == m0 && maps[|calls|] == m
    && (forall j :: 0 <= j < |calls| ==> calls[j].(id := "") == ToolCall("", bufs[keys[j]].name, ParseOrEmpty(loads, bufs[keys[j]].arguments)))
    && (Injective(m0) ==> Injective(m))
    && m0.Keys <= m.Keys
    && (forall j :: 0 <= j < |calls| ==> calls[j].id in m)
    && rng.pick == pick
  }

  /** One pass of the emission loop. */
  method FlushNext(bufs: map<int, Buf>, keys: seq<int>, calls: seq<ToolCall>, ghost m0: map<string, string>,
                   idMap: map<string, string>, ghost maps: seq<map<string, string>>, ghost pick: nat -> nat, rng: Rng,
                   loads: string -> Option<Json>)
    returns (calls': seq<ToolCall>, idMap': map<string, string>, ghost maps': seq<map<string, string>>, rng': Rng)
    requires |calls| < |keys|
    requires FlushPrefixDone(bufs, keys, calls, m0, idMap, maps, pick, rng, loads)
    ensures FlushPrefixDone(bufs, keys, calls', m0, idMap', maps', pick, rng', loads)
    ensures |calls'| == |calls| + 1
  {
    var i := |calls|;
    var buf := bufs[keys[i]];
    var args := ParseOrEmpty(loads, buf.arguments);
    var k;
    k, rng' := InternalIdFor(buf.id, idMap, rng);
    idMap' := idMap[k := buf.id];
    assert Recorded(idMap, buf.id, k, idMap');
    if Injective(m0) {
      RecordedKeepsInjective(idMap, buf.id, k, idMap');
    }
    calls' := calls + [ToolCall(k, buf.name, args)];
    maps' := maps + [idMap'];
    assert forall j :: 0 <= j < i ==> calls'[j] == calls[j];
    assert forall j :: 0 <= j <= i ==> maps'[j] == maps[j];
  }

  /** Emission on `finish_reason == "tool_calls"`: one tool input per
      buffered index, ascending, arguments parsed (`{}` on failure), and the
      internal-to-wire ID recorded in the map. */
  method FlushToolCalls(bufs: map<int, Buf>, idMap: map<string, string>, rng: Rng, loads: string -> Option<Json>)
    returns (calls: seq<ToolCall>, idMap': map<string, string>, rng': Rng, ghost maps: seq<map<string, string>>)
    ensures BlankIds(calls) == PendingCalls(bufs, loads)
    ensures RecordChain(bufs, SortedKeys(bufs.Keys), calls, maps)
    ensures maps[0] == idMap && maps[|calls|] == idMap'
    ensures Injective(idMap) ==> Injective(idMap')
    ensures idMap.Keys <= idMap'.Keys
    ensures forall i :: 0 <= i < |calls| ==> calls[i].id in idMap'
    ensures NoTokenClash(bufs, SortedKeys(bufs.Keys), calls, maps) ==> MapsBack(idMap', calls, PendingWireIds(bufs))
    ensures rng'.pick == rng.pick
  {
    var keys := SortedKeys(bufs.Keys);
    calls, idMap', rng', maps := [], idMap, rng, [idMap];
    while |calls| < |keys|
      invariant |calls| <= |keys|
      invariant FlushPrefixDone(bufs, keys, calls, idMap, idMap', maps, rng.pick, rng', loads)
      decreases |keys| - |calls|
    {
      calls, idMap', maps, rng' := FlushNext(bufs, keys, calls, idMap, idMap', maps, rng.pick, rng', loads);
    }
    FlushComplete(bufs, calls, idMap', maps, loads);
  }

  /** Once every buffered index has been emitted, the calls are the pending
      ones and, without token collisions, each maps back to its wire ID. */
  lemma FlushComplete(bufs: map<int, Buf>, calls: seq<ToolCall>, m: map<string, string>,
                      maps: seq<map<string, string>>, loads: string -> Option<Json>)
    requires |calls| == |SortedKeys(bufs.Keys)| && RecordChain(bufs, SortedKeys(bufs.Keys), calls, maps)
    requires maps[|calls|] == m
    requires forall j :: 0 <= j < |calls| ==>
               calls[j].(id := "") == ToolCall("", bufs[SortedKeys(bufs.Keys)[j]].name,
                                                ParseOrEmpty(loads, bufs[SortedKeys(bufs.Keys)[j]].arguments))
    ensures BlankIds(calls) == PendingCalls(bufs, loads)
    ensures NoTokenClash(bufs, SortedKeys(bufs.Keys), calls, maps) ==> MapsBack(m, calls, PendingWireIds(bufs))
  {
    FlushPending(bufs, calls, loads);
    if NoTokenClash(bufs, SortedKeys(bufs.Keys), calls, maps) {
      FlushMapsBack(bufs, calls, m, maps);
    }
  }

  lemma FlushPending(bufs: map<int, Buf>, calls: seq<ToolCall>, loads: string -> Option<Json>)
    requires |calls| == |SortedKeys(bufs.Keys)|
    requires forall j :: 0 <= j < |calls| ==> SortedKeys(bufs.Keys)[j] in bufs
    requires forall j :: 0 <= j < |calls| ==>
               calls[j].(id := "") == ToolCall("", bufs[SortedKeys(bufs.Keys)[j]].name,
                                                ParseOrEmpty(loads, bufs[SortedKeys(bufs.Keys)[j]].arguments))
    ensures BlankIds(calls) == PendingCalls(bufs, loads)
  {
    assert |bufs.Keys| == |bufs|;
  }

  lemma FlushMapsBack(bufs: map<int, Buf>, calls: seq<ToolCall>, m: map<string, string>, maps: seq<map<string, string>>)
    requires |calls| == |SortedKeys(bufs.Keys)| && RecordChain(bufs, SortedKeys(bufs.Keys), calls, maps)
    requires maps[|calls|] == m
    requires NoTokenClash(bufs, SortedKeys(bufs.Keys), calls, maps)
    ensures MapsBack(m, calls, PendingWireIds(bufs))
  {
    ChainMapsBack(bufs, SortedKeys(bufs.Keys), calls, maps, |calls|);
  }

  /** One choice of one chunk. */
  method ProcessChoice(c: Choice, bufs: map<int, Buf>, idMap: map<string, string>, rng: Rng, loads: string -> Option<Json>)
    returns (events: seq<DeltaEvent>, bufs': map<int, Buf>, idMap': map<string, string>, rng': Rng)
    ensures Decoded(bufs', Anonymize(events)) == ChoiceStep(c, bufs, loads)
    ensures Injective(idMap) ==> Injective(idMap')
    ensures idMap.Keys <= idMap'.Keys
    ensures IdsKnown(events, idMap')
    ensures rng'.pick == rng.pick
  {
    var delta := c.delta;
    var text: seq<DeltaEvent> := [];
    if delta.content.Some? && delta.content.value != "" {
      text := [ContentDelta(delta.content.value)];
    }
    bufs' := bufs;
    if delta.toolCalls.Some? {
      bufs' := MergeFragments(bufs, delta.toolCalls.value);
    }
    assert bufs' == MergeAll(bufs, FragmentsOf(c));
    idMap', rng' := idMap, rng;
    if c.finishReason == Some("tool_calls") {
      ghost var maps;
      events, idMap', rng', maps := FinishChoice(text, bufs', idMap, rng, loads);
      bufs' := map[];
    } else {
      assert Anonymize(text) == text;
      events := text;
    }
  }

  /** A `tool_calls` finish: the choice's text, then the flushed batch. */
  method FinishChoice(text: seq<DeltaEvent>, bufs: map<int, Buf>, idMap: map<string, string>, rng: Rng, loads: string -> Option<Json>)
    returns (events: seq<DeltaEvent>, idMap': map<string, string>, rng': Rng, ghost maps: seq<map<string, string>>)
    requires forall i :: 0 <= i < |text| ==> text[i].ContentDelta?
    requires Anonymize(text) == text
    ensures Anonymize(events) == text + [ToolCallsDelta(PendingCalls(bufs, loads))]
    ensures |events| == |text| + 1 && events[|text|].ToolCallsDelta?
    ensures RecordChain(bufs, SortedKeys(bufs.Keys), events[|text|].calls, maps)
    ensures NoTokenClash(bufs, SortedKeys(bufs.Keys), events[|text|].calls, maps) ==>
              MapsBack(idMap', events[|text|].calls, PendingWireIds(bufs))
    ensures Injective(idMap) ==> Injective(idMap')
    ensures idMap.Keys <= idMap'.Keys
    ensures IdsKnown(events, idMap')
    ensures rng'.pick == rng.pick
  {
    var calls;
    calls, idMap', rng', maps := FlushToolCalls(bufs, idMap, rng, loads);
    events := text + [ToolCallsDelta(calls)];
    AnonymizeAppend(text, [ToolCallsDelta(calls)]);
    assert Anonymize([ToolCallsDelta(calls)]) == [ToolCallsDelta(PendingCalls(bufs, loads))];
  }

  /** `for choice in chunk.get("choices", [])` */
  method ProcessChunk(chunk: Chunk, bufs: map<int, Buf>, idMap: map<string, string>, rng: Rng, loads: string -> Option<Json>)
    returns (events: seq<DeltaEvent>, bufs': map<int, Buf>, idMap': map<string, string>, rng': Rng)
    ensures Decoded(bufs', Anonymize(events)) == Decode(chunk.choices, bufs, loads)
    ensures Injective(idMap) ==> Injective(idMap')
    ensures idMap.Keys <= idMap'.Keys
    ensures IdsKnown(events, idMap')
    ensures rng'.pick == rng.pick
  {
    var cs := chunk.choices;
    events, bufs', idMap', rng' := [], bufs, idMap, rng;
    for i := 0 to |cs|
      invariant Decoded(bufs', Anonymize(events)) == Decode(cs[..i], bufs, loads)
      invariant Injective(idMap) ==> Injective(idMap')
      invariant idMap.Keys <= idMap'.Keys
      invariant IdsKnown(events, idMap')
      invariant rng'.pick == rng.pick
    {
      assert cs[..i + 1][..i] == cs[..i];
      var e;
      e, bufs', idMap', rng' := ProcessChoice(cs[i], bufs', idMap', rng', loads);
      AnonymizeAppend(events, e);
      events := events + e;
    }
    assert cs[..|cs|] == cs;
  }

  /** `_transform_stream` over a finite stream of chunks. */
  method TransformStream(chunks: seq<Chunk>, idMap: map<string, string>, rng: Rng, loads: string -> Option<Json>)
    returns (events: seq<DeltaEvent>, idMap': map<string, string>, rng': Rng)
    ensures Anonymize(events) == Decode(AllChoices(chunks), map[], loads).events
    ensures Injective(idMap) ==> Injective(idMap')
    ensures idMap.Keys <= idMap'.Keys
    ensures IdsKnown(events, idMap')
    ensures rng'.pick == rng.pick
  {
    var bufs: map<int, Buf> := map[];
    events, idMap', rng' := [], idMap, rng;
    for i := 0 to |chunks|
      invariant Decoded(bufs, Anonymize(events)) == Decode(AllChoices(chunks[..i]), map[], loads)
      invariant Injective(idMap) ==> Injective(idMap')
      invariant idMap.Keys <= idMap'.Keys
      invariant IdsKnown(events, idMap')
      invariant rng'.pick == rng.pick
    {
      assert chunks[..i + 1][..i] == chunks[..i];
      DecodeAppend(AllChoices(chunks[..i]), chunks[i].choices, map[], loads);
      var e;
      e, bufs, idMap', rng' := ProcessChunk(chunks[i], bufs, idMap', rng', loads);
      AnonymizeAppend(events, e);
      events := events + e;
    }
    assert chunks[..|chunks|] == chunks;
  }

  // ---------------------------------------------------------------------------
  // What the decoder guarantees

  /** The argument text that the fragments for index `idx` carry, in order. */
  function ArgsAt(frags: seq<Fragment>, idx: int): string {
    if frags == [] then ""
    else ArgsAt(frags[..|frags| - 1], idx) + (if IndexOf(frags[|frags| - 1]) == idx then TextOr(frags[|frags| - 1].arguments) else "")
  }

  /** The last non-empty `id` among the fragments for `idx`, else `dflt`. */
  function LastIdAt(frags: seq<Fragment>, idx: int, dflt: string): string {
    if frags == [] then dflt
    else if IndexOf(frags[|frags| - 1]) == idx && NonEmpty(frags[|frags| - 1].id) then frags[|frags| - 1].id.value
    else LastIdAt(frags[..|frags| - 1], idx, dflt)
  }

  /** The last non-empty `name` among the fragments for `idx`, else `dflt`. */
  function LastNameAt(frags: seq<Fragment>, idx: int, dflt: string): string {
    if frags == [] then dflt
    else if IndexOf(frags[|frags| - 1]) == idx && NonEmpty(frags[|frags| - 1].name) then frags[|frags| - 1].name.value
    else LastNameAt(frags[..|frags| - 1], idx, dflt)
  }

  /** Buffering, index by index: a buffer exists for every index that was
      seen; its `arguments` is the concatenation of the fragments' argument
      text, and its `id` and `name` are the last non-empty ones. */
  lemma {:induction false} MergeAllAt(bufs: map<int, Buf>, frags: seq<Fragment>, idx: int)
    ensures idx in MergeAll(bufs, frags) <==> idx in bufs || exists j :: 0 <= j < |frags| && IndexOf(frags[j]) == idx
    ensures BufAt(MergeAll(bufs, frags), idx) ==
              Buf(LastIdAt(frags, idx, BufAt(bufs, idx).id),
                  LastNameAt(frags, idx, BufAt(bufs, idx).name),
                  BufAt(bufs, idx).arguments + ArgsAt(frags, idx))
  {
    MergeAllKeys(bufs, frags, idx);
    MergeAllBuf(bufs, frags, idx);
  }

  lemma {:induction false} MergeAllKeys(bufs: map<int, Buf>, frags: seq<Fragment>, idx: int)
    ensures idx in MergeAll(bufs, frags) <==> idx in bufs || exists j :: 0 <= j < |frags| && IndexOf(frags[j]) == idx
  {
    if frags != [] {
      var init, last := frags[..|frags| - 1], frags[|frags| - 1];
      MergeAllKeys(bufs, init, idx);
      assert MergeAll(bufs, frags) == MergeFragment(MergeAll(bufs, init), last);
      if idx !in bufs && IndexOf(last) != idx && exists j :: 0 <= j < |frags| && IndexOf(frags[j]) == idx {
        var j :| 0 <= j < |frags| && IndexOf(frags[j]) == idx;
        assert init[j] == frags[j];
      }
    }
  }

  lemma MergeAllBuf(bufs: map<int, Buf>, frags: seq<Fragment>, idx: int)
    ensures BufAt(MergeAll(bufs, frags), idx) ==
              Buf(LastIdAt(frags, idx, BufAt(bufs, idx).id),
                  LastNameAt(frags, idx, BufAt(bufs, idx).name),
                  BufAt(bufs, idx).arguments + ArgsAt(frags, idx))
  {
    MergeAllId(bufs, frags, idx);
    MergeAllName(bufs, frags, idx);
    MergeAllArgs(bufs, frags, idx);
  }

  lemma {:induction false} MergeAllId(bufs: map<int, Buf>, frags: seq<Fragment>, idx: int)
    ensures BufAt(MergeAll(bufs, frags), idx).id == LastIdAt(frags, idx, BufAt(bufs, idx).id)
  {
    if frags != [] {
      var init, last := frags[..|frags| - 1], frags[|frags| - 1];
      MergeAllId(bufs, init, idx);
      MergeFragmentAt(MergeAll(bufs, init), last, idx);
    }
  }

  lemma {:induction false} MergeAllName(bufs: map<int, Buf>, frags: seq<Fragment>, idx: int)
    ensures BufAt(MergeAll(bufs, frags), idx).name == LastNameAt(frags, idx, BufAt(bufs, idx).name)
  {
    if frags != [] {
      var init, last := frags[..|frags| - 1], frags[|frags| - 1];
      MergeAllName(bufs, init, idx);
      MergeFragmentAt(MergeAll(bufs, init), last, idx);
    }
  }

  lemma {:induction false} MergeAllArgs(bufs: map<int, Buf>, frags: seq<Fragment>, idx: int)
    ensures BufAt(MergeAll(bufs, frags), idx).arguments == BufAt(bufs, idx).arguments + ArgsAt(frags, idx)
  {
    if frags != [] {
      var init, last := frags[..|frags| - 1], frags[|frags| - 1];
      MergeAllArgs(bufs, init, idx);
      var step := if IndexOf(last) == idx then TextOr(last.arguments) else "";
      MergeFragmentArgs(MergeAll(bufs, init), last, idx);
      assert ArgsAt(frags, idx) == ArgsAt(init, idx) + step;
      var a0, rest := BufAt(bufs, idx).arguments, ArgsAt(init, idx);
      assert a0 + rest + step == a0 + (rest + step);
    }
  }

  /** The arguments text of one merge step, as one appended piece. */
  lemma MergeFragmentArgs(m: map<int, Buf>, f: Fragment, idx: int)
    ensures BufAt(MergeFragment(m, f), idx).arguments ==
              BufAt(m, idx).arguments + (if IndexOf(f) == idx then TextOr(f.arguments) else "")
  {
    if IndexOf(f) != idx {
      assert BufAt(m, idx).arguments + "" == BufAt(m, idx).arguments;
    }
  }

  /** Merging one fragment changes only the buffer of its own index. */
  lemma MergeFragmentAt(m: map<int, Buf>, f: Fragment, idx: int)
    ensures BufAt(MergeFragment(m, f), idx) ==
              if IndexOf(f) == idx then
                Buf(if NonEmpty(f.id) then f.id.value else BufAt(m, idx).id,
                    if NonEmpty(f.name) then f.name.value else BufAt(m, idx).name,
                    BufAt(m, idx).arguments + TextOr(f.arguments))
              else BufAt(m, idx)
  {
  }

  /** The text of the content events, in order. */
  function TextOf(events: seq<DeltaEvent>): string {
    if events == [] then ""
    else TextOf(events[..|events| - 1]) + (if events[|events| - 1].ContentDelta? then events[|events| - 1].text else "")
  }

  /** The text the choices carry. */
  function StreamText(cs: seq<Choice>): string {
    if cs == [] then "" else StreamText(cs[..|cs| - 1]) + TextOr(cs[|cs| - 1].delta.content)
  }

  /** The number of tool-calls finishes among the choices. */
  function ToolFinishes(cs: seq<Choice>): nat {
    if cs == [] then 0 else ToolFinishes(cs[..|cs| - 1]) + (if IsToolFinish(cs[|cs| - 1]) then 1 else 0)
  }

  /** The number of tool-call events. */
  function ToolEvents(events: seq<DeltaEvent>): nat {
    if events == [] then 0 else ToolEvents(events[..|events| - 1]) + (if events[|events| - 1].ToolCallsDelta? then 1 else 0)
  }

  lemma {:induction false} TextOfAppend(a: seq<DeltaEvent>, b: seq<DeltaEvent>)
    ensures TextOf(a + b) == TextOf(a) + TextOf(b)
    ensures ToolEvents(a + b) == ToolEvents(a) + ToolEvents(b)
  {
    if b == [] {
      assert a + b == a;
    } else {
      assert (a + b)[..|a + b| - 1] == a + b[..|b| - 1];
      TextOfAppend(a, b[..|b| - 1]);
    }
  }

  /** Text deltas pass straight through: the emitted text is exactly the
      stream's non-empty content, in order, and there is one tool-call
      event per tool-calls finish. */
  lemma {:induction false} DecodeTextAndBatches(cs: seq<Choice>, bufs: map<int, Buf>, loads: string -> Option<Json>)
    ensures TextOf(Decode(cs, bufs, loads).events) == StreamText(cs)
    ensures ToolEvents(Decode(cs, bufs, loads).events) == ToolFinishes(cs)
  {
    if cs != [] {
      var init, c := cs[..|cs| - 1], cs[|cs| - 1];
      DecodeTextAndBatches(init, bufs, loads);
      var d := Decode(init, bufs, loads);
      var step := ChoiceStep(c, d.bufs, loads);
      assert Decode(cs, bufs, loads).events == d.events + step.events;
      TextOfAppend(d.events, step.events);
      StepTextAndBatches(c, d.bufs, loads);
    }
  }

  /** One choice emits its own non-empty content as text, and one tool-call
      event exactly when it is a tool-calls finish. */
  lemma StepTextAndBatches(c: Choice, bufs: map<int, Buf>, loads: string -> Option<Json>)
    ensures TextOf(ChoiceStep(c, bufs, loads).events) == TextOr(c.delta.content)
    ensures ToolEvents(ChoiceStep(c, bufs, loads).events) == if IsToolFinish(c) then 1 else 0
  {
    var text: seq<DeltaEvent> := if NonEmpty(c.delta.content) then [ContentDelta(c.delta.content.value)] else [];
    assert TextOf(text) == TextOr(c.delta.content) && ToolEvents(text) == 0 by {
      if text != [] { assert text[..0] == []; }
    }
    if IsToolFinish(c) {
      var e := [ToolCallsDelta(PendingCalls(MergeAll(bufs, FragmentsOf(c)), loads))];
      TextOfAppend(text, e);
      assert e[..0] == [];
    }
  }

  /** After a tool-calls finish the buffers are empty; a plain stop leaves
      them as they were merged and emits no tool-call event. */
  lemma FinishClearsBuffers(c: Choice, bufs: map<int, Buf>, loads: string -> Option<Json>)
    ensures IsToolFinish(c) ==> ChoiceStep(c, bufs, loads).bufs == map[]
    ensures !IsToolFinish(c) ==> forall i :: 0 <= i < |ChoiceStep(c, bufs, loads).events| ==> ChoiceStep(c, bufs, loads).events[i].ContentDelta?
  {
  }

  /** Two fragments `{"a":1` and `}` at index 0 followed by a tool-calls
      finish produce one call whose arguments are the parsed whole, or `{}`
      when the joined text does not parse. */
  const ExampleFirst := Choice(Delta(None, Some([Fragment(Some(0), Some("aB3dE6gH9"), Some("light.turn_on"), Some("{\"a\":1"))])), None)
  const ExampleSecond := Choice(Delta(None, Some([Fragment(None, None, None, Some("}"))])), None)
  const ExampleFinish := Choice(Delta(None, None), Some("tool_calls"))

  lemma ExampleMerged()
    ensures MergeAll(MergeAll(map[], FragmentsOf(ExampleFirst)), FragmentsOf(ExampleSecond))
              == map[0 := Buf("aB3dE6gH9", "light.turn_on", "{\"a\":1}")]
  {
    var f0 := FragmentsOf(ExampleFirst)[0];
    var f1 := FragmentsOf(ExampleSecond)[0];
    assert FragmentsOf(ExampleFirst) == [f0] && FragmentsOf(ExampleSecond) == [f1];
    assert [f0][..0] == [] && [f1][..0] == [];
    assert NonEmpty(f0.id) && NonEmpty(f0.name) && TextOr(f0.arguments) == "{\"a\":1";
    assert "" + "{\"a\":1" == "{\"a\":1";
    var b1 := MergeFragment(map[], f0);
    assert b1 == map[0 := Buf("aB3dE6gH9", "light.turn_on", "{\"a\":1")];
    assert !NonEmpty(f1.id) && !NonEmpty(f1.name) && TextOr(f1.arguments) == "}";
    assert "{\"a\":1" + "}" == "{\"a\":1}";
  }

  lemma ExamplePending(loads: string -> Option<Json>)
    ensures PendingCalls(map[0 := Buf("aB3dE6gH9", "light.turn_on", "{\"a\":1}")], loads)
              == [ToolCall("", "light.turn_on", ParseOrEmpty(loads, "{\"a\":1}"))]
  {
    var b := map[0 := Buf("aB3dE6gH9", "light.turn_on", "{\"a\":1}")];
    assert b.Keys == {0};
    var keys := SortedKeys(b.Keys);
    assert keys[0] in b.Keys;
    assert keys == [0];
  }

  lemma SplitArgumentsExample(loads: string -> Option<Json>)
    ensures Decode([ExampleFirst, ExampleSecond, ExampleFinish], map[], loads).events
              == [ToolCallsDelta([ToolCall("", "light.turn_on", ParseOrEmpty(loads, "{\"a\":1}"))])]
  {
    ExampleDecodePrefix(loads);
    ExampleSteps(loads);
    DecodeSnoc([ExampleFirst, ExampleSecond], ExampleFinish, map[], loads);
    assert [ExampleFirst, ExampleSecond] + [ExampleFinish] == [ExampleFirst, ExampleSecond, ExampleFinish];
  }

  /** The first two choices only buffer. */
  lemma ExampleDecodePrefix(loads: string -> Option<Json>)
    ensures Decode([ExampleFirst, ExampleSecond], map[], loads) == Decoded(ExampleBuffers, [])
  {
    ExampleSteps(loads);
    DecodeSnoc([], ExampleFirst, map[], loads);
    assert [] + [ExampleFirst] == [ExampleFirst];
    DecodeSnoc([ExampleFirst], ExampleSecond, map[], loads);
    assert [ExampleFirst] + [ExampleSecond] == [ExampleFirst, ExampleSecond];
  }

  lemma DecodeSnoc(cs: seq<Choice>, c: Choice, bufs: map<int, Buf>, loads: string -> Option<Json>)
    ensures Decode(cs + [c], bufs, loads).events
              == Decode(cs, bufs, loads).events + ChoiceStep(c, Decode(cs, bufs, loads).bufs, loads).events
    ensures Decode(cs + [c], bufs, loads).bufs == ChoiceStep(c, Decode(cs, bufs, loads).bufs, loads).bufs
  {
    assert (cs + [c])[..|cs|] == cs;
  }

  const ExampleBuffers := map[0 := Buf("aB3dE6gH9", "light.turn_on", "{\"a\":1}")]

  lemma ExampleSteps(loads: string -> Option<Json>)
    ensures ChoiceStep(ExampleFirst, map[], loads) == Decoded(MergeAll(map[], FragmentsOf(ExampleFirst)), [])
    ensures ChoiceStep(ExampleSecond, MergeAll(map[], FragmentsOf(ExampleFirst)), loads) == Decoded(ExampleBuffers, [])
    ensures ChoiceStep(ExampleFinish, ExampleBuffers, loads).events
              == [ToolCallsDelta([ToolCall("", "light.turn_on", ParseOrEmpty(loads, "{\"a\":1}"))])]
  {
    ExampleMerged();
    ExamplePending(loads);
    assert FragmentsOf(ExampleFinish) == [];
  }
}
