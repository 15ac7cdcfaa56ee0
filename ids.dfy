/** The tool-ID reconciler: the remote API accepts only 9-character
    alphanumeric tool-call IDs, so caller-side IDs that do not have that
    shape are replaced by fresh random ones, remembered in a per-call map. */
module ToolIds {
  import opened Wrappers

  /** `string.ascii_letters + string.digits`, that is
      "abcdefghijklmnopqrstuvwxyzABCDEFGHIJKLMNOPQRSTUVWXYZ0123456789". */
  const Alphabet: string :=
    CharRange('a', 26) + CharRange('A', 26) + CharRange('0', 10)

  function CharRange(first: char, n: nat): (s: string)
    requires first as int + n <= 0xD800
    ensures |s| == n
    ensures forall i :: 0 <= i < n ==> s[i] as int == first as int + i
  {
    seq(n, i requires 0 <= i < n => (first as int + i) as char)
  }

  /** The digits `secrets.token_hex` writes. */
  const HexDigits: string := "0123456789abcdef"

  predicate IsAlnum(c: char) {
    'a' <= c <= 'z' || 'A' <= c <= 'Z' || '0' <= c <= '9'
  }

  /** The remote ID syntax `[A-Za-z0-9]{9}`, matched against the whole string. */
  predicate IsMistralId(s: string) {
    |s| == 9 && forall i :: 0 <= i < |s| ==> IsAlnum(s[i])
  }

  predicate IsHexToken(s: string) {
    |s| == 16 && forall i :: 0 <= i < |s| ==> s[i] in HexDigits
  }

  /** What `re.compile(r"^[A-Za-z0-9]{9}$").match` accepts as written: in
      Python `$` also matches just before one trailing newline. */
  predicate MatchesIdPatternAsWritten(s: string) {
    IsMistralId(s) || (|s| == 10 && IsMistralId(s[..9]) && s[9] == '\n')
  }

  /** The pattern as written lets a 10-character ID through unchanged. */
  lemma IdPatternAcceptsTrailingNewline()
    ensures MatchesIdPatternAsWritten("abcdefghi\n")
    ensures !IsMistralId("abcdefghi\n")
  {
    var s := "abcdefghi\n";
    assert s[..9] == "abcdefghi";
  }

  lemma AlphabetIsAlnum()
    ensures |Alphabet| == 62
    ensures forall i :: 0 <= i < |Alphabet| ==> IsAlnum(Alphabet[i])
  {
  }

  // ---------------------------------------------------------------------------
  // The random source (`secrets`) as an oracle: the i-th character choice
  // made by the process picks index `pick(i) % |alphabet|`.

  datatype Rng = Rng(pick: nat -> nat, pos: nat)

  /** `n` consecutive choices from `alpha`, starting where `rng` stands. */
  function Draws(rng: Rng, alpha: string, n: nat): (s: string)
    requires |alpha| > 0
    ensures |s| == n
    ensures forall j :: 0 <= j < n ==> s[j] in alpha
  {
    seq(n, j requires 0 <= j < n => alpha[rng.pick(rng.pos + j) % |alpha|])
  }

  function Skip(rng: Rng, n: nat): Rng {
    Rng(rng.pick, rng.pos + n)
  }

  lemma DrawsSnoc(rng: Rng, alpha: string, n: nat)
    requires |alpha| > 0
    ensures Draws(rng, alpha, n + 1) == Draws(rng, alpha, n) + [alpha[rng.pick(rng.pos + n) % |alpha|]]
  {
  }

  /** `secrets.choice(alpha)` */
  method Choice(rng: Rng, alpha: string) returns (c: char, rng': Rng)
    requires |alpha| > 0
    ensures c == alpha[rng.pick(rng.pos) % |alpha|] && c in alpha
    ensures rng' == Skip(rng, 1)
  {
    c := alpha[rng.pick(rng.pos) % |alpha|];
    rng' := Skip(rng, 1);
  }

  /** `"".join(secrets.choice(alphabet) for _ in range(count))` */
  method JoinChoices(rng: Rng, alpha: string, count: nat) returns (s: string, rng': Rng)
    requires |alpha| > 0
    ensures s == Draws(rng, alpha, count)
    ensures rng' == Skip(rng, count)
  {
    s, rng' := "", rng;
    for i := 0 to count
      invariant s == Draws(rng, alpha, i)
      invariant rng' == Skip(rng, i)
    {
      DrawsSnoc(rng, alpha, i);
      var c;
      c, rng' := Choice(rng', alpha);
      s := s + [c];
    }
  }

  /** `_gen_mistral_id`: nine choices from the alphanumeric alphabet. */
  method GenMistralId(rng: Rng) returns (id: string, rng': Rng)
    ensures id == Draws(rng, Alphabet, 9) && rng' == Skip(rng, 9)
    ensures IsMistralId(id)
  {
    AlphabetIsAlnum();
    id, rng' := JoinChoices(rng, Alphabet, 9);
  }

  /** `secrets.token_hex(8)`: sixteen hexadecimal digits. */
  method TokenHex(rng: Rng) returns (t: string, rng': Rng)
    ensures t == Draws(rng, HexDigits, 16) && rng' == Skip(rng, 16)
    ensures IsHexToken(t)
  {
    t, rng' := JoinChoices(rng, HexDigits, 16);
  }

  /** The k-th ID `_gen_mistral_id` would produce from position `pos` on. */
  function IdDraw(pick: nat -> nat, pos: nat, k: nat): string {
    Draws(Rng(pick, pos + 9 * k), Alphabet, 9)
  }

  ghost predicate FreshDrawExists(pick: nat -> nat, pos: nat, used: set<string>) {
    exists k: nat :: IdDraw(pick, pos, k) !in used
  }

  /** Every 9-character alphanumeric ID is in `used`: the regenerate loop
      could never find a fresh one. */
  ghost predicate IdSpaceFull(used: set<string>) {
    forall id :: IsMistralId(id) ==> id in used
  }

  /** The random source is fair: whenever some ID is still free, the IDs it
      generates from any position on eventually avoid the used ones (the
      regenerate-until-fresh loop ends with probability one). An oracle
      that cycles through a de Bruijn sequence of order 9 over the 62
      characters is fair, since 9 and 62^9 are coprime. */
  ghost predicate Fair(pick: nat -> nat) {
    forall pos: nat, used: set<string> {:trigger FreshDrawExists(pick, pos, used)} ::
      !IdSpaceFull(used) ==> FreshDrawExists(pick, pos, used)
  }

  /** All strings of `n` alphabet characters. */
  function AllIds(n: nat): set<string> {
    if n == 0 then {""} else set c, s | c in Alphabet && s in AllIds(n - 1) :: [c] + s
  }

  lemma AlnumInAlphabet(c: char)
    ensures c in Alphabet <==> IsAlnum(c)
  {
    if 'a' <= c <= 'z' {
      assert Alphabet[c as int - 'a' as int] == c;
    } else if 'A' <= c <= 'Z' {
      assert Alphabet[26 + c as int - 'A' as int] == c;
    } else if '0' <= c <= '9' {
      assert Alphabet[52 + c as int - '0' as int] == c;
    }
  }

  lemma AllIdsMembers(n: nat, s: string)
    ensures s in AllIds(n) <==> |s| == n && forall i :: 0 <= i < |s| ==> IsAlnum(s[i])
  {
    if s in AllIds(n) {
      AllIdsSound(n, s);
    }
    if |s| == n && forall i :: 0 <= i < |s| ==> IsAlnum(s[i]) {
      AllIdsComplete(n, s);
    }
  }

  lemma {:induction false} AllIdsSound(n: nat, s: string)
    requires s in AllIds(n)
    ensures |s| == n && forall i :: 0 <= i < |s| ==> IsAlnum(s[i])
  {
    if n > 0 {
      var c, t :| c in Alphabet && t in AllIds(n - 1) && s == [c] + t;
      AllIdsSound(n - 1, t);
      AlnumInAlphabet(c);
      assert forall i :: 1 <= i < |s| ==> s[i] == t[i - 1];
    }
  }

  lemma {:induction false} AllIdsComplete(n: nat, s: string)
    requires |s| == n && forall i :: 0 <= i < |s| ==> IsAlnum(s[i])
    ensures s in AllIds(n)
  {
    if n > 0 {
      AllIdsComplete(n - 1, s[1..]);
      AlnumInAlphabet(s[0]);
      assert s == [s[0]] + s[1..];
    }
  }

  /** The computable test `AllIds(9) <= used` decides whether the ID space is full. */
  lemma SpaceFullIff(used: set<string>)
    ensures IdSpaceFull(used) <==> AllIds(9) <= used
  {
    forall id ensures id in AllIds(9) <==> IsMistralId(id) {
      AllIdsMembers(9, id);
    }
  }

  /** Once the space is full, every ID the source would generate is taken. */
  lemma FullSpaceTakesEveryDraw(pick: nat -> nat, pos: nat, used: set<string>)
    requires IdSpaceFull(used)
    ensures forall k: nat :: IdDraw(pick, pos, k) in used
  {
    AlphabetIsAlnum();
    forall k: nat ensures IsMistralId(IdDraw(pick, pos, k)) {
      var d := IdDraw(pick, pos, k);
      forall i | 0 <= i < 9 ensures IsAlnum(d[i]) {
        AlnumInAlphabet(d[i]);
      }
    }
  }

  /** A full space holds every ID, so a map with fewer values than there are
      IDs always leaves room for a fresh one. */
  lemma FullSpaceIsLarge(used: set<string>)
    ensures IdSpaceFull(used) ==> |AllIds(9)| <= |used|
  {
    SpaceFullIff(used);
    if AllIds(9) <= used {
      assert used == AllIds(9) + (used - AllIds(9));
    }
  }

  /** An empty map leaves room: the space is not full. */
  lemma EmptyMapHasRoom()
    ensures !IdSpaceFull({})
  {
    assert IsMistralId("abcdefghi");
  }

  // ---------------------------------------------------------------------------
  // The identifier map

  ghost predicate Injective(m: map<string, string>) {
    forall a, b :: a in m && b in m && a != b ==> m[a] != m[b]
  }

  /** `m'` keeps every entry of `m`. */
  ghost predicate Extends(m: map<string, string>, m': map<string, string>) {
    forall k :: k in m ==> k in m' && m'[k] == m[k]
  }

  /** Every value the map issued has the remote syntax. */
  ghost predicate RemoteValues(m: map<string, string>) {
    forall k :: k in m ==> IsMistralId(m[k])
  }

  /** The wire ID a caller ID stands for once it has been normalized: itself
      when it already has the remote syntax, else its map entry. */
  function Resolve(o: string, m: map<string, string>): Option<string> {
    if IsMistralId(o) then Some(o) else if o in m then Some(m[o]) else None
  }

  /** Whether normalizing `o` against `m` has to issue a new ID. */
  predicate NeedsFreshId(o: string, m: map<string, string>) {
    !IsMistralId(o) && o !in m
  }

  lemma ExtendsTrans(m1: map<string, string>, m2: map<string, string>, m3: map<string, string>)
    requires Extends(m1, m2) && Extends(m2, m3)
    ensures Extends(m1, m3)
  {
  }

  lemma ResolveStable(o: string, m: map<string, string>, m': map<string, string>)
    requires Extends(m, m') && Resolve(o, m).Some?
    ensures Resolve(o, m') == Resolve(o, m)
  {
  }

  /** The regenerate-until-fresh loop of `_normalize_outgoing_tool_id`:
      draws IDs until one is not in `used`. */
  method FreshId(used: set<string>, rng: Rng) returns (r: string, rng': Rng)
    requires Fair(rng.pick) && !IdSpaceFull(used)
    ensures IsMistralId(r) && r !in used
    ensures rng'.pick == rng.pick && rng'.pos > rng.pos
    ensures exists k: nat :: r == IdDraw(rng.pick, rng.pos, k) && rng' == Skip(rng, 9 * (k + 1))
              && forall j :: 0 <= j < k ==> IdDraw(rng.pick, rng.pos, j) in used
  {
    assert FreshDrawExists(rng.pick, rng.pos, used);
    ghost var bound: nat :| IdDraw(rng.pick, rng.pos, bound) !in used;
    r, rng' := GenMistralId(rng);
    ghost var k: nat := 0;
    while r in used
      invariant k <= bound
      invariant IsMistralId(r)
      invariant r == IdDraw(rng.pick, rng.pos, k) && rng' == Skip(rng, 9 * (k + 1))
      invariant forall j :: 0 <= j < k ==> IdDraw(rng.pick, rng.pos, j) in used
      decreases bound - k
    {
      assert k != bound;
      IdDrawNext(rng, k);
      r, rng' := GenMistralId(rng');
      k := k + 1;
    }
  }

  /** The oracle after k + 1 generated IDs produces the (k+1)-th ID draw. */
  lemma IdDrawNext(rng: Rng, k: nat)
    ensures Draws(Skip(rng, 9 * (k + 1)), Alphabet, 9) == IdDraw(rng.pick, rng.pos, k + 1)
    ensures Skip(Skip(rng, 9 * (k + 1)), 9) == Skip(rng, 9 * (k + 2))
  {
  }

  /** `_normalize_outgoing_tool_id`: a `None` ID counts as "". Where the
      source would regenerate forever, because a fresh ID is needed and every
      ID is taken, the result is `None`. */
  method NormalizeOutgoing(origId: Option<string>, idMap: map<string, string>, rng: Rng)
    returns (r: Option<string>, idMap': map<string, string>, rng': Rng)
    requires Fair(rng.pick)
    ensures r.None? <==> NeedsFreshId(origId.GetOr(""), idMap) && IdSpaceFull(idMap.Values)
    ensures r.None? ==> idMap' == idMap && rng' == rng
    ensures r.None? ==> forall k: nat :: IdDraw(rng.pick, rng.pos, k) in idMap.Values
    ensures IsMistralId(origId.GetOr("")) ==> r == Some(origId.GetOr("")) && idMap' == idMap && rng' == rng
    ensures !IsMistralId(origId.GetOr("")) && origId.GetOr("") in idMap ==>
              r == Some(idMap[origId.GetOr("")]) && idMap' == idMap && rng' == rng
    ensures NeedsFreshId(origId.GetOr(""), idMap) && r.Some? ==>
              && IsMistralId(r.value) && r.value !in idMap.Values && idMap' == idMap[origId.GetOr("") := r.value]
              && rng'.pos > rng.pos
    ensures r.Some? ==> Resolve(origId.GetOr(""), idMap') == r
    ensures Extends(idMap, idMap')
    ensures idMap'.Keys == idMap.Keys + (if NeedsFreshId(origId.GetOr(""), idMap) && r.Some? then {origId.GetOr("")} else {})
    ensures Injective(idMap) ==> Injective(idMap')
    ensures RemoteValues(idMap) ==> RemoteValues(idMap') && (r.Some? ==> IsMistralId(r.value))
    ensures rng'.pick == rng.pick
  {
    var o := origId.GetOr("");
    if IsMistralId(o) {
      return Some(o), idMap, rng;
    }
    if o in idMap {
      return Some(idMap[o]), idMap, rng;
    }
    SpaceFullIff(idMap.Values);
    if AllIds(9) <= idMap.Values {
      FullSpaceTakesEveryDraw(rng.pick, rng.pos, idMap.Values);
      return None, idMap, rng;
    }
    var id;
    id, rng' := FreshId(idMap.Values, rng);
    r, idMap' := Some(id), idMap[o := id];
  }

  /** `_normalize_outgoing_tool_id` with the ID test as written: an ID that
      the pattern accepts, such as `"abcdefghi\n"`, goes out unchanged and
      the map is not touched, although it is not a remote ID. Any other ID
      is looked up, or replaced by a fresh recorded ID, as `NormalizeOutgoing` does. */
  method NormalizeOutgoingAsWritten(origId: Option<string>, idMap: map<string, string>, rng: Rng)
    returns (r: Option<string>, idMap': map<string, string>, rng': Rng)
    requires Fair(rng.pick)
    ensures MatchesIdPatternAsWritten(origId.GetOr("")) ==> r == Some(origId.GetOr("")) && idMap' == idMap && rng' == rng
    ensures r.Some? && !IsMistralId(r.value) && !(origId.GetOr("") in idMap && r == Some(idMap[origId.GetOr("")])) ==>
              r == origId && MatchesIdPatternAsWritten(r.value) && |r.value| == 10
    ensures !MatchesIdPatternAsWritten(origId.GetOr("")) && origId.GetOr("") in idMap ==>
              r == Some(idMap[origId.GetOr("")]) && idMap' == idMap && rng' == rng
    ensures !MatchesIdPatternAsWritten(origId.GetOr("")) && origId.GetOr("") !in idMap ==>
              (r.None? <==> IdSpaceFull(idMap.Values))
    ensures !MatchesIdPatternAsWritten(origId.GetOr("")) && origId.GetOr("") !in idMap && r.Some? ==>
              && IsMistralId(r.value) && r.value !in idMap.Values && idMap' == idMap[origId.GetOr("") := r.value]
              && rng'.pos > rng.pos
    ensures r.None? ==> idMap' == idMap && rng' == rng
    ensures Extends(idMap, idMap')
    ensures Injective(idMap) ==> Injective(idMap')
    ensures rng'.pick == rng.pick
  {
    var o := origId.GetOr("");
    if MatchesIdPatternAsWritten(o) {
      return Some(o), idMap, rng;
    }
    r, idMap', rng' := NormalizeOutgoing(origId, idMap, rng);
  }

  /** Normalizing the same ID twice against the map the first call left
      gives the same wire ID and leaves the map as it was. */
  method NormalizeTwice(origId: Option<string>, idMap: map<string, string>, rng: Rng)
    returns (r1: Option<string>, r2: Option<string>, m1: map<string, string>, m2: map<string, string>)
    requires Fair(rng.pick)
    ensures r1 == r2 && m1 == m2
    ensures |m1.Keys| <= |idMap.Keys| + 1
  {
    var rng1, rng2;
    r1, m1, rng1 := NormalizeOutgoing(origId, idMap, rng);
    r2, m2, rng2 := NormalizeOutgoing(origId, m1, rng1);
  }

  /** Reverse lookup by value finds the caller ID back: an injective map
      has exactly one key for each wire ID it issued. */
  lemma LookupByValue(m: map<string, string>, o: string, k: string)
    requires Injective(m) && o in m && k in m && m[k] == m[o]
    ensures k == o
  {
  }
}
