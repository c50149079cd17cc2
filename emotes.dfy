/** The emote segment resolver: raw chat text, optionally with Twitch's
    positional emote ranges, becomes an ordered list of text and emote
    segments, looked up in two 7TV catalogs (global and channel). */
module Emotes {
  import opened Types
  import opened JsStrings

  /** An emote catalog: emote name to image URL. */
  type Catalog = map<string, string>

  // ---------------------------------------------------------------------
  // Catalog lookup
  // ---------------------------------------------------------------------

  /** `{ ...globalEmotes, ...channelEmotes }`: channel entries shadow global ones. */
  function Merge(global: Catalog, channel: Catalog): (merged: Catalog)
    ensures merged.Keys == global.Keys + channel.Keys
    ensures forall name :: name in channel ==> merged[name] == channel[name]
    ensures forall name :: name in global && name !in channel ==> merged[name] == global[name]
  {
    global + channel
  }

  /** `emotes[word]` is truthy: the catalog holds a non-empty URL for the word. */
  predicate IsEmoteWord(lookup: Catalog, word: string)
  {
    word in lookup && lookup[word] != ""
  }

  /** The names a plain JavaScript object inherits from `Object.prototype`.
      Reading any of them from an object that lacks an own entry of that
      name yields a function or an object, both truthy. */
  const ObjectPrototypeNames: set<string> := {
    "constructor", "hasOwnProperty", "isPrototypeOf", "propertyIsEnumerable",
    "toLocaleString", "toString", "valueOf", "__proto__",
    "__defineGetter__", "__defineSetter__", "__lookupGetter__", "__lookupSetter__"
  }

  /** The emote test exactly as the lookup `emotes[word]` on a plain object
      behaves: inherited prototype members count as present. */
  predicate IsEmoteWordAsWritten(lookup: Catalog, word: string)
  {
    if word in lookup then lookup[word] != "" else word in ObjectPrototypeNames
  }

  /** A chat word such as "toString", which no catalog holds, passes the
      lookup as written, so it would be emitted as an emote whose URL is a
      function rather than a string. */
  lemma PrototypeNameIsEmoteAsWritten()
    ensures IsEmoteWordAsWritten(map[], "toString")
    ensures !IsEmoteWord(map[], "toString")
  {
  }

  /** The corrected test differs from the one as written only on the
      inherited prototype names. */
  lemma AsWrittenAgreesOffPrototype(lookup: Catalog, word: string)
    requires word !in ObjectPrototypeNames
    ensures IsEmoteWordAsWritten(lookup, word) == IsEmoteWord(lookup, word)
  {
  }

  // ---------------------------------------------------------------------
  // Whitespace tokenisation (parse7TV)
  // ---------------------------------------------------------------------

  /** The segment one word becomes. */
  function WordPart(lookup: Catalog, word: string): MessagePart
  {
    if IsEmoteWord(lookup, word) then Emote(lookup[word], word) else Text(word)
  }

  /** One segment per word, with a single-space text segment between
      consecutive words and none after the last. */
  function Tokenize(lookup: Catalog, words: seq<string>): seq<MessagePart>
    decreases |words|
  {
    if |words| == 0 then []
    else if |words| == 1 then [WordPart(lookup, words[0])]
    else Tokenize(lookup, words[..|words| - 1]) + [Text(" "), WordPart(lookup, words[|words| - 1])]
  }

  /** The segments of `text` tokenised on single spaces. */
  function WordSegments(text: string, lookup: Catalog): seq<MessagePart>
  {
    Tokenize(lookup, SplitSpace(text))
  }

  lemma {:induction false} TokenizeShape(lookup: Catalog, words: seq<string>)
    requires |words| >= 1
    ensures var r := Tokenize(lookup, words);
      |r| == 2 * |words| - 1 &&
      forall k :: 0 <= k < |r| ==>
        r[k] == if k % 2 == 0 then WordPart(lookup, words[k / 2]) else Text(" ")
    decreases |words|
  {
    if |words| > 1 {
      var init := words[..|words| - 1];
      TokenizeShape(lookup, init);
      var r := Tokenize(lookup, words);
      var r0 := Tokenize(lookup, init);
      assert r == r0 + [Text(" "), WordPart(lookup, words[|words| - 1])];
      forall k | 0 <= k < |r|
        ensures r[k] == if k % 2 == 0 then WordPart(lookup, words[k / 2]) else Text(" ")
      {
        if k < |r0| {
          assert r[k] == r0[k];
          if k % 2 == 0 { assert words[k / 2] == init[k / 2]; }
        } else if k == |r0| {
          assert k % 2 == 1;
        } else {
          assert k == 2 * |words| - 2 && k / 2 == |words| - 1;
        }
      }
    }
  }

  /** The whole contract of parse7TV: if the text splits into w words, the
      result has 2w - 1 segments; odd positions hold a single space and the
      even position 2i holds the i-th word, as an emote carrying the
      catalog's URL exactly when the catalog has a non-empty URL for it and
      as text otherwise. */
  lemma WordSegmentsSpec(text: string, lookup: Catalog)
    ensures var words := SplitSpace(text); var r := WordSegments(text, lookup);
      && |r| == 2 * |words| - 1
      && (forall k :: 0 <= k < |r| && k % 2 == 1 ==> r[k] == Text(" "))
      && (forall i :: 0 <= i < |words| ==>
            (r[2 * i].Emote? <==> IsEmoteWord(lookup, words[i])) &&
            (r[2 * i].Emote? ==> r[2 * i] == Emote(lookup[words[i]], words[i])) &&
            (r[2 * i].Text? ==> r[2 * i] == Text(words[i])))
  {
    var words := SplitSpace(text);
    TokenizeShape(lookup, words);
    var r := WordSegments(text, lookup);
    forall i | 0 <= i < |words|
      ensures r[2 * i] == WordPart(lookup, words[i])
    {
      assert (2 * i) % 2 == 0 && (2 * i) / 2 == i;
    }
  }

  /** Empty text yields exactly one empty text segment (when the catalog
      has no entry for the empty name). */
  lemma WordSegmentsOfEmpty(lookup: Catalog)
    requires !IsEmoteWord(lookup, "")
    ensures WordSegments("", lookup) == [Text("")]
  {
  }

  lemma {:induction false} RenderTokenize(lookup: Catalog, words: seq<string>)
    ensures Render(Tokenize(lookup, words)) == JoinSpace(words)
    decreases |words|
  {
    if |words| == 1 {
      RenderConcat([WordPart(lookup, words[0])], []);
    } else if |words| > 1 {
      var init := words[..|words| - 1];
      var w := words[|words| - 1];
      RenderTokenize(lookup, init);
      var sep := [Text(" "), WordPart(lookup, w)];
      RenderConcat(Tokenize(lookup, init), sep);
      assert sep[1..] == [WordPart(lookup, w)];
      assert Render(sep[1..]) == w + Render([]);
    }
  }

  /** Concatenating the segment texts of parse7TV gives back the input. */
  lemma WordSegmentsRoundTrip(text: string, lookup: Catalog)
    ensures Render(WordSegments(text, lookup)) == text
  {
    RenderTokenize(lookup, SplitSpace(text));
    JoinSplit(text);
  }

  // ---------------------------------------------------------------------
  // Twitch positional ranges
  // ---------------------------------------------------------------------

  /** One decoded "start-end" offset string: inclusive character offsets. */
  datatype Offset = Offset(start: nat, end: nat)

  /** One entry of the `emoteOffsets` map: an emote ID and its offsets. */
  datatype OffsetEntry = OffsetEntry(id: string, offsets: seq<Offset>)

  /** One element of the `positions` array. */
  datatype Position = Position(start: nat, end: nat, url: string)

  /** The Twitch CDN image URL of an emote ID. */
  function TwitchEmoteUrl(id: string): string
  {
    "https://static-cdn.jtvnw.net/emoticons/v2/" + id + "/default/dark/2.0"
  }

  /** The position offset `k` of entry `e` stands for. */
  function OffsetPosition(e: OffsetEntry, k: nat): Position
    requires k < |e.offsets|
  {
    Position(e.offsets[k].start, e.offsets[k].end, TwitchEmoteUrl(e.id))
  }

  /** Offset `k` of entry `i` stands in the flattened positions right after
      the positions of the entries before it. */
  predicate PlacedAt(entries: seq<OffsetEntry>, i: nat, k: nat)
    requires i < |entries| && k < |entries[i].offsets|
  {
    var j := OffsetCount(entries[..i]) + k;
    j < |Flatten(entries)| && Flatten(entries)[j] == OffsetPosition(entries[i], k)
  }

  /** The positions one entry contributes, in the order of its offsets. */
  function EntryPositions(id: string, offsets: seq<Offset>): seq<Position>
    decreases |offsets|
  {
    if offsets == [] then []
    else
      var o := offsets[|offsets| - 1];
      EntryPositions(id, offsets[..|offsets| - 1]) + [Position(o.start, o.end, TwitchEmoteUrl(id))]
  }

  /** The `positions` array built by the two nested `forEach` loops. */
  function Flatten(entries: seq<OffsetEntry>): seq<Position>
    decreases |entries|
  {
    if entries == [] then []
    else
      var e := entries[|entries| - 1];
      Flatten(entries[..|entries| - 1]) + EntryPositions(e.id, e.offsets)
  }

  /** The total number of offset strings across all IDs. */
  function OffsetCount(entries: seq<OffsetEntry>): nat
    decreases |entries|
  {
    if entries == [] then 0
    else OffsetCount(entries[..|entries| - 1]) + |entries[|entries| - 1].offsets|
  }

  /** `p` is the position of some offset of some entry, with that entry's URL. */
  predicate Occurs(entries: seq<OffsetEntry>, p: Position)
  {
    exists i, k :: 0 <= i < |entries| && 0 <= k < |entries[i].offsets| &&
      p == Position(entries[i].offsets[k].start, entries[i].offsets[k].end, TwitchEmoteUrl(entries[i].id))
  }

  lemma {:induction false} EntryPositionsSpec(id: string, offsets: seq<Offset>)
    ensures var ps := EntryPositions(id, offsets);
      |ps| == |offsets| &&
      forall k :: 0 <= k < |ps| ==>
        ps[k] == Position(offsets[k].start, offsets[k].end, TwitchEmoteUrl(id))
    decreases |offsets|
  {
    if offsets != [] {
      var init := offsets[..|offsets| - 1];
      EntryPositionsSpec(id, init);
      var ps := EntryPositions(id, offsets);
      forall k | 0 <= k < |ps|
        ensures ps[k] == Position(offsets[k].start, offsets[k].end, TwitchEmoteUrl(id))
      {
        if k < |init| { assert offsets[k] == init[k]; }
      }
    }
  }

  /** There is one position per offset string: offset `k` of entry `i`
      stands at index `OffsetCount(entries[..i]) + k`, and each position is
      that of an offset of some ID, carrying the Twitch URL of that ID. */
  lemma {:induction false} FlattenSpec(entries: seq<OffsetEntry>)
    ensures |Flatten(entries)| == OffsetCount(entries)
    ensures forall i, k :: 0 <= i < |entries| && 0 <= k < |entries[i].offsets| ==> PlacedAt(entries, i, k)
    ensures forall j :: 0 <= j < |Flatten(entries)| ==> Occurs(entries, Flatten(entries)[j])
    decreases |entries|
  {
    FlattenIndexAll(entries);
    if entries != [] {
      var n := |entries|;
      var init := entries[..n - 1];
      var e := entries[n - 1];
      FlattenSpec(init);
      EntryPositionsSpec(e.id, e.offsets);
      var f0 := Flatten(init);
      var f := Flatten(entries);
      assert f == f0 + EntryPositions(e.id, e.offsets);
      forall j | 0 <= j < |f| ensures Occurs(entries, f[j]) {
        if j < |f0| {
          assert f[j] == f0[j];
          OccursExtend(init, e, f0[j]);
          assert entries == init + [e];
        } else {
          var k := j - |f0|;
          assert f[j] == Position(e.offsets[k].start, e.offsets[k].end, TwitchEmoteUrl(e.id));
          assert entries[n - 1] == e;
        }
      }
    }
  }

  /** `FlattenIndex` for every offset of every entry. */
  lemma {:induction false} FlattenIndexAll(entries: seq<OffsetEntry>)
    ensures forall i, k :: 0 <= i < |entries| && 0 <= k < |entries[i].offsets| ==> PlacedAt(entries, i, k)
  {
    forall i, k | 0 <= i < |entries| && 0 <= k < |entries[i].offsets|
      ensures PlacedAt(entries, i, k)
    {
      FlattenIndex(entries, i, k);
    }
  }

  /** One flattened position per offset string. */
  lemma {:induction false} FlattenCount(entries: seq<OffsetEntry>)
    ensures |Flatten(entries)| == OffsetCount(entries)
    decreases |entries|
  {
    if entries != [] {
      var e := entries[|entries| - 1];
      FlattenCount(entries[..|entries| - 1]);
      EntryPositionsSpec(e.id, e.offsets);
    }
  }

  /** Offset `k` of entry `i` stands after the positions of the entries
      before it. */
  lemma {:induction false} FlattenIndex(entries: seq<OffsetEntry>, i: nat, k: nat)
    requires i < |entries| && k < |entries[i].offsets|
    ensures OffsetCount(entries[..i]) + k < |Flatten(entries)|
    ensures Flatten(entries)[OffsetCount(entries[..i]) + k] == OffsetPosition(entries[i], k)
    decreases |entries|
  {
    var n := |entries|;
    var init := entries[..n - 1];
    var e := entries[n - 1];
    FlattenCount(init);
    EntryPositionsSpec(e.id, e.offsets);
    var f0 := Flatten(init);
    assert Flatten(entries) == f0 + EntryPositions(e.id, e.offsets);
    if i < n - 1 {
      assert entries[..i] == init[..i] && entries[i] == init[i];
      FlattenIndex(init, i, k);
      FlattenCount(entries);
    } else {
      assert entries[..i] == init;
    }
  }

  lemma OccursExtend(entries: seq<OffsetEntry>, e: OffsetEntry, p: Position)
    requires Occurs(entries, p)
    ensures Occurs(entries + [e], p)
  {
    var i, k :| 0 <= i < |entries| && 0 <= k < |entries[i].offsets| &&
      p == Position(entries[i].offsets[k].start, entries[i].offsets[k].end, TwitchEmoteUrl(entries[i].id));
    assert (entries + [e])[i] == entries[i];
  }

  // ---------------------------------------------------------------------
  // positions.sort((a, b) => a.start - b.start)
  // ---------------------------------------------------------------------

  predicate SortedByStart(ps: seq<Position>)
  {
    forall i, j :: 0 <= i < j < |ps| ==> ps[i].start <= ps[j].start
  }

  /** Inserts `p` before the first element whose start is not smaller. */
  function InsertByStart(p: Position, ps: seq<Position>): seq<Position>
    decreases |ps|
  {
    if ps == [] then [p]
    else if p.start <= ps[0].start then [p] + ps
    else [ps[0]] + InsertByStart(p, ps[1..])
  }

  /** A stable sort by start: equal starts keep their input order, as the
      stable `Array.prototype.sort` of ECMAScript 2019 and later does. */
  function SortByStart(ps: seq<Position>): seq<Position>
    decreases |ps|
  {
    if ps == [] then [] else InsertByStart(ps[0], SortByStart(ps[1..]))
  }

  /** Prepending an element no later than the head keeps a sequence sorted. */
  lemma SortedCons(x: Position, ps: seq<Position>)
    requires SortedByStart(ps)
    requires ps != [] ==> x.start <= ps[0].start
    ensures SortedByStart([x] + ps)
  {
    var r := [x] + ps;
    forall i, j | 0 <= i < j < |r| ensures r[i].start <= r[j].start {
      if i == 0 {
        assert r[j] == ps[j - 1];
        assert ps[0].start <= ps[j - 1].start || j == 1;
      } else {
        assert r[i] == ps[i - 1] && r[j] == ps[j - 1];
      }
    }
  }

  lemma SortedTail(ps: seq<Position>)
    requires SortedByStart(ps) && ps != []
    ensures SortedByStart(ps[1..])
  {
    var tail := ps[1..];
    forall i, j | 0 <= i < j < |tail| ensures tail[i].start <= tail[j].start {
      assert tail[i] == ps[i + 1] && tail[j] == ps[j + 1];
    }
  }

  lemma {:induction false} InsertByStartPerm(p: Position, ps: seq<Position>)
    ensures multiset(InsertByStart(p, ps)) == multiset(ps) + multiset{p}
    decreases |ps|
  {
    if ps != [] && p.start > ps[0].start {
      assert ps == [ps[0]] + ps[1..];
      InsertByStartPerm(p, ps[1..]);
    }
  }

  lemma {:induction false} InsertByStartSorted(p: Position, ps: seq<Position>)
    requires SortedByStart(ps)
    ensures SortedByStart(InsertByStart(p, ps))
    ensures InsertByStart(p, ps)[0] == p || (ps != [] && InsertByStart(p, ps)[0] == ps[0])
    decreases |ps|
  {
    if ps == [] {
    } else if p.start <= ps[0].start {
      SortedCons(p, ps);
    } else {
      var tail := ps[1..];
      SortedTail(ps);
      InsertByStartSorted(p, tail);
      var r' := InsertByStart(p, tail);
      if tail != [] {
        assert ps[0].start <= ps[1].start && tail[0] == ps[1];
      }
      SortedCons(ps[0], r');
    }
  }

  /** The sort yields a sorted permutation of its input and leaves sorted
      input unchanged. */
  lemma {:induction false} SortByStartSpec(ps: seq<Position>)
    ensures SortedByStart(SortByStart(ps))
    ensures multiset(SortByStart(ps)) == multiset(ps)
    ensures SortedByStart(ps) ==> SortByStart(ps) == ps
    decreases |ps|
  {
    if ps != [] {
      var tail := ps[1..];
      assert ps == [ps[0]] + tail;
      SortByStartSpec(tail);
      InsertByStartPerm(ps[0], SortByStart(tail));
      InsertByStartSorted(ps[0], SortByStart(tail));
      if SortedByStart(ps) {
        SortedTail(ps);
        if tail != [] {
          assert tail[0] == ps[1];
        }
      }
    }
  }


  // ---------------------------------------------------------------------
  // The walk over the sorted ranges
  // ---------------------------------------------------------------------

  /** A tokeniser for the stretches of text between ranges. */
  type Segmenter = string -> seq<MessagePart>

  /** The tokeniser parseEmotes applies between ranges: parse7TV over one catalog. */
  function Tokenizer(lookup: Catalog): Segmenter
  {
    s => WordSegments(s, lookup)
  }

  /** A tokeniser whose segments always spell out their input. */
  ghost predicate KeepsText(seg: Segmenter)
  {
    forall s :: Render(seg(s)) == s
  }

  lemma TokenizerKeepsText(lookup: Catalog)
    ensures KeepsText(Tokenizer(lookup))
  {
    forall s ensures Render(Tokenizer(lookup)(s)) == s {
      WordSegmentsRoundTrip(s, lookup);
    }
  }

  /** The tokenised gap before a range; empty unless `idx < start`. */
  function GapParts(text: string, seg: Segmenter, idx: nat, start: nat): seq<MessagePart>
  {
    if idx < start then seg(Substring(text, idx, start)) else []
  }

  /** The emote a range becomes: named by the inclusive substring `[start, end]`. */
  function RangeEmote(text: string, p: Position): MessagePart
  {
    Emote(p.url, Substring(text, p.start, p.end + 1))
  }

  /** The segments emitted from cursor `idx` on: for each range its gap and
      its emote, the cursor moving to `end + 1`; then the trailing text,
      tokenised only when the cursor is still inside the text. */
  function Walk(text: string, seg: Segmenter, ps: seq<Position>, idx: nat): seq<MessagePart>
    decreases |ps|
  {
    if ps == [] then
      (if idx < |text| then seg(Substring(text, idx, |text|)) else [])
    else
      GapParts(text, seg, idx, ps[0].start) + [RangeEmote(text, ps[0])]
        + Walk(text, seg, ps[1..], ps[0].end + 1)
  }

  /** parseEmotes as a function of the catalogs, the text and the optional
      offset map. */
  function Resolve(global: Catalog, channel: Catalog, text: string,
                   twitchEmotes: Option<seq<OffsetEntry>>): seq<MessagePart>
  {
    var lookup := Merge(global, channel);
    if twitchEmotes.Some? && |twitchEmotes.value| > 0 then
      Walk(text, Tokenizer(lookup), SortByStart(Flatten(twitchEmotes.value)), 0)
    else
      WordSegments(text, lookup)
  }

  lemma WordSegmentsNonEmpty(text: string, lookup: Catalog)
    ensures |WordSegments(text, lookup)| >= 1
  {
    TokenizeShape(lookup, SplitSpace(text));
  }

  /** A gap is tokenised before a range only when the cursor is behind the
      range's start; otherwise the range's emote comes first. */
  lemma GapOnlyWhenBehind(text: string, seg: Segmenter, ps: seq<Position>, idx: nat)
    requires ps != []
    ensures idx < ps[0].start ==>
      Walk(text, seg, ps, idx)[..|GapParts(text, seg, idx, ps[0].start)|]
        == seg(Substring(text, idx, ps[0].start))
    ensures ps[0].start <= idx ==> Walk(text, seg, ps, idx)[0] == RangeEmote(text, ps[0])
  {
  }

  /** After the last range, trailing segments are emitted exactly when the
      cursor is still inside the text. */
  lemma TailOnlyWhenInside(text: string, lookup: Catalog, idx: nat)
    ensures Walk(text, Tokenizer(lookup), [], idx) != [] <==> idx < |text|
  {
    if idx < |text| {
      WordSegmentsNonEmpty(Substring(text, idx, |text|), lookup);
    }
  }

  /** The indices in the walk's output at which the range emotes stand. */
  function RangeSlots(text: string, seg: Segmenter, ps: seq<Position>, idx: nat): seq<nat>
    decreases |ps|
  {
    if ps == [] then []
    else
      var g := |GapParts(text, seg, idx, ps[0].start)|;
      [g] + Shift(RangeSlots(text, seg, ps[1..], ps[0].end + 1), g + 1)
  }

  /** Every index moved `d` places to the right. */
  function Shift(slots: seq<nat>, d: nat): seq<nat>
  {
    seq(|slots|, k requires 0 <= k < |slots| => slots[k] + d)
  }

  /** `slots` marks, in order, the indices of `out` that hold the emotes
      of the ranges `ps`. */
  predicate SlotsMark(text: string, ps: seq<Position>, out: seq<MessagePart>, slots: seq<nat>)
  {
    && |slots| == |ps|
    && (forall j :: 0 <= j < |ps| ==> slots[j] < |out| && out[slots[j]] == RangeEmote(text, ps[j]))
    && (forall i, j :: 0 <= i < j < |slots| ==> slots[i] < slots[j])
  }

  /** Prefixing a gap and one range's emote to an output keeps the marks
      of the later ranges, shifted past the prefix. */
  lemma SlotsShift(text: string, ps: seq<Position>, out: seq<MessagePart>, slots: seq<nat>,
                   gap: seq<MessagePart>, restOut: seq<MessagePart>, rest: seq<nat>)
    requires ps != []
    requires SlotsMark(text, ps[1..], restOut, rest)
    requires out == (gap + [RangeEmote(text, ps[0])]) + restOut
    requires slots == [|gap|] + Shift(rest, |gap| + 1)
    ensures SlotsMark(text, ps, out, slots)
  {
    forall j | 0 <= j < |ps|
      ensures slots[j] < |out| && out[slots[j]] == RangeEmote(text, ps[j])
    {
      if j > 0 {
        assert slots[j] == rest[j - 1] + |gap| + 1;
        assert out[slots[j]] == restOut[rest[j - 1]];
        assert ps[j] == ps[1..][j - 1];
      }
    }
    forall i, j | 0 <= i < j < |slots| ensures slots[i] < slots[j] {
      if i > 0 {
        assert rest[i - 1] < rest[j - 1];
      }
    }
  }

  /** The walk emits exactly one emote per range, in the order of the
      ranges, each at a strictly later index than the one before. */
  lemma {:induction false} WalkRangeSlots(text: string, seg: Segmenter, ps: seq<Position>, idx: nat)
    ensures SlotsMark(text, ps, Walk(text, seg, ps, idx), RangeSlots(text, seg, ps, idx))
    decreases |ps|
  {
    if ps != [] {
      var p := ps[0];
      WalkRangeSlots(text, seg, ps[1..], p.end + 1);
      WalkUnfold(text, seg, ps, idx);
      SlotsShift(text, ps, Walk(text, seg, ps, idx), RangeSlots(text, seg, ps, idx),
                 GapParts(text, seg, idx, p.start),
                 Walk(text, seg, ps[1..], p.end + 1), RangeSlots(text, seg, ps[1..], p.end + 1));
    }
  }

  /** The sorted positions: a permutation of the flattened ones, so one per
      offset string, ascending by start; every offset of every ID is among
      them, and each of them is the position of an offset of some ID with
      that ID's URL. */
  lemma SortedPositionsSpec(entries: seq<OffsetEntry>)
    ensures var sorted := SortByStart(Flatten(entries));
      && multiset(sorted) == multiset(Flatten(entries))
      && |sorted| == OffsetCount(entries)
      && SortedByStart(sorted)
      && (forall i, k :: 0 <= i < |entries| && 0 <= k < |entries[i].offsets| ==>
            OffsetPosition(entries[i], k) in sorted)
      && (forall j :: 0 <= j < |sorted| ==> Occurs(entries, sorted[j]))
  {
    var flat := Flatten(entries);
    var sorted := SortByStart(flat);
    FlattenSpec(entries);
    SortByStartSpec(flat);
    assert |sorted| == |multiset(sorted)| == |multiset(flat)| == |flat|;
    forall i, k | 0 <= i < |entries| && 0 <= k < |entries[i].offsets|
      ensures OffsetPosition(entries[i], k) in sorted
    {
      assert PlacedAt(entries, i, k);
      assert flat[OffsetCount(entries[..i]) + k] in multiset(sorted);
    }
    forall j | 0 <= j < |sorted| ensures Occurs(entries, sorted[j]) {
      assert sorted[j] in multiset(flat);
      var m :| 0 <= m < |flat| && flat[m] == sorted[j];
    }
  }

  /** The Twitch path: one emote per offset string across all IDs, in
      ascending order of start. Every offset of every ID has a sorted
      position `j`, and the emote at `slots[j]` is named by the inclusive
      substring of that range and carries the Twitch URL of an ID holding
      it. */
  lemma ResolveRangeEmotes(global: Catalog, channel: Catalog, text: string, entries: seq<OffsetEntry>)
    requires |entries| > 0
    ensures var sorted := SortByStart(Flatten(entries));
      var out := Resolve(global, channel, text, Some(entries));
      var slots := RangeSlots(text, Tokenizer(Merge(global, channel)), sorted, 0);
      && |slots| == |sorted| == OffsetCount(entries)
      && SortedByStart(sorted)
      && (forall i, j :: 0 <= i < j < |slots| ==> slots[i] < slots[j])
      && (forall i, k :: 0 <= i < |entries| && 0 <= k < |entries[i].offsets| ==>
            exists j :: 0 <= j < |sorted| && sorted[j] == OffsetPosition(entries[i], k))
      && (forall j :: 0 <= j < |sorted| ==>
            Occurs(entries, sorted[j]) &&
            slots[j] < |out| &&
            out[slots[j]] == Emote(sorted[j].url, Substring(text, sorted[j].start, sorted[j].end + 1)))
  {
    SortedPositionsSpec(entries);
    WalkRangeSlots(text, Tokenizer(Merge(global, channel)), SortByStart(Flatten(entries)), 0);
  }

  /** Without ranges (absent or an empty map) the result is parse7TV over
      the merged catalog. */
  lemma ResolveWithoutRanges(global: Catalog, channel: Catalog, text: string)
    ensures Resolve(global, channel, text, None) == WordSegments(text, Merge(global, channel))
    ensures Resolve(global, channel, text, Some([])) == WordSegments(text, Merge(global, channel))
  {
  }

  /** A non-empty map whose IDs carry no offsets still takes the range path:
      the text is tokenised only when it is non-empty, so empty text yields
      no segment at all (unlike the path without ranges). */
  lemma ResolveNoOffsets(global: Catalog, channel: Catalog, text: string, entries: seq<OffsetEntry>)
    requires |entries| > 0 && OffsetCount(entries) == 0
    ensures Resolve(global, channel, text, Some(entries))
      == if text == "" then [] else WordSegments(text, Merge(global, channel))
  {
    FlattenSpec(entries);
    assert text[0..|text|] == text;
  }

  // ---------------------------------------------------------------------
  // Round trip on the range path
  // ---------------------------------------------------------------------

  /** The sorted ranges lie inside the text and do not overlap. */
  predicate WellPlaced(text: string, ps: seq<Position>)
  {
    && (forall j :: 0 <= j < |ps| ==> ps[j].start <= ps[j].end < |text|)
    && (forall j :: 0 <= j < |ps| - 1 ==> ps[j].end < ps[j + 1].start)
  }

  /** The ranges tile the text from cursor `idx` on. */
  predicate Tiles(text: string, ps: seq<Position>, idx: nat)
    decreases |ps|
  {
    if ps == [] then idx <= |text|
    else idx <= ps[0].start <= ps[0].end < |text| && Tiles(text, ps[1..], ps[0].end + 1)
  }

  lemma {:induction false} WellPlacedTiles(text: string, ps: seq<Position>, idx: nat)
    requires WellPlaced(text, ps)
    requires ps == [] ==> idx <= |text|
    requires ps != [] ==> idx <= ps[0].start
    ensures Tiles(text, ps, idx)
    decreases |ps|
  {
    if ps != [] {
      var rest := ps[1..];
      assert WellPlaced(text, rest) by {
        forall j | 0 <= j < |rest| ensures rest[j].start <= rest[j].end < |text| {
          assert rest[j] == ps[j + 1];
        }
        forall j | 0 <= j < |rest| - 1 ensures rest[j].end < rest[j + 1].start {
          assert rest[j] == ps[j + 1] && rest[j + 1] == ps[j + 2];
        }
      }
      WellPlacedTiles(text, rest, ps[0].end + 1);
    }
  }

  lemma SliceSplit(s: string, a: nat, b: nat, c: nat)
    requires a <= b <= c <= |s|
    ensures s[a..] == s[a..b] + s[b..c] + s[c..]
  {
    assert s[a..] == s[a..b] + s[b..];
    assert s[b..] == s[b..c] + s[c..];
  }

  lemma RenderThree(text: string, a: nat, b: nat, c: nat,
                    gap: seq<MessagePart>, e: MessagePart, rest: seq<MessagePart>)
    requires a <= b <= c <= |text|
    requires Render(gap) == text[a..b] && Render([e]) == text[b..c] && Render(rest) == text[c..]
    ensures Render((gap + [e]) + rest) == text[a..]
  {
    RenderConcat(gap + [e], rest);
    RenderConcat(gap, [e]);
    SliceSplit(text, a, b, c);
  }

  /** One step of the walk: the gap, the range's emote, then the rest. */
  lemma WalkUnfold(text: string, seg: Segmenter, ps: seq<Position>, idx: nat)
    requires ps != []
    ensures Walk(text, seg, ps, idx) ==
      (GapParts(text, seg, idx, ps[0].start) + [RangeEmote(text, ps[0])])
        + Walk(text, seg, ps[1..], ps[0].end + 1)
  {
  }

  lemma GapRoundTrip(text: string, seg: Segmenter, idx: nat, start: nat)
    requires KeepsText(seg) && idx <= start <= |text|
    ensures Render(GapParts(text, seg, idx, start)) == text[idx..start]
  {
    if idx < start {
      assert Render(seg(Substring(text, idx, start))) == Substring(text, idx, start);
    }
  }

  lemma RangeEmoteRender(text: string, p: Position)
    requires p.start <= p.end < |text|
    ensures Render([RangeEmote(text, p)]) == text[p.start..p.end + 1]
  {
    assert [RangeEmote(text, p)][1..] == [];
  }

  lemma WalkRoundTripStep(text: string, seg: Segmenter, ps: seq<Position>, idx: nat)
    requires KeepsText(seg) && ps != [] && idx <= ps[0].start <= ps[0].end < |text|
    requires Render(Walk(text, seg, ps[1..], ps[0].end + 1)) == text[ps[0].end + 1..]
    ensures Render(Walk(text, seg, ps, idx)) == text[idx..]
  {
    var p := ps[0];
    WalkUnfold(text, seg, ps, idx);
    GapRoundTrip(text, seg, idx, p.start);
    RangeEmoteRender(text, p);
    RenderThree(text, idx, p.start, p.end + 1, GapParts(text, seg, idx, p.start),
                RangeEmote(text, p), Walk(text, seg, ps[1..], p.end + 1));
  }

  lemma {:induction false} WalkRoundTrip(text: string, seg: Segmenter, ps: seq<Position>, idx: nat)
    requires KeepsText(seg) && Tiles(text, ps, idx)
    ensures Render(Walk(text, seg, ps, idx)) == text[idx..]
    decreases |ps|
  {
    if ps == [] {
      if idx < |text| {
        assert Render(seg(Substring(text, idx, |text|))) == Substring(text, idx, |text|);
      }
    } else {
      WalkRoundTrip(text, seg, ps[1..], ps[0].end + 1);
      WalkRoundTripStep(text, seg, ps, idx);
    }
  }


  /** Concatenating the segment texts reproduces the input: always without
      ranges, and with ranges whenever the sorted ranges lie inside the
      text without overlapping. */
  lemma ResolveRoundTrip(global: Catalog, channel: Catalog, text: string,
                         twitchEmotes: Option<seq<OffsetEntry>>)
    requires twitchEmotes.Some? && |twitchEmotes.value| > 0 ==>
      WellPlaced(text, SortByStart(Flatten(twitchEmotes.value)))
    ensures Render(Resolve(global, channel, text, twitchEmotes)) == text
  {
    var lookup := Merge(global, channel);
    if twitchEmotes.Some? && |twitchEmotes.value| > 0 {
      var sorted := SortByStart(Flatten(twitchEmotes.value));
      WellPlacedTiles(text, sorted, 0);
      TokenizerKeepsText(lookup);
      WalkRoundTrip(text, Tokenizer(lookup), sorted, 0);
    } else {
      WordSegmentsRoundTrip(text, lookup);
    }
  }

  /** One iteration of the walk loop: emitting the gap and the emote of
      the next range and moving the cursor past it keeps the accumulated
      parts followed by the rest of the walk equal to the whole walk. */
  lemma WalkAdvance(text: string, seg: Segmenter, rest: seq<Position>, idx: nat,
                    parts: seq<MessagePart>, gap: seq<MessagePart>, whole: seq<MessagePart>)
    requires rest != []
    requires parts + Walk(text, seg, rest, idx) == whole
    requires gap == GapParts(text, seg, idx, rest[0].start)
    ensures (parts + gap + [RangeEmote(text, rest[0])]) + Walk(text, seg, rest[1..], rest[0].end + 1)
      == whole
  {
    WalkUnfold(text, seg, rest, idx);
    AppendStep(parts, gap, RangeEmote(text, rest[0]), Walk(text, seg, rest[1..], rest[0].end + 1));
  }

  lemma AppendStep(before: seq<MessagePart>, gap: seq<MessagePart>, e: MessagePart,
                   rest: seq<MessagePart>)
    ensures (before + gap + [e]) + rest == before + ((gap + [e]) + rest)
  {
  }

  // ---------------------------------------------------------------------
  // The service object
  // ---------------------------------------------------------------------

  class EmoteService {
    var globalEmotes: Catalog
    var channelEmotes: Catalog

    constructor ()
      ensures globalEmotes == map[] && channelEmotes == map[]
    {
      globalEmotes := map[];
      channelEmotes := map[];
    }

    /** The effect of `initialize` on the two catalogs. Each fetch outcome
        is given: `Some(c)` when the fetch got as far as decoding catalog
        `c`, `None` when it failed earlier and its error was swallowed. The
        channel catalog is fetched only for a truthy channel name. */
    method Initialize(channelName: Option<string>,
                      globalFetch: Option<Catalog>, channelFetch: Option<Catalog>)
      modifies this
      ensures globalEmotes == if globalFetch.Some? then globalFetch.value else old(globalEmotes)
      ensures channelEmotes ==
        if Truthy(channelName) && channelFetch.Some? then channelFetch.value else old(channelEmotes)
    {
      if globalFetch.Some? {
        globalEmotes := globalFetch.value;
      }
      if Truthy(channelName) && channelFetch.Some? {
        channelEmotes := channelFetch.value;
      }
    }

    /** parse7TV: split on single spaces and push one segment per word and
        a separator after every word but the last. */
    method Parse7TV(text: string, emotes: Catalog) returns (parts: seq<MessagePart>)
      ensures parts == WordSegments(text, emotes)
    {
      var words := SplitSpace(text);
      parts := [];
      var i := 0;
      while i < |words|
        invariant 0 <= i <= |words|
        invariant parts == Tokenize(emotes, words[..i]) + if 0 < i < |words| then [Text(" ")] else []
      {
        var word := words[i];
        assert words[..i + 1][..i] == words[..i];
        if IsEmoteWord(emotes, word) {
          parts := parts + [Emote(emotes[word], word)];
        } else {
          parts := parts + [Text(word)];
        }
        if i < |words| - 1 {
          parts := parts + [Text(" ")];
        }
        i := i + 1;
      }
      assert words[..|words|] == words;
    }

    /** The `positions` array: one position per offset string, built by
        the two nested `forEach` loops of parseEmotes. */
    method CollectPositions(entries: seq<OffsetEntry>) returns (positions: seq<Position>)
      ensures positions == Flatten(entries)
    {
      positions := [];
      var i := 0;
      while i < |entries|
        invariant 0 <= i <= |entries|
        invariant positions == Flatten(entries[..i])
      {
        var e := entries[i];
        var j := 0;
        while j < |e.offsets|
          invariant 0 <= j <= |e.offsets|
          invariant positions == Flatten(entries[..i]) + EntryPositions(e.id, e.offsets[..j])
        {
          var o := e.offsets[j];
          assert e.offsets[..j + 1][..j] == e.offsets[..j];
          positions := positions + [Position(o.start, o.end, TwitchEmoteUrl(e.id))];
          j := j + 1;
        }
        assert e.offsets[..j] == e.offsets;
        assert entries[..i + 1][..i] == entries[..i];
        i := i + 1;
      }
      assert entries[..i] == entries;
    }

    /** The walk of parseEmotes over the sorted positions, with the cursor
        `idx` reassigned to `end + 1` after each range. `seg` tokenises the
        gaps and the trailing text; parseEmotes passes parse7TV over the
        merged catalog. */
    method WalkPositions(text: string, seg: Segmenter, positions: seq<Position>)
      returns (parts: seq<MessagePart>)
      ensures parts == Walk(text, seg, positions, 0)
    {
      ghost var whole := Walk(text, seg, positions, 0);
      parts := [];
      var idx: nat := 0;
      var rest := positions;
      while rest != []
        invariant parts + Walk(text, seg, rest, idx) == whole
        decreases |rest|
      {
        var p := rest[0];
        var gap := if idx < p.start then seg(Substring(text, idx, p.start)) else [];
        WalkAdvance(text, seg, rest, idx, parts, gap, whole);
        parts := parts + gap + [RangeEmote(text, p)];
        idx := p.end + 1;
        rest := rest[1..];
      }
      var tail := if idx < |text| then seg(Substring(text, idx, |text|)) else [];
      parts := parts + tail;
    }

    /** parseEmotes: merge the catalogs; with a non-empty offset map,
        collect, sort and walk the positions; otherwise tokenise the whole
        text. */
    method ParseEmotes(text: string, twitchEmotes: Option<seq<OffsetEntry>>)
      returns (parts: seq<MessagePart>)
      ensures parts == Resolve(globalEmotes, channelEmotes, text, twitchEmotes)
    {
      var allEmotes := Merge(globalEmotes, channelEmotes);
      if twitchEmotes.Some? && |twitchEmotes.value| > 0 {
        var positions := CollectPositions(twitchEmotes.value);
        positions := SortByStart(positions);
        parts := WalkPositions(text, Tokenizer(allEmotes), positions);
      } else {
        parts := Parse7TV(text, allEmotes);
      }
    }
  }
}
