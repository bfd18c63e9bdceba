/**
 * build_digest: stories are packed greedily into messages under a UTF-16 and a
 * byte limit, with a map from each story to its message.
 */
module Packing {
  import opened Wrappers
  import opened Rows
  import opened Transactions
  import opened Ranking

  // ----- sizes

  function CharUnits(c: char): nat {
    if c as int < 0x1_0000 then 1 else 2
  }

  function CharBytes(c: char): nat {
    var code := c as int;
    if code < 0x80 then 1 else if code < 0x800 then 2 else if code < 0x1_0000 then 3 else 4
  }

  /** UTF-16 code units. */
  function Units(text: string): nat {
    if text == "" then 0 else Units(text[..|text| - 1]) + CharUnits(text[|text| - 1])
  }

  /** UTF-8 bytes. */
  function Bytes(text: string): nat {
    if text == "" then 0 else Bytes(text[..|text| - 1]) + CharBytes(text[|text| - 1])
  }

  datatype Limits = Limits(units: int, bytes: int)

  predicate Within(text: string, limits: Limits) {
    Units(text) <= limits.units && Bytes(text) <= limits.bytes
  }

  const MAX_UNITS: int := 4096

  /** _fits_message: the remote's own limit counts as well. */
  predicate FitsMessage(text: string, limits: Limits) {
    Units(text) <= Smaller(limits.units, MAX_UNITS - 1) && Bytes(text) <= limits.bytes
  }

  /**
   * The texts to choose from, best first: the blocks of a story at its position,
   * the headers, the headers of a later message, and the closing note in its two
   * forms for so many issues and omissions.
   */
  datatype Renderer = Renderer(
    blocks: (nat, NewsItem) -> seq<string>,
    headers: seq<string>,
    continuations: nat -> seq<string>,
    note: (nat, nat) -> (string, string),
    wellFormed: string -> bool,
    fingerprint: NewsItem -> Digest)

  /** validate_message accepts the text; `wellFormed` is its markup check, nonblankness included. */
  predicate Accepts(renderer: Renderer, text: string, limits: Limits) {
    text != "" && limits.units > 0 && limits.bytes > 0 && FitsMessage(text, limits) && renderer.wellFormed(text)
  }

  // ----- the searches

  /** No text stays within the limits after the prefix. */
  ghost predicate NoneFits(texts: seq<string>, prefix: string, limits: Limits) {
    forall i :: 0 <= i < |texts| ==> !Within(prefix + texts[i], limits)
  }

  /** The first text that stays within the limits after the prefix, if any. */
  method FitBlock(texts: seq<string>, prefix: string, limits: Limits) returns (block: Option<string>)
    ensures block.Some? ==> block.value in texts && Within(prefix + block.value, limits)
    ensures block.Some? ==>
      exists i :: 0 <= i < |texts| && texts[i] == block.value && NoneFits(texts[..i], prefix, limits)
    ensures block.None? ==> NoneFits(texts, prefix, limits)
  {
    for i := 0 to |texts|
      invariant forall j :: 0 <= j < i ==> !Within(prefix + texts[j], limits)
    {
      if Within(prefix + texts[i], limits) {
        return Some(texts[i]);
      }
    }
    return None;
  }

  /** The first text that fits a message by itself. */
  method FirstFitting(texts: seq<string>, limits: Limits) returns (text: Option<string>)
    ensures text.Some? ==> text.value in texts && FitsMessage(text.value, limits)
    ensures text.None? ==> forall t :: t in texts ==> !FitsMessage(t, limits)
  {
    for i := 0 to |texts|
      invariant forall j :: 0 <= j < i ==> !FitsMessage(texts[j], limits)
    {
      if FitsMessage(texts[i], limits) {
        return Some(texts[i]);
      }
    }
    return None;
  }

  // ----- where a story went

  /** The story at a position of the input, the message it is in, and its text there. */
  datatype Place = Place(position: nat, chunk: nat, block: string)

  predicate HasAt(text: string, part: string, i: nat) {
    i + |part| <= |text| && text[i..i + |part|] == part
  }

  ghost predicate Contains(text: string, part: string) {
    exists i :: HasAt(text, part, i)
  }

  lemma ContainsIn(a: string, part: string)
    ensures Contains(a + part, part)
  {
    assert HasAt(a + part, part, |a|);
  }

  lemma ContainsLonger(text: string, part: string, more: string)
    requires Contains(text, part)
    ensures Contains(text + more, part)
  {
    var i: nat :| HasAt(text, part, i);
    assert (text + more)[i..i + |part|] == text[i..i + |part|];
    assert HasAt(text + more, part, i);
  }

  /** Positions rise, messages never go back, and each message named holds the text. */
  ghost predicate Placed(renderer: Renderer, items: seq<NewsItem>, messages: seq<string>, places: seq<Place>) {
    && (forall i, j :: 0 <= i < j < |places| ==>
          places[i].position < places[j].position && places[i].chunk <= places[j].chunk)
    && (forall i :: 0 <= i < |places| ==> PlacedWell(renderer, items, messages, places[i]))
  }

  ghost predicate PlacedWell(renderer: Renderer, items: seq<NewsItem>, messages: seq<string>, place: Place) {
    && place.position < |items| && place.chunk < |messages|
    && place.block in renderer.blocks(place.position + 1, items[place.position])
    && Contains(messages[place.chunk], place.block)
  }

  /** The story-to-message map: a fingerprint leads to the message of its last placed story. */
  function ChunkMap(renderer: Renderer, items: seq<NewsItem>, places: seq<Place>): map<Digest, int>
    requires forall i :: 0 <= i < |places| ==> places[i].position < |items|
  {
    if places == [] then map[]
    else
      var last := places[|places| - 1];
      ChunkMap(renderer, items, places[..|places| - 1])[renderer.fingerprint(items[last.position]) := last.chunk]
  }

  /** The stories at the places are `included`, those at all other positions are `omitted`, both in input order. */
  ghost predicate Split(items: seq<NewsItem>, places: seq<Place>, included: seq<NewsItem>, omitted: seq<NewsItem>) {
    if items == [] then places == [] && included == [] && omitted == []
    else
      var n, last := |items| - 1, items[|items| - 1];
      if places != [] && places[|places| - 1].position == n
      then
        included != [] && included[|included| - 1] == last &&
        Split(items[..n], places[..|places| - 1], included[..|included| - 1], omitted)
      else
        omitted != [] && omitted[|omitted| - 1] == last &&
        Split(items[..n], places, included, omitted[..|omitted| - 1])
  }

  // ----- packing

  datatype Failure = NoHeader | NoContinuation | Invalid(text: string)

  datatype Build = Build(messages: seq<string>, included: seq<NewsItem>, omitted: seq<NewsItem>,
    chunks: map<Digest, int>)

  const SEPARATOR := "\n\n"

  /** What holds after the first `n` items, of the finished messages and the current one. */
  ghost predicate Packed(renderer: Renderer, items: seq<NewsItem>, n: nat, limits: Limits, build: Build,
                         current: string, hasItem: bool, places: seq<Place>)
    requires n <= |items|
  {
    && Within(current, limits)
    && (forall i :: 0 <= i < |build.messages| ==> Within(build.messages[i], limits))
    && Placed(renderer, items, build.messages + [current], places)
    && (forall i :: 0 <= i < |places| ==> places[i].position < n && (!hasItem ==> places[i].chunk < |build.messages|))
    && Split(items[..n], places, build.included, build.omitted)
    && build.chunks == ChunkMap(renderer, items, places)
  }

  lemma PackedOmit(renderer: Renderer, items: seq<NewsItem>, n: nat, limits: Limits, build: Build, current: string,
                   hasItem: bool, places: seq<Place>)
    requires n < |items| && Packed(renderer, items, n, limits, build, current, hasItem, places)
    ensures Packed(renderer, items, n + 1, limits, build.(omitted := build.omitted + [items[n]]), current,
      hasItem, places)
  {
    assert items[..n + 1][..n] == items[..n];
  }

  /** The current message is closed and the next one opened. */
  lemma PackedFlush(renderer: Renderer, items: seq<NewsItem>, n: nat, limits: Limits, build: Build, current: string,
                    hasItem: bool, places: seq<Place>, next: string)
    requires n <= |items| && Packed(renderer, items, n, limits, build, current, hasItem, places) && Within(next, limits)
    ensures Packed(renderer, items, n, limits, build.(messages := build.messages + [current]), next, false, places)
  {
    var before, after := build.messages + [current], build.messages + [current] + [next];
    assert forall i :: 0 <= i < |before| ==> after[i] == before[i];
    forall i | 0 <= i < |places| ensures PlacedWell(renderer, items, after, places[i]) {
      assert PlacedWell(renderer, items, before, places[i]);
    }
  }

  /** The next story joins the current message. */
  lemma PackedInclude(renderer: Renderer, items: seq<NewsItem>, n: nat, limits: Limits, build: Build, current: string,
                      hasItem: bool, places: seq<Place>, between: string, block: string)
    requires n < |items| && Packed(renderer, items, n, limits, build, current, hasItem, places)
    requires block in renderer.blocks(n + 1, items[n]) && Within(current + between + block, limits)
    ensures
      var place := Place(n, |build.messages|, block);
      var build' := build.(
        included := build.included + [items[n]],
        chunks := build.chunks[renderer.fingerprint(items[n]) := |build.messages|]);
      Packed(renderer, items, n + 1, limits, build', current + between + block, true, places + [place])
  {
    hide Placed, PlacedWell, Split, ChunkMap, Within, Contains;
    var place := Place(n, |build.messages|, block);
    assert current + (between + block) == current + between + block;
    GrownMessage(renderer, items, build.messages, current, between + block, places);
    NewPlace(renderer, items, build.messages, current + between, block, place);
    InRange(renderer, items, build.messages + [current + between + block], places);
    PlacedOneMore(renderer, items, build.messages + [current + between + block], places, place);
    SplitOneMore(items, n, places, place, build.included, build.omitted);
    MapOneMore(renderer, items, places, place);
  }

  lemma InRange(renderer: Renderer, items: seq<NewsItem>, messages: seq<string>, places: seq<Place>)
    requires Placed(renderer, items, messages, places)
    ensures forall i :: 0 <= i < |places| ==> places[i].position < |items| && places[i].chunk < |messages|
  {
    forall i | 0 <= i < |places| ensures places[i].position < |items| && places[i].chunk < |messages| {
      assert PlacedWell(renderer, items, messages, places[i]);
    }
  }

  lemma NewPlace(renderer: Renderer, items: seq<NewsItem>, messages: seq<string>, start: string, block: string,
                 place: Place)
    requires place.position < |items| && place.chunk == |messages| && place.block == block
    requires block in renderer.blocks(place.position + 1, items[place.position])
    ensures PlacedWell(renderer, items, messages + [start + block], place)
  {
    ContainsIn(start, block);
  }

  lemma PlacedOneMore(renderer: Renderer, items: seq<NewsItem>, messages: seq<string>, places: seq<Place>, place: Place)
    requires Placed(renderer, items, messages, places) && PlacedWell(renderer, items, messages, place)
    requires forall i :: 0 <= i < |places| ==> places[i].position < place.position && places[i].chunk <= place.chunk
    ensures Placed(renderer, items, messages, places + [place])
  {
    hide PlacedWell;
  }

  lemma SplitOneMore(items: seq<NewsItem>, n: nat, places: seq<Place>, place: Place, included: seq<NewsItem>,
                     omitted: seq<NewsItem>)
    requires n < |items| && place.position == n && Split(items[..n], places, included, omitted)
    ensures Split(items[..n + 1], places + [place], included + [items[n]], omitted)
  {
    assert items[..n + 1][..n] == items[..n];
    assert (places + [place])[..|places|] == places && (included + [items[n]])[..|included|] == included;
  }

  lemma MapOneMore(renderer: Renderer, items: seq<NewsItem>, places: seq<Place>, place: Place)
    requires forall i :: 0 <= i < |places| ==> places[i].position < |items|
    requires place.position < |items|
    ensures ChunkMap(renderer, items, places + [place]) ==
      ChunkMap(renderer, items, places)[renderer.fingerprint(items[place.position]) := place.chunk]
  {
    assert (places + [place])[..|places|] == places;
  }

  /** Text added to the current message keeps every story where it is. */
  lemma GrownMessage(renderer: Renderer, items: seq<NewsItem>, messages: seq<string>, current: string, more: string,
                     places: seq<Place>)
    requires Placed(renderer, items, messages + [current], places)
    ensures Placed(renderer, items, messages + [current + more], places)
  {
    var before, after := messages + [current], messages + [current + more];
    forall i | 0 <= i < |places| ensures PlacedWell(renderer, items, after, places[i]) {
      assert PlacedWell(renderer, items, before, places[i]);
      if places[i].chunk == |messages| {
        ContainsLonger(current, places[i].block, more);
      }
    }
  }

  // ----- nothing is closed or left out without cause

  /** The message cannot take some story of the input any more. */
  ghost predicate ClosedForCause(renderer: Renderer, items: seq<NewsItem>, limits: Limits, message: string) {
    exists n: nat :: n < |items| && NoneFits(renderer.blocks(n + 1, items[n]), message + SEPARATOR, limits)
  }

  /** No form of the story fits after the first header, or none fits even in a message of its own. */
  ghost predicate NoRoom(renderer: Renderer, items: seq<NewsItem>, limits: Limits, header: string, n: nat)
    requires n < |items|
  {
    var texts := renderer.blocks(n + 1, items[n]);
    || NoneFits(texts, header + SEPARATOR, limits)
    || exists k: nat, start: string ::
         start in renderer.continuations(k) && FitsMessage(start, limits) && NoneFits(texts, start, limits)
  }

  ghost predicate IsPlaced(places: seq<Place>, n: nat) {
    exists i :: 0 <= i < |places| && places[i].position == n
  }

  /** The finished messages were closed for cause, and the stories seen and not placed had no room. */
  ghost predicate Reasoned(renderer: Renderer, items: seq<NewsItem>, n: nat, limits: Limits, header: string,
                           messages: seq<string>, places: seq<Place>)
    requires n <= |items|
  {
    && (forall m :: 0 <= m < |messages| ==> ClosedForCause(renderer, items, limits, messages[m]))
    && (forall k: nat :: k < n && !IsPlaced(places, k) ==> NoRoom(renderer, items, limits, header, k))
  }

  lemma ReasonedOmit(renderer: Renderer, items: seq<NewsItem>, n: nat, limits: Limits, header: string,
                     messages: seq<string>, places: seq<Place>)
    requires n < |items| && Reasoned(renderer, items, n, limits, header, messages, places) &&
      NoRoom(renderer, items, limits, header, n)
    ensures Reasoned(renderer, items, n + 1, limits, header, messages, places)
  {
  }

  lemma ReasonedFlush(renderer: Renderer, items: seq<NewsItem>, n: nat, limits: Limits, header: string,
                      messages: seq<string>, places: seq<Place>, current: string)
    requires n < |items| && Reasoned(renderer, items, n, limits, header, messages, places)
    requires NoneFits(renderer.blocks(n + 1, items[n]), current + SEPARATOR, limits)
    ensures Reasoned(renderer, items, n, limits, header, messages + [current], places)
  {
    assert ClosedForCause(renderer, items, limits, current);
  }

  lemma ReasonedInclude(renderer: Renderer, items: seq<NewsItem>, n: nat, limits: Limits, header: string,
                        messages: seq<string>, places: seq<Place>, place: Place)
    requires n < |items| && Reasoned(renderer, items, n, limits, header, messages, places) && place.position == n
    ensures Reasoned(renderer, items, n + 1, limits, header, messages, places + [place])
  {
    var more := places + [place];
    assert more[|places|].position == n;
    forall k: nat | k < n + 1 && !IsPlaced(more, k) ensures NoRoom(renderer, items, limits, header, k) {
      assert !IsPlaced(places, k) by {
        assert forall i :: 0 <= i < |places| ==> more[i] == places[i];
      }
    }
  }

  /** The stories packed after the header, before any closing note. */
  method Pack(renderer: Renderer, items: seq<NewsItem>, header: string, limits: Limits)
    returns (r: Result<Build, Failure>, ghost places: seq<Place>)
    requires FitsMessage(header, limits)
    ensures r.Ok? ==> r.value.messages != [] && WellPacked(renderer, items, limits, r.value, places)
    ensures r.Ok? ==> Reasoned(renderer, items, |items|, limits, header,
      r.value.messages[..|r.value.messages| - 1], places)
    ensures r.Err? ==> r.error != NoHeader
    ensures r.Err? && r.error.Invalid? ==> Within(r.error.text, limits) && !Accepts(renderer, r.error.text, limits)
  {
    hide Placed, Split, ChunkMap, Within, Packed, WellPacked, Reasoned, NoneFits, FitsMessage;
    FitsIsWithin(header, limits);
    var build := Build([], [], [], map[]);
    var current, hasItem := header, false;
    places := [];
    PackedNothing(renderer, items, limits, header);
    ReasonedNothing(renderer, items, limits, header);
    for n := 0 to |items|
      invariant Packed(renderer, items, n, limits, build, current, hasItem, places)
      invariant Reasoned(renderer, items, n, limits, header, build.messages, places)
    {
      var texts := renderer.blocks(n + 1, items[n]);
      var block := FitBlock(texts, current + SEPARATOR, limits);
      if block.Some? {
        // The block was measured after the separator, so it never overflows the current message here.
        PackedInclude(renderer, items, n, limits, build, current, hasItem, places, SEPARATOR, block.value);
        ReasonedInclude(renderer, items, n, limits, header, build.messages, places,
          Place(n, |build.messages|, block.value));
        places := places + [Place(n, |build.messages|, block.value)];
        current, hasItem := current + SEPARATOR + block.value, true;
        build := Include(renderer, build, items[n]);
        continue;
      }
      if current == header {
        PackedOmit(renderer, items, n, limits, build, current, hasItem, places);
        ReasonedOmit(renderer, items, n, limits, header, build.messages, places);
        build := build.(omitted := build.omitted + [items[n]]);
        continue;
      }
      PackedCurrent(renderer, items, n, limits, build, current, hasItem, places);
      if !Accepts(renderer, current, limits) {
        return Err(Invalid(current)), places;
      }
      var start := Continue(renderer, |build.messages| + 1, limits);
      if start.Err? {
        return Err(start.error), places;
      }
      var continuation := start.value;
      PackedFlush(renderer, items, n, limits, build, current, hasItem, places, continuation);
      ReasonedFlush(renderer, items, n, limits, header, build.messages, places, current);
      build := build.(messages := build.messages + [current]);
      block := FitBlock(texts, continuation, limits);
      if block.None? {
        PackedOmit(renderer, items, n, limits, build, continuation, false, places);
        ReasonedOmit(renderer, items, n, limits, header, build.messages, places);
        current, hasItem := continuation, false;
        build := build.(omitted := build.omitted + [items[n]]);
      } else {
        assert continuation + "" + block.value == continuation + block.value;
        PackedInclude(renderer, items, n, limits, build, continuation, false, places, "", block.value);
        ReasonedInclude(renderer, items, n, limits, header, build.messages, places,
          Place(n, |build.messages|, block.value));
        places := places + [Place(n, |build.messages|, block.value)];
        current, hasItem := continuation + block.value, true;
        build := Include(renderer, build, items[n]);
      }
    }
    assert items[..|items|] == items;
    PackedClose(renderer, items, limits, build, current, hasItem, places);
    ghost var closed := build.messages;
    if hasItem || build.messages == [] {
      assert (closed + [current])[..|closed|] == closed;
      build := build.(messages := build.messages + [current]);
    }
    ReasonedPart(renderer, items, limits, header, closed, places, build.messages[..|build.messages| - 1]);
    return Ok(build), places;
  }

  lemma PackedCurrent(renderer: Renderer, items: seq<NewsItem>, n: nat, limits: Limits, build: Build, current: string,
                      hasItem: bool, places: seq<Place>)
    requires n <= |items| && Packed(renderer, items, n, limits, build, current, hasItem, places)
    ensures Within(current, limits)
  {
  }

  lemma ReasonedNothing(renderer: Renderer, items: seq<NewsItem>, limits: Limits, header: string)
    ensures Reasoned(renderer, items, 0, limits, header, [], [])
  {
  }

  lemma ReasonedPart(renderer: Renderer, items: seq<NewsItem>, limits: Limits, header: string, messages: seq<string>,
                     places: seq<Place>, part: seq<string>)
    requires Reasoned(renderer, items, |items|, limits, header, messages, places) && part <= messages
    ensures Reasoned(renderer, items, |items|, limits, header, part, places)
  {
  }


  /** The header of a later message. */
  method Continue(renderer: Renderer, chunk: nat, limits: Limits) returns (r: Result<string, Failure>)
    ensures r.Ok? ==>
      r.value in renderer.continuations(chunk) && Within(r.value, limits) && Accepts(renderer, r.value, limits)
    ensures r.Err? ==> r.error != NoHeader
    ensures r.Err? && r.error.Invalid? ==> Within(r.error.text, limits) && !Accepts(renderer, r.error.text, limits)
  {
    var text := FirstFitting(renderer.continuations(chunk), limits);
    if text.None? {
      return Err(NoContinuation);
    }
    if !Accepts(renderer, text.value, limits) {
      return Err(Invalid(text.value));
    }
    return Ok(text.value);
  }

  function Include(renderer: Renderer, build: Build, item: NewsItem): Build {
    build.(included := build.included + [item], chunks := build.chunks[renderer.fingerprint(item) := |build.messages|])
  }

  lemma FitsIsWithin(text: string, limits: Limits)
    requires FitsMessage(text, limits)
    ensures Within(text, limits)
  {
  }

  lemma PackedNothing(renderer: Renderer, items: seq<NewsItem>, limits: Limits, header: string)
    requires Within(header, limits)
    ensures Packed(renderer, items, 0, limits, Build([], [], [], map[]), header, false, [])
  {
  }

  /** The finished packing. */
  ghost predicate WellPacked(renderer: Renderer, items: seq<NewsItem>, limits: Limits, build: Build, places: seq<Place>)
  {
    && (forall i :: 0 <= i < |build.messages| ==> Within(build.messages[i], limits))
    && Placed(renderer, items, build.messages, places)
    && Split(items, places, build.included, build.omitted)
    && build.chunks == ChunkMap(renderer, items, places)
  }

  lemma PackedClose(renderer: Renderer, items: seq<NewsItem>, limits: Limits, build: Build, current: string,
                    hasItem: bool, places: seq<Place>)
    requires Packed(renderer, items, |items|, limits, build, current, hasItem, places)
    ensures WellPacked(renderer, items, limits, build.(messages := build.messages + [current]), places)
    ensures !hasItem ==> WellPacked(renderer, items, limits, build, places)
  {
    assert items[..|items|] == items;
    var all := build.messages + [current];
    if !hasItem {
      forall i | 0 <= i < |places| ensures PlacedWell(renderer, items, build.messages, places[i]) {
        assert PlacedWell(renderer, items, all, places[i]);
        assert all[places[i].chunk] == build.messages[places[i].chunk];
      }
    }
  }

  /** A longer last message, or one more message, keeps every story where it is. */
  lemma NoteKeepsPlaces(renderer: Renderer, items: seq<NewsItem>, limits: Limits, build: Build, places: seq<Place>,
                        messages: seq<string>)
    requires WellPacked(renderer, items, limits, build, places) && build.messages != []
    requires |messages| >= |build.messages|
    requires forall i :: 0 <= i < |messages| ==> Within(messages[i], limits)
    requires forall i :: 0 <= i < |build.messages| ==> build.messages[i] <= messages[i]
    ensures WellPacked(renderer, items, limits, build.(messages := messages), places)
  {
    forall i | 0 <= i < |places| ensures PlacedWell(renderer, items, messages, places[i]) {
      assert PlacedWell(renderer, items, build.messages, places[i]);
      var short, long := build.messages[places[i].chunk], messages[places[i].chunk];
      assert long == short + long[|short|..];
      ContainsLonger(short, places[i].block, long[|short|..]);
    }
  }

  /**
   * build_digest.  Included and omitted stories split the input in order, the
   * map leads each story to a message holding its text, messages are closed and
   * stories omitted only for want of room, and every message is within the
   * limits by construction: what the final validation can still refuse is only
   * markup, or a unit limit set above the remote's own.
   */
  method BuildDigest(renderer: Renderer, items: seq<NewsItem>, issues: nat, limits: Limits)
    returns (r: Result<Build, Failure>, ghost places: seq<Place>, ghost header: string, ghost closed: nat)
    ensures r.Ok? ==> r.value.messages != [] && WellPacked(renderer, items, limits, r.value, places)
    ensures r.Ok? ==> header in renderer.headers && |r.value.messages| - 2 <= closed < |r.value.messages|
    ensures r.Ok? ==> Reasoned(renderer, items, |items|, limits, header, r.value.messages[..closed], places)
    ensures r.Ok? ==> forall i :: 0 <= i < |r.value.messages| ==> Accepts(renderer, r.value.messages[i], limits)
    ensures r.Err? && r.error.Invalid? ==>
      Within(r.error.text, limits) &&
        (renderer.wellFormed(r.error.text) && r.error.text != "" ==> Units(r.error.text) >= MAX_UNITS)
    ensures r == Err(NoHeader) ==> forall h :: h in renderer.headers ==> !FitsMessage(h, limits)
  {
    hide Reasoned;
    places, header, closed := [], "", 0;
    var first := FirstFitting(renderer.headers, limits);
    if first.None? {
      return Err(NoHeader), places, header, closed;
    }
    if !Accepts(renderer, first.value, limits) {
      AcceptedUnless(renderer, first.value, limits);
      return Err(Invalid(first.value)), places, header, closed;
    }
    header := first.value;
    var packed;
    packed, places := Pack(renderer, items, first.value, limits);
    if packed.Err? {
      if packed.error.Invalid? {
        AcceptedUnless(renderer, packed.error.text, limits);
      }
      return Err(packed.error), places, header, closed;
    }
    var build := packed.value;
    closed := |build.messages| - 1;
    if issues > 0 || build.omitted != [] {
      var (inline, alone) := renderer.note(issues, |build.omitted|);
      var messages := AppendNote(build.messages, inline, alone, limits);
      NoteKeepsPlaces(renderer, items, limits, build, places, messages);
      assert messages[..closed] == build.messages[..closed];
      build := build.(messages := messages);
    }
    for i := 0 to |build.messages|
      invariant forall j :: 0 <= j < i ==> Accepts(renderer, build.messages[j], limits)
    {
      if !Accepts(renderer, build.messages[i], limits) {
        AcceptedUnless(renderer, build.messages[i], limits);
        return Err(Invalid(build.messages[i])), places, header, closed;
      }
    }
    return Ok(build), places, header, closed;
  }

  /** The closing note, in the last message if it fits there, else as a message of its own, else not at all. */
  method AppendNote(messages: seq<string>, inline: string, alone: string, limits: Limits) returns (noted: seq<string>)
    requires messages != [] && limits.units > 0 && limits.bytes > 0
    requires forall i :: 0 <= i < |messages| ==> Within(messages[i], limits)
    ensures |messages| <= |noted| <= |messages| + 1 && noted[..|messages| - 1] == messages[..|messages| - 1]
    ensures messages[|messages| - 1] <= noted[|messages| - 1]
    ensures forall i :: 0 <= i < |noted| ==> Within(noted[i], limits)
  {
    var last := |messages| - 1;
    if Within(messages[last] + inline, limits) {
      return messages[last := messages[last] + inline];
    }
    if Within(alone, Limits(Max(1, limits.units), Max(1, limits.bytes))) {
      return messages + [alone];
    }
    return messages;
  }

  lemma AcceptedUnless(renderer: Renderer, text: string, limits: Limits)
    requires Within(text, limits) && !Accepts(renderer, text, limits)
    ensures renderer.wellFormed(text) && text != "" ==> Units(text) >= MAX_UNITS
  {
    if text != "" {
      assert Units(text) > 0 && Bytes(text) > 0;
    }
  }

  // ----- reading a packing

  /** A split, position by position. */
  lemma {:induction false} SplitIs(items: seq<NewsItem>, places: seq<Place>, included: seq<NewsItem>,
                                   omitted: seq<NewsItem>)
    requires Split(items, places, included, omitted)
    requires forall i, j :: 0 <= i < j < |places| ==> places[i].position < places[j].position
    requires forall i :: 0 <= i < |places| ==> places[i].position < |items|
    ensures |included| == |places| && |included| + |omitted| == |items|
    ensures forall i :: 0 <= i < |included| ==> included[i] == items[places[i].position]
  {
    if items != [] {
      var n := |items| - 1;
      if places != [] && places[|places| - 1].position == n {
        SplitIs(items[..n], places[..|places| - 1], included[..|included| - 1], omitted);
      } else {
        SplitIs(items[..n], places, included, omitted[..|omitted| - 1]);
      }
    }
  }

  ghost predicate DistinctAt(renderer: Renderer, items: seq<NewsItem>, places: seq<Place>)
    requires forall i :: 0 <= i < |places| ==> places[i].position < |items|
  {
    forall i, j :: 0 <= i < j < |places| ==>
      renderer.fingerprint(items[places[i].position]) != renderer.fingerprint(items[places[j].position])
  }

  /** With distinct fingerprints the map sends each placed story to its message. */
  lemma {:induction false} ChunkMapLeads(renderer: Renderer, items: seq<NewsItem>, places: seq<Place>)
    requires forall i :: 0 <= i < |places| ==> places[i].position < |items|
    requires DistinctAt(renderer, items, places)
    ensures
      var chunks := ChunkMap(renderer, items, places);
      forall i :: 0 <= i < |places| ==>
        var key := renderer.fingerprint(items[places[i].position]);
        key in chunks && chunks[key] == places[i].chunk
  {
    if places != [] {
      ChunkMapLeads(renderer, items, places[..|places| - 1]);
    }
  }

  function StoriesIn(renderer: Renderer, items: seq<NewsItem>, url: NewsItem -> Digest): seq<Story> {
    seq(|items|, i requires 0 <= i < |items| => Story(renderer.fingerprint(items[i]), url(items[i])))
  }

  /**
   * Frozen as they are packed: once a delivery is prepared from a packing, the
   * chunk that an item row names carries a text in which that story's own block
   * stands.
   */
  lemma FrozenChunkHoldsStory(renderer: Renderer, items: seq<NewsItem>, limits: Limits, build: Build,
                              places: seq<Place>, url: NewsItem -> Digest, db: Db, d: DeliveryId, target: string,
                              owner: RunId, now: Time, i: nat)
    requires WellPacked(renderer, items, limits, build, places) && i < |build.included|
    requires Prepare(db, d, StoriesIn(renderer, build.included, url), build.messages, build.chunks,
      target, owner, now).Ok?
    ensures
      var db' := Prepare(db, d, StoriesIn(renderer, build.included, url), build.messages, build.chunks, target,
        owner, now).value;
      && d in db'.items && i < |db'.items[d]| && db'.items[d][i].fingerprint == renderer.fingerprint(build.included[i])
      && exists c: ChunkId, block: string, position: nat ::
           && c in db'.chunks && db'.chunks[c].delivery == d && db'.chunks[c].sequence == db'.items[d][i].chunkIndex
           && position < |items| && items[position] == build.included[i] &&
              block in renderer.blocks(position + 1, items[position])
           && Contains(db'.chunks[c].payload, block)
  {
    hide Split, ChunkMap, Contains, Prepare;
    var stories := StoriesIn(renderer, build.included, url);
    SplitIs(items, places, build.included, build.omitted);
    var place := places[i];
    assert PlacedWell(renderer, items, build.messages, place);
    PreparedRows(db, d, stories, build.messages, build.chunks, target, owner, now, i, place.chunk);
    forall p, q | 0 <= p < q < |places|
      ensures renderer.fingerprint(items[places[p].position]) != renderer.fingerprint(items[places[q].position])
    {
      assert stories[p].fingerprint != stories[q].fingerprint;
    }
    ChunkMapLeads(renderer, items, places);
    hide Placed;
  }

  /** The rows a committed preparation inserts. */
  lemma PreparedRows(db: Db, d: DeliveryId, stories: seq<Story>, messages: seq<string>, indexes: map<Digest, int>,
                     target: string, owner: RunId, now: Time, i: nat, sequence: nat)
    requires Prepare(db, d, stories, messages, indexes, target, owner, now).Ok? && i < |stories| &&
      sequence < |messages|
    ensures
      var db' := Prepare(db, d, stories, messages, indexes, target, owner, now).value;
      var c := db.nextChunk + sequence;
      && DistinctFingerprints(stories)
      && d in db'.items && i < |db'.items[d]|
      && db'.items[d][i] == Item(stories[i].fingerprint, stories[i].url, ChunkIndexOf(indexes, stories[i].fingerprint))
      && c in db'.chunks && db'.chunks[c] == FreshChunk(d, sequence, messages[sequence])
  {
    hide HasChunks, DistinctFingerprints, IndexesInRange;
    assert db.nextChunk + sequence in FreshChunks(d, messages, db.nextChunk);
  }
}
