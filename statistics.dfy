/**
 * src/utils/statistics.ts: `calculateStats` counts, over the readings of one
 * deck, how often each card and each deck group was drawn, and picks the
 * most frequent card. `getDeck(deckId)` is the parameter `deck`.
 *
 * The dictionaries are JavaScript objects, which enumerate their keys in
 * insertion order; `cardKeys` below is that order for `cardCounts`.
 */
module Statistics {
  import opened Types
  import opened Seqs

  datatype Stats = Stats(
    totalReadings: nat,
    topCardId: Option<string>,
    topCardCount: nat,
    suitCounts: map<string, nat>,
    totalCards: nat)

  // ---- specification ----

  function BelongsTo(deckId: string): ReadingSession -> bool {
    (r: ReadingSession) => r.deckId == deckId
  }

  /** `readings.filter(r => r.deckId === deckId)`. */
  function ForDeck(readings: seq<ReadingSession>, deckId: string): (r: seq<ReadingSession>)
    ensures |r| <= |readings|
    ensures forall x :: x in r <==> x in readings && x.deckId == deckId
  {
    Filter(readings, BelongsTo(deckId))
  }

  /** Every drawn card of the readings, reading by reading: a card is drawn
      exactly when some reading holds it. */
  function Draws(rs: seq<ReadingSession>): (r: seq<DrawnCard>)
    ensures forall d :: d in r <==> exists k :: 0 <= k < |rs| && d in rs[k].cards
  {
    if rs == [] then []
    else
      var before := rs[..|rs| - 1];
      assert forall k :: 0 <= k < |before| ==> before[k] == rs[k];
      Draws(before) + rs[|rs| - 1].cards
  }

  /** How many times `k` occurs in `s`. */
  function Count(s: seq<string>, k: string): nat {
    if s == [] then 0 else Count(s[..|s| - 1], k) + (if s[|s| - 1] == k then 1 else 0)
  }

  /** The distinct elements of `s` in the order they first occur. */
  function Dedup(s: seq<string>): seq<string> {
    if s == [] then []
    else if s[|s| - 1] in s[..|s| - 1] then Dedup(s[..|s| - 1])
    else Dedup(s[..|s| - 1]) + [s[|s| - 1]]
  }

  /** The group a drawn card is tallied under: "major" for a major card,
      otherwise its suit; none when the deck or the card is unknown, or a
      non-major card (minor, oracle or other) has no suit. */
  function GroupKey(deck: Option<Deck>, draw: DrawnCard): (r: Option<string>)
    ensures r.Some? ==> deck.Some? && FindCard(deck.value.cards, draw.cardId).Some?
    ensures r.Some? ==> var card := FindCard(deck.value.cards, draw.cardId).value;
                        if card.meta.cardType == Major then r.value == "major"
                        else card.meta.suit.Some? && r.value == SuitName(card.meta.suit.value)
    ensures deck.Some? && FindCard(deck.value.cards, draw.cardId).Some? ==>
              var card := FindCard(deck.value.cards, draw.cardId).value;
              (r.None? <==> card.meta.cardType != Major && card.meta.suit.None?)
  {
    if deck.None? then None
    else match FindCard(deck.value.cards, draw.cardId)
      case None => None
      case Some(card) =>
        if card.meta.cardType == Major then Some("major")
        else if card.meta.suit.Some? then Some(SuitName(card.meta.suit.value))
        else None
  }

  /** How many of `draws` are tallied under group `k`. */
  function GroupCount(deck: Option<Deck>, draws: seq<DrawnCard>, k: string): nat {
    if draws == [] then 0
    else GroupCount(deck, draws[..|draws| - 1], k) + (if GroupKey(deck, draws[|draws| - 1]) == Some(k) then 1 else 0)
  }

  function GroupOrder(deck: Option<Deck>): seq<string> {
    if deck.Some? then deck.value.info.groupOrder else []
  }

  /** `cardCounts` after tallying `draws`, with its key order `keys`. */
  ghost predicate CardTally(draws: seq<DrawnCard>, keys: seq<string>, counts: map<string, nat>) {
    && keys == Dedup(DrawnIds(draws))
    && (forall k :: k in counts <==> k in DrawnIds(draws))
    && (forall k :: k in counts ==> counts[k] == Count(DrawnIds(draws), k))
  }

  /** `suitCounts` after tallying `draws`. */
  ghost predicate SuitTally(deck: Option<Deck>, draws: seq<DrawnCard>, suitCounts: map<string, nat>) {
    && (forall k :: k in suitCounts <==> k in GroupOrder(deck))
    && (forall k :: k in suitCounts ==> suitCounts[k] == GroupCount(deck, draws, k))
  }

  // ---- the computation ----

  /** The final `Object.entries(cardCounts).forEach` loop: the first key, in
      key order, whose count is strictly larger than every earlier one. */
  method TopCard(keys: seq<string>, counts: map<string, nat>) returns (topId: Option<string>, maxCount: nat)
    requires forall i :: 0 <= i < |keys| ==> keys[i] in counts
    ensures forall i :: 0 <= i < |keys| ==> counts[keys[i]] <= maxCount
    ensures topId.None? ==> maxCount == 0
    ensures topId.Some? ==> exists j :: 0 <= j < |keys| && keys[j] == topId.value && counts[keys[j]] == maxCount
                                         && maxCount > 0 && forall i :: 0 <= i < j ==> counts[keys[i]] < maxCount
    ensures topId.None? ==> forall i :: 0 <= i < |keys| ==> counts[keys[i]] == 0
  {
    topId, maxCount := None, 0;
    var idx := 0;
    ghost var j := 0;
    while idx < |keys|
      invariant 0 <= idx <= |keys|
      invariant forall i :: 0 <= i < idx ==> counts[keys[i]] <= maxCount
      invariant topId.None? ==> maxCount == 0
      invariant topId.Some? ==> 0 <= j < idx && keys[j] == topId.value && counts[keys[j]] == maxCount
                                 && maxCount > 0 && forall i :: 0 <= i < j ==> counts[keys[i]] < maxCount
    {
      var count := counts[keys[idx]];
      if count > maxCount {
        maxCount := count;
        topId := Some(keys[idx]);
        j := idx;
      }
      idx := idx + 1;
    }
  }

  /** Step 2 of `calculateStats`: a zero count for every group of the deck. */
  method InitSuitCounts(deck: Option<Deck>) returns (suitCounts: map<string, nat>)
    ensures SuitTally(deck, [], suitCounts)
  {
    suitCounts := map[];
    if deck.Some? {
      var groupKeys := deck.value.info.groupOrder;
      var g := 0;
      while g < |groupKeys|
        invariant 0 <= g <= |groupKeys|
        invariant forall k :: k in suitCounts <==> k in groupKeys[..g]
        invariant forall k :: k in suitCounts ==> suitCounts[k] == 0
      {
        assert groupKeys[..g + 1] == groupKeys[..g] + [groupKeys[g]];
        suitCounts := suitCounts[groupKeys[g] := 0];
        g := g + 1;
      }
      assert groupKeys[..g] == groupKeys;
    }
  }

  /** The body of `reading.cards.forEach(drawn => ...)`: count the card's
      id, the card itself, and its group when the deck has that group. */
  method TallyCard(deck: Option<Deck>, ghost done: seq<DrawnCard>, drawn: DrawnCard,
                   cardKeys0: seq<string>, cardCounts0: map<string, nat>,
                   suitCounts0: map<string, nat>, totalCards0: nat)
    returns (cardKeys: seq<string>, cardCounts: map<string, nat>, suitCounts: map<string, nat>, totalCards: nat)
    requires totalCards0 == |done|
    requires CardTally(done, cardKeys0, cardCounts0)
    requires SuitTally(deck, done, suitCounts0)
    ensures totalCards == |done + [drawn]|
    ensures CardTally(done + [drawn], cardKeys, cardCounts)
    ensures SuitTally(deck, done + [drawn], suitCounts)
  {
    var seen := if drawn.cardId in cardCounts0 then cardCounts0[drawn.cardId] else 0;
    cardKeys := if drawn.cardId in cardCounts0 then cardKeys0 else cardKeys0 + [drawn.cardId];
    cardCounts := cardCounts0[drawn.cardId := seen + 1];
    CardTallyStep(done, drawn, cardKeys0, cardCounts0);
    totalCards := totalCards0 + 1;

    var groupKey := GroupKey(deck, drawn);
    suitCounts := suitCounts0;
    if groupKey.Some? && groupKey.value in suitCounts {
      suitCounts := suitCounts[groupKey.value := suitCounts[groupKey.value] + 1];
    }
    SuitTallyStep(deck, done, drawn, suitCounts0);
  }

  /** Step 3 for one reading: `reading.cards.forEach(drawn => ...)`, given
      the tallies of the cards `before` it. */
  method TallyReading(deck: Option<Deck>, ghost before: seq<DrawnCard>, cards: seq<DrawnCard>,
                      cardKeys0: seq<string>, cardCounts0: map<string, nat>,
                      suitCounts0: map<string, nat>, totalCards0: nat)
    returns (cardKeys: seq<string>, cardCounts: map<string, nat>, suitCounts: map<string, nat>, totalCards: nat)
    requires totalCards0 == |before|
    requires CardTally(before, cardKeys0, cardCounts0)
    requires SuitTally(deck, before, suitCounts0)
    ensures totalCards == |before + cards|
    ensures CardTally(before + cards, cardKeys, cardCounts)
    ensures SuitTally(deck, before + cards, suitCounts)
  {
    cardKeys, cardCounts, suitCounts, totalCards := cardKeys0, cardCounts0, suitCounts0, totalCards0;
    var j := 0;
    assert before + cards[..0] == before;
    while j < |cards|
      invariant 0 <= j <= |cards|
      invariant totalCards == |before + cards[..j]|
      invariant CardTally(before + cards[..j], cardKeys, cardCounts)
      invariant SuitTally(deck, before + cards[..j], suitCounts)
    {
      assert before + cards[..j + 1] == (before + cards[..j]) + [cards[j]];
      cardKeys, cardCounts, suitCounts, totalCards :=
        TallyCard(deck, before + cards[..j], cards[j], cardKeys, cardCounts, suitCounts, totalCards);
      j := j + 1;
    }
    assert cards[..j] == cards;
  }

  /** `calculateStats(readings, deckId)` with `deck == getDeck(deckId)`. */
  method CalculateStats(readings: seq<ReadingSession>, deckId: string, deck: Option<Deck>) returns (stats: Stats)
    ensures stats.totalReadings == |ForDeck(readings, deckId)|
    ensures var draws := Draws(ForDeck(readings, deckId));
            && stats.totalCards == |draws|
            && SuitTally(deck, draws, stats.suitCounts)
    ensures var ids := DrawnIds(Draws(ForDeck(readings, deckId)));
            var keys := Dedup(ids);
            && (forall k :: k in ids ==> Count(ids, k) <= stats.topCardCount)
            && (stats.topCardId.None? <==> ids == [])
            && (stats.topCardId.None? ==> stats.topCardCount == 0)
            && (stats.topCardId.Some? ==>
                  exists j :: 0 <= j < |keys| && keys[j] == stats.topCardId.value
                              && Count(ids, keys[j]) == stats.topCardCount
                              && forall i :: 0 <= i < j ==> Count(ids, keys[i]) < stats.topCardCount)
  {
    var filtered := ForDeck(readings, deckId);
    var suitCounts := InitSuitCounts(deck);
    var cardKeys, cardCounts, totalCards;
    cardKeys, cardCounts, suitCounts, totalCards := TallyReadings(deck, filtered, suitCounts);

    ghost var ids := DrawnIds(Draws(filtered));
    DedupElements(ids);
    var topCardId, maxCount := TopCard(cardKeys, cardCounts);
    TopCardOfTally(ids, cardKeys, cardCounts, topCardId, maxCount);
    stats := Stats(|filtered|, topCardId, maxCount, suitCounts, totalCards);
  }

  /** Step 3: `filteredReadings.forEach(reading => ...)`, from empty card
      counts and the initial group counts. */
  method TallyReadings(deck: Option<Deck>, filtered: seq<ReadingSession>, suitCounts0: map<string, nat>)
    returns (cardKeys: seq<string>, cardCounts: map<string, nat>, suitCounts: map<string, nat>, totalCards: nat)
    requires SuitTally(deck, [], suitCounts0)
    ensures totalCards == |Draws(filtered)|
    ensures CardTally(Draws(filtered), cardKeys, cardCounts)
    ensures SuitTally(deck, Draws(filtered), suitCounts)
  {
    cardKeys, cardCounts, suitCounts, totalCards := [], map[], suitCounts0, 0;
    var i := 0;
    while i < |filtered|
      invariant 0 <= i <= |filtered|
      invariant totalCards == |Draws(filtered[..i])|
      invariant CardTally(Draws(filtered[..i]), cardKeys, cardCounts)
      invariant SuitTally(deck, Draws(filtered[..i]), suitCounts)
    {
      assert filtered[..i + 1][..i] == filtered[..i];
      cardKeys, cardCounts, suitCounts, totalCards :=
        TallyReading(deck, Draws(filtered[..i]), filtered[i].cards, cardKeys, cardCounts, suitCounts, totalCards);
      i := i + 1;
    }
    assert filtered[..i] == filtered;
  }

  /** What `TopCard` promises about the tally, restated over the drawn ids. */
  lemma TopCardOfTally(ids: seq<string>, keys: seq<string>, counts: map<string, nat>,
                       topId: Option<string>, maxCount: nat)
    requires keys == Dedup(ids)
    requires forall k :: k in counts <==> k in ids
    requires forall i :: 0 <= i < |keys| ==> keys[i] in counts
    requires forall k :: k in counts ==> counts[k] == Count(ids, k)
    requires forall i :: 0 <= i < |keys| ==> counts[keys[i]] <= maxCount
    requires topId.None? ==> maxCount == 0 && forall i :: 0 <= i < |keys| ==> counts[keys[i]] == 0
    requires topId.Some? ==> exists j :: 0 <= j < |keys| && keys[j] == topId.value && counts[keys[j]] == maxCount
                                         && maxCount > 0 && forall i :: 0 <= i < j ==> counts[keys[i]] < maxCount
    ensures forall k :: k in ids ==> Count(ids, k) <= maxCount
    ensures topId.None? <==> ids == []
    ensures topId.Some? ==> exists j :: 0 <= j < |keys| && keys[j] == topId.value && Count(ids, keys[j]) == maxCount
                                         && forall i :: 0 <= i < j ==> Count(ids, keys[i]) < maxCount
  {
    DedupElements(ids);
    forall k | k in ids ensures Count(ids, k) <= maxCount {
      assert k in keys;
      var i :| 0 <= i < |keys| && keys[i] == k;
    }
    if ids != [] {
      assert ids[0] in keys;
      CountPositive(ids, ids[0]);
      var i :| 0 <= i < |keys| && keys[i] == ids[0];
    }
    if topId.Some? {
      var j :| 0 <= j < |keys| && keys[j] == topId.value && counts[keys[j]] == maxCount
               && maxCount > 0 && forall i :: 0 <= i < j ==> counts[keys[i]] < maxCount;
      assert keys[j] in ids;
      assert forall i :: 0 <= i < j ==> keys[i] in ids && Count(ids, keys[i]) < maxCount;
    }
  }

  // ---- lemmas about the specification ----

  /** One more draw adds its id at the end of the id list. */
  lemma IdsSnoc(done: seq<DrawnCard>, drawn: DrawnCard)
    ensures DrawnIds(done + [drawn]) == DrawnIds(done) + [drawn.cardId]
  {
  }

  /** One more id bumps exactly that id's count. */
  lemma CountSnoc(s: seq<string>, x: string, k: string)
    ensures Count(s + [x], k) == Count(s, k) + (if k == x then 1 else 0)
  {
    assert (s + [x])[..|s|] == s;
  }

  /** One more id extends the key order exactly when it is new. */
  lemma DedupSnoc(s: seq<string>, x: string)
    ensures Dedup(s + [x]) == if x in s then Dedup(s) else Dedup(s) + [x]
  {
    assert (s + [x])[..|s|] == s;
  }

  /** One more draw bumps at most one group count: that of its group. */
  lemma GroupStep(deck: Option<Deck>, done: seq<DrawnCard>, drawn: DrawnCard)
    ensures forall k :: GroupCount(deck, done + [drawn], k)
                          == GroupCount(deck, done, k) + (if GroupKey(deck, drawn) == Some(k) then 1 else 0)
  {
    assert (done + [drawn])[..|done|] == done;
  }

  /** One card of the inner loop keeps `cardKeys` and `cardCounts` in step. */
  lemma CardTallyStep(done: seq<DrawnCard>, drawn: DrawnCard, keys: seq<string>, counts: map<string, nat>)
    requires CardTally(done, keys, counts)
    ensures var seen := if drawn.cardId in counts then counts[drawn.cardId] else 0;
            CardTally(done + [drawn],
                      if drawn.cardId in counts then keys else keys + [drawn.cardId],
                      counts[drawn.cardId := seen + 1])
  {
    var x := drawn.cardId;
    var ids, ids' := DrawnIds(done), DrawnIds(done + [drawn]);
    IdsSnoc(done, drawn);
    var seen := if x in counts then counts[x] else 0;
    var keys' := if x in counts then keys else keys + [x];
    var counts' := counts[x := seen + 1];
    if x !in counts {
      CountAbsent(ids, x);
    }
    assert seen == Count(ids, x);
    DedupSnoc(ids, x);
    assert keys' == Dedup(ids');
    forall k
      ensures k in counts' <==> k in ids'
      ensures k in counts' ==> counts'[k] == Count(ids', k)
    {
      assert k in ids' <==> k in ids || k == x;
      CountSnoc(ids, x, k);
    }
  }

  /** One card of the inner loop keeps `suitCounts` in step. */
  lemma SuitTallyStep(deck: Option<Deck>, done: seq<DrawnCard>, drawn: DrawnCard, suitCounts: map<string, nat>)
    requires SuitTally(deck, done, suitCounts)
    ensures var g := GroupKey(deck, drawn);
            SuitTally(deck, done + [drawn],
                      if g.Some? && g.value in suitCounts then suitCounts[g.value := suitCounts[g.value] + 1] else suitCounts)
  {
    GroupStep(deck, done, drawn);
  }

  lemma {:induction false} CountAbsent(s: seq<string>, k: string)
    requires k !in s
    ensures Count(s, k) == 0
  {
    if s != [] {
      assert s[..|s| - 1] <= s;
      CountAbsent(s[..|s| - 1], k);
    }
  }

  lemma {:induction false} CountPositive(s: seq<string>, k: string)
    requires k in s
    ensures Count(s, k) > 0
  {
    var p := s[..|s| - 1];
    if s[|s| - 1] != k {
      assert k in p by {
        var i :| 0 <= i < |s| && s[i] == k;
        assert i < |s| - 1 && p[i] == k;
      }
      CountPositive(p, k);
    }
  }

  /** An element of a sequence without repetitions occurs in it once. */
  lemma {:induction false} CountDistinct(s: seq<string>, k: string)
    requires Distinct(s)
    ensures Count(s, k) == if k in s then 1 else 0
  {
    if s != [] {
      var p := s[..|s| - 1];
      var last := s[|s| - 1];
      CountDistinct(p, k);
      assert last !in p by {
        assert forall i :: 0 <= i < |p| ==> p[i] == s[i] && s[i] != last;
      }
      assert s == p + [last];
      assert k in s <==> k in p || k == last;
    }
  }

  lemma {:induction false} DedupElements(s: seq<string>)
    ensures forall k :: k in Dedup(s) <==> k in s
  {
    if s != [] {
      var p := s[..|s| - 1];
      DedupElements(p);
      assert s == p + [s[|s| - 1]];
    }
  }

  lemma {:induction false} DedupDistinct(s: seq<string>)
    ensures Distinct(Dedup(s))
  {
    if s != [] {
      var p := s[..|s| - 1];
      DedupDistinct(p);
      DedupElements(p);
    }
  }

  /** The sum of the counts of `keys` in `ids`. */
  function SumCounts(keys: seq<string>, ids: seq<string>): nat {
    if keys == [] then 0 else SumCounts(keys[..|keys| - 1], ids) + Count(ids, keys[|keys| - 1])
  }

  lemma {:induction false} SumCountsSnoc(keys: seq<string>, ids: seq<string>, x: string)
    ensures SumCounts(keys, ids + [x]) == SumCounts(keys, ids) + Count(keys, x)
  {
    if keys != [] {
      SumCountsSnoc(keys[..|keys| - 1], ids, x);
      assert (ids + [x])[..|ids|] == ids;
    }
  }

  /** The per-card counts add up to the number of drawn cards: the values of
      `cardCounts` sum to `totalCards`. */
  lemma {:induction false} CardCountsSumToTotal(ids: seq<string>)
    ensures SumCounts(Dedup(ids), ids) == |ids|
  {
    if ids != [] {
      var p := ids[..|ids| - 1];
      var x := ids[|ids| - 1];
      assert ids == p + [x];
      CardCountsSumToTotal(p);
      DedupDistinct(p);
      DedupElements(p);
      SumCountsSnoc(Dedup(p), p, x);
      CountDistinct(Dedup(p), x);
      if x !in p {
        assert (Dedup(p) + [x])[..|Dedup(p)|] == Dedup(p);
        CountAbsent(p, x);
      }
    }
  }

  /** The sum of the group counts of `keys`. */
  function SumGroups(keys: seq<string>, deck: Option<Deck>, draws: seq<DrawnCard>): nat {
    if keys == [] then 0 else SumGroups(keys[..|keys| - 1], deck, draws) + GroupCount(deck, draws, keys[|keys| - 1])
  }

  lemma {:induction false} SumGroupsSnoc(keys: seq<string>, deck: Option<Deck>, draws: seq<DrawnCard>, d: DrawnCard)
    ensures SumGroups(keys, deck, draws + [d])
            == SumGroups(keys, deck, draws) + (if GroupKey(deck, d).Some? then Count(keys, GroupKey(deck, d).value) else 0)
  {
    if keys != [] {
      SumGroupsSnoc(keys[..|keys| - 1], deck, draws, d);
      GroupStep(deck, draws, d);
    }
  }

  lemma {:induction false} SumGroupsNoDraws(keys: seq<string>, deck: Option<Deck>)
    ensures SumGroups(keys, deck, []) == 0
  {
    if keys != [] {
      SumGroupsNoDraws(keys[..|keys| - 1], deck);
    }
  }

  /** Every drawn card is tallied under at most one group, so the group
      counts never add up to more than the number of drawn cards. */
  lemma {:induction false} SuitCountsAtMostTotal(deck: Option<Deck>, draws: seq<DrawnCard>)
    requires Distinct(GroupOrder(deck))
    ensures SumGroups(GroupOrder(deck), deck, draws) <= |draws|
  {
    if draws == [] {
      SumGroupsNoDraws(GroupOrder(deck), deck);
    } else {
      var p := draws[..|draws| - 1];
      var d := draws[|draws| - 1];
      assert draws == p + [d];
      SuitCountsAtMostTotal(deck, p);
      SumGroupsSnoc(GroupOrder(deck), deck, p, d);
      if GroupKey(deck, d).Some? {
        CountDistinct(GroupOrder(deck), GroupKey(deck, d).value);
      }
    }
  }

  /** Readings of other decks affect no statistic: removing one leaves the
      filtered readings, and so every output, as they were. */
  lemma {:induction false} ForeignReadingIgnored(a: seq<ReadingSession>, r: ReadingSession, b: seq<ReadingSession>, deckId: string)
    requires r.deckId != deckId
    ensures ForDeck(a + [r] + b, deckId) == ForDeck(a + b, deckId)
  {
    var p := BelongsTo(deckId);
    FilterConcat(a + [r], b, p);
    FilterConcat(a, [r], p);
    FilterConcat(a, b, p);
    FilterSingleton(r, p);
    assert Filter(a + [r], p) == Filter(a, p);
  }

  /** Every filtered reading belongs to the deck, and every reading of the
      deck is kept. */
  lemma ForDeckExact(readings: seq<ReadingSession>, deckId: string)
    ensures forall r :: r in ForDeck(readings, deckId) <==> r in readings && r.deckId == deckId
  {
    var f := ForDeck(readings, deckId);
    forall r | r in f ensures r in readings && r.deckId == deckId {
      var i :| 0 <= i < |f| && f[i] == r;
    }
    forall r | r in readings && r.deckId == deckId ensures r in f {
      var i :| 0 <= i < |readings| && readings[i] == r;
    }
  }
}
