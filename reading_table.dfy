/**
 * src/features/reading/ReadingTableScreen.tsx: the table on which the cards
 * of a spread are drawn one slot at a time, and the session that is saved
 * to the history at the end.
 *
 * `drawCards` lives in src/services/rng.ts, which is not part of this
 * model: the one-card draw is the parameter `drawOne`, of which the model
 * assumes only that it returns a card of its non-empty input. The deck
 * (`getDeck(activeDeckId)`), the settings, the AI result and the clock are
 * parameters too.
 */
module ReadingTable {
  import opened Types
  import opened Seqs
  import HistoryStore
  import HistoryScreen

  /** One element of the array `drawCards` returns. */
  datatype CardDraw = CardDraw(card: Card, isReversed: bool)

  type Drawer = (seq<Card>, bool) -> CardDraw

  /** What the draw engine guarantees: a card of the deck it was given. */
  ghost predicate DrawsFromInput(drawOne: Drawer) {
    forall cards: seq<Card>, allowReversed: bool :: |cards| > 0 ==> drawOne(cards, allowReversed).card in cards
  }

  /** What `handleDrawCard` did: nothing without a deck, an alert when the
      deck is exhausted, or the card it appended. */
  datatype DrawOutcome = NoDeck | Exhausted | Drawn(card: DrawnCard)

  function Positions(drawn: seq<DrawnCard>): (r: seq<string>)
    ensures |r| == |drawn| && forall i :: 0 <= i < |drawn| ==> r[i] == drawn[i].positionId
  {
    seq(|drawn|, i requires 0 <= i < |drawn| => drawn[i].positionId)
  }

  function SlotIds(slots: seq<SpreadPosition>): (r: seq<string>)
    ensures |r| == |slots| && forall i :: 0 <= i < |slots| ==> r[i] == slots[i].id
  {
    seq(|slots|, i requires 0 <= i < |slots| => slots[i].id)
  }

  function IsMajor(): Card -> bool {
    (c: Card) => c.meta.cardType == Major
  }

  function NotDrawn(ids: seq<string>): Card -> bool {
    (c: Card) => c.id !in ids
  }

  /** The deck `drawCards` is given: the major cards only when the setting
      asks for it, without the cards already on the table. */
  function Candidates(cards: seq<Card>, onlyMajorArcana: bool, drawn: seq<DrawnCard>): (r: seq<Card>)
    ensures forall c :: c in r <==>
              c in cards && (onlyMajorArcana ==> c.meta.cardType == Major) && c.id !in DrawnIds(drawn)
  {
    var deckToUse := if onlyMajorArcana then Filter(cards, IsMajor()) else cards;
    assert forall c :: c in deckToUse <==> c in cards && (onlyMajorArcana ==> c.meta.cardType == Major) by {
      if onlyMajorArcana {
        forall c ensures c in deckToUse <==> c in cards && c.meta.cardType == Major {
          if c in cards && c.meta.cardType == Major {
            var i :| 0 <= i < |cards| && cards[i] == c;
            assert IsMajor()(cards[i]);
          }
          if c in deckToUse {
            var i :| 0 <= i < |deckToUse| && deckToUse[i] == c;
          }
        }
      }
    }
    var r := Filter(deckToUse, NotDrawn(DrawnIds(drawn)));
    assert forall c :: c in r <==> c in deckToUse && c.id !in DrawnIds(drawn) by {
      forall c ensures c in r <==> c in deckToUse && c.id !in DrawnIds(drawn) {
        if c in deckToUse && c.id !in DrawnIds(drawn) {
          var i :| 0 <= i < |deckToUse| && deckToUse[i] == c;
          assert NotDrawn(DrawnIds(drawn))(deckToUse[i]);
        }
        if c in r {
          var i :| 0 <= i < |r| && r[i] == c;
        }
      }
    }
    r
  }

  /** A card drawn from the candidates is never one already on the table,
      and is a major card when only major cards are allowed. */
  lemma DrawnCardIsFresh(cards: seq<Card>, onlyMajorArcana: bool, drawn: seq<DrawnCard>,
                         drawOne: Drawer, allowReversed: bool)
    requires DrawsFromInput(drawOne)
    requires Candidates(cards, onlyMajorArcana, drawn) != []
    ensures var c := drawOne(Candidates(cards, onlyMajorArcana, drawn), allowReversed).card;
            && c in cards
            && (onlyMajorArcana ==> c.meta.cardType == Major)
            && forall i :: 0 <= i < |drawn| ==> drawn[i].cardId != c.id
  {
    var c := drawOne(Candidates(cards, onlyMajorArcana, drawn), allowReversed).card;
    assert c in Candidates(cards, onlyMajorArcana, drawn);
    assert c.id !in DrawnIds(drawn);
    forall i | 0 <= i < |drawn| ensures drawn[i].cardId != c.id {
      assert DrawnIds(drawn)[i] == drawn[i].cardId;
    }
  }

  /** `drawnCards.length === spread.slots.length`. */
  predicate IsReadingComplete(spread: Spread, drawn: seq<DrawnCard>) {
    |drawn| == |spread.slots|
  }

  /** `drawnCards.find(c => c.positionId === slotId)` finds a card. */
  predicate SlotFilled(drawn: seq<DrawnCard>, slotId: string) {
    slotId in Positions(drawn)
  }

  lemma SubsetSameSize(a: set<string>, b: set<string>)
    requires a <= b && |a| == |b|
    ensures a == b
  {
    var d := b - a;
    assert b == a + d;
    assert a * d == {};
    assert |b| == |a| + |d|;
  }

  /** With one card per slot at most and only slots of the spread used, the
      count test is the same as every slot holding a card. */
  lemma CompleteIffEverySlotFilled(spread: Spread, drawn: seq<DrawnCard>)
    requires Distinct(SlotIds(spread.slots))
    requires Distinct(Positions(drawn))
    requires forall i :: 0 <= i < |drawn| ==> drawn[i].positionId in SlotIds(spread.slots)
    ensures IsReadingComplete(spread, drawn) <==>
            forall j :: 0 <= j < |spread.slots| ==> SlotFilled(drawn, spread.slots[j].id)
  {
    var used := set p | p in Positions(drawn);
    var all := set s | s in SlotIds(spread.slots);
    DistinctCardinality(Positions(drawn));
    DistinctCardinality(SlotIds(spread.slots));
    assert used <= all;
    if IsReadingComplete(spread, drawn) {
      SubsetSameSize(used, all);
      forall j | 0 <= j < |spread.slots| ensures SlotFilled(drawn, spread.slots[j].id) {
        assert SlotIds(spread.slots)[j] in all;
      }
    }
    if forall j :: 0 <= j < |spread.slots| ==> SlotFilled(drawn, spread.slots[j].id) {
      assert all <= used by {
        forall s | s in all ensures s in used {
          var j :| 0 <= j < |spread.slots| && SlotIds(spread.slots)[j] == s;
          assert SlotFilled(drawn, spread.slots[j].id);
        }
      }
      assert used == all;
    }
  }

  // ---- the saved session ----

  /** `new Date().getUTCMilliseconds()` at `nowMs` milliseconds after the
      epoch: only the milliseconds within the current second. */
  function TimestampAsWritten(nowMs: nat): (r: int)
    ensures 0 <= r < 1000
  {
    nowMs % 1000
  }

  /** The Unix timestamp the `timestamp` field is declared to hold. */
  function Timestamp(nowMs: nat): int {
    nowMs
  }

  /** The session object built by `handleSaveAndExit`, given its timestamp:
      `spreadId` is `spread?.id || ''`, the AI text is kept only when it is
      a non-empty string (`result || undefined`), and no question, notes,
      seed or model is recorded. */
  function Session(id: string, timestamp: int, spread: Option<Spread>, activeDeckId: string,
                   drawnCards: seq<DrawnCard>, result: Option<string>): (s: ReadingSession)
    ensures s.id == id && s.timestamp == timestamp && s.deckId == activeDeckId && s.cards == drawnCards
    ensures s.spreadId == (if spread.Some? then spread.value.id else "")
    ensures s.aiInterpretation.Some? <==> result.Some? && result.value != ""
    ensures s.aiInterpretation.Some? ==> s.aiInterpretation == result
    ensures s.customQuestion.None? && s.userNotes.None? && s.seed.None? && s.modelUsed.None?
  {
    ReadingSession(
      id := id,
      timestamp := timestamp,
      spreadId := if spread.Some? && spread.value.id != "" then spread.value.id else "",
      customQuestion := None,
      deckId := activeDeckId,
      cards := drawnCards,
      aiInterpretation := if result.Some? && result.value != "" then result else None,
      userNotes := None,
      seed := None,
      modelUsed := None)
  }

  /** Two readings saved one millisecond apart across a second boundary:
      with the timestamp as written, the later one gets the smaller
      timestamp and the history lists it after the earlier one. */
  lemma AsWrittenListsOlderFirst(spread: Option<Spread>, activeDeckId: string, first: seq<DrawnCard>,
                                 second: seq<DrawnCard>)
    ensures var earlier := Session("1000999", TimestampAsWritten(1000999), spread, activeDeckId, first, None);
            var later := Session("1001000", TimestampAsWritten(1001000), spread, activeDeckId, second, None);
            HistoryScreen.SortedReadings([later, earlier]) == [earlier, later]
  {
    var earlier := Session("1000999", TimestampAsWritten(1000999), spread, activeDeckId, first, None);
    var later := Session("1001000", TimestampAsWritten(1001000), spread, activeDeckId, second, None);
    assert earlier.timestamp == 999 && later.timestamp == 0;
    var r := HistoryScreen.SortedReadings([later, earlier]);
    assert r[0].timestamp >= r[1].timestamp;
    assert multiset(r) == multiset{later, earlier};
    assert r[0] in multiset(r) && r[1] in multiset(r);
  }

  /** With the Unix timestamp, saving a reading keeps a history that was
      newest first newest first, with the new reading at the top. */
  lemma SaveKeepsNewestFirst(readings: seq<ReadingSession>, id: string, nowMs: nat, spread: Option<Spread>,
                             activeDeckId: string, drawnCards: seq<DrawnCard>, result: Option<string>)
    requires forall i, j :: 0 <= i < j < |readings| ==> readings[i].timestamp >= readings[j].timestamp
    requires forall i :: 0 <= i < |readings| ==> readings[i].timestamp <= nowMs
    ensures var s := Session(id, Timestamp(nowMs), spread, activeDeckId, drawnCards, result);
            HistoryScreen.SortedReadings([s] + readings) == [s] + readings
  {
    var s := Session(id, Timestamp(nowMs), spread, activeDeckId, drawnCards, result);
    var h := [s] + readings;
    assert forall i, j :: 0 <= i < j < |h| ==> h[i].timestamp >= h[j].timestamp by {
      forall i, j | 0 <= i < j < |h| ensures h[i].timestamp >= h[j].timestamp {
        assert h[j] == readings[j - 1];
        if i > 0 { assert h[i] == readings[i - 1]; }
      }
    }
    HistoryScreen.NewestFirstUnchanged(h);
  }

  // ---- the screen's state ----

  /** `spreadsData.find(s => s.id === spreadId)`. */
  function FindSpread(spreads: seq<Spread>, spreadId: string): (r: Option<Spread>)
    ensures r.None? <==> forall i :: 0 <= i < |spreads| ==> spreads[i].id != spreadId
    ensures r.Some? ==> r.value in spreads && r.value.id == spreadId
  {
    if spreads == [] then None
    else if spreads[0].id == spreadId then Some(spreads[0])
    else
      var r := FindSpread(spreads[1..], spreadId);
      assert forall i :: 1 <= i < |spreads| ==> spreads[i] == spreads[1..][i - 1];
      r
  }

  class Table {
    var spread: Option<Spread>
    var drawnCards: seq<DrawnCard>

    /** The table holds each card once and each slot of its spread at most once. */
    ghost predicate Valid()
      reads this
    {
      && Distinct(DrawnIds(drawnCards))
      && Distinct(Positions(drawnCards))
      && (spread.None? ==> drawnCards == [])
      && (spread.Some? ==> forall i :: 0 <= i < |drawnCards| ==> drawnCards[i].positionId in SlotIds(spread.value.slots))
    }

    /** The initial state and the `useEffect` that looks up the route's spread. */
    constructor(spreads: seq<Spread>, spreadId: string)
      ensures spread == FindSpread(spreads, spreadId) && drawnCards == []
      ensures Valid()
    {
      spread := FindSpread(spreads, spreadId);
      drawnCards := [];
    }

    /** `handleDrawCard(slotId)`. */
    method HandleDrawCard(slotId: string, deck: Option<Deck>, activeDeckId: string, preferences: AppPreferences,
                          drawOne: Drawer) returns (outcome: DrawOutcome)
      requires DrawsFromInput(drawOne)
      modifies this
      ensures spread == old(spread)
      ensures deck.None? ==> outcome == NoDeck && drawnCards == old(drawnCards)
      ensures deck.Some? && Candidates(deck.value.cards, preferences.onlyMajorArcana, old(drawnCards)) == [] ==>
                outcome == Exhausted && drawnCards == old(drawnCards)
      ensures deck.Some? && Candidates(deck.value.cards, preferences.onlyMajorArcana, old(drawnCards)) != [] ==>
                var d := drawOne(Candidates(deck.value.cards, preferences.onlyMajorArcana, old(drawnCards)),
                                 preferences.allowReversed);
                && outcome == Drawn(DrawnCard(d.card.id, activeDeckId, slotId, d.isReversed))
                && drawnCards == old(drawnCards) + [outcome.card]
                && d.card in deck.value.cards
                && (preferences.onlyMajorArcana ==> d.card.meta.cardType == Major)
                && d.card.id !in DrawnIds(old(drawnCards))
    {
      if deck.None? {
        return NoDeck;
      }
      var available := Candidates(deck.value.cards, preferences.onlyMajorArcana, drawnCards);
      if |available| == 0 {
        return Exhausted;
      }
      var result := drawOne(available, preferences.allowReversed);
      DrawnCardIsFresh(deck.value.cards, preferences.onlyMajorArcana, drawnCards, drawOne, preferences.allowReversed);
      var newCard := DrawnCard(result.card.id, activeDeckId, slotId, result.isReversed);
      drawnCards := drawnCards + [newCard];
      outcome := Drawn(newCard);
    }

    /** The card's `onFlip`: `!drawn && handleDrawCard(slot.id)`, for a slot
        of the spread. A filled slot is never drawn again. */
    method OnFlip(slotId: string, deck: Option<Deck>, activeDeckId: string, preferences: AppPreferences,
                  drawOne: Drawer) returns (outcome: Option<DrawOutcome>)
      requires Valid() && DrawsFromInput(drawOne)
      requires spread.Some? && slotId in SlotIds(spread.value.slots)
      modifies this
      ensures Valid()
      ensures spread == old(spread)
      ensures SlotFilled(old(drawnCards), slotId) ==> outcome.None? && drawnCards == old(drawnCards)
      ensures !SlotFilled(old(drawnCards), slotId) ==> outcome.Some?
      ensures !SlotFilled(old(drawnCards), slotId) && deck.None? ==>
                outcome == Some(NoDeck) && drawnCards == old(drawnCards)
      ensures !SlotFilled(old(drawnCards), slotId) && deck.Some? &&
              Candidates(deck.value.cards, preferences.onlyMajorArcana, old(drawnCards)) == [] ==>
                outcome == Some(Exhausted) && drawnCards == old(drawnCards)
      ensures !SlotFilled(old(drawnCards), slotId) && deck.Some? &&
              Candidates(deck.value.cards, preferences.onlyMajorArcana, old(drawnCards)) != [] ==>
                var d := drawOne(Candidates(deck.value.cards, preferences.onlyMajorArcana, old(drawnCards)),
                                 preferences.allowReversed);
                && outcome == Some(Drawn(DrawnCard(d.card.id, activeDeckId, slotId, d.isReversed)))
                && drawnCards == old(drawnCards) + [outcome.value.card]
                && d.card in deck.value.cards
                && (preferences.onlyMajorArcana ==> d.card.meta.cardType == Major)
                && d.card.id !in DrawnIds(old(drawnCards))
      ensures |old(drawnCards)| <= |drawnCards| <= |old(drawnCards)| + 1 && drawnCards[..|old(drawnCards)|] == old(drawnCards)
    {
      if SlotFilled(drawnCards, slotId) {
        return None;
      }
      ghost var before := drawnCards;
      var o := HandleDrawCard(slotId, deck, activeDeckId, preferences, drawOne);
      outcome := Some(o);
      if o.Drawn? {
        AppendKeepsDistinct(before, o.card);
      }
    }

    /** `handleSaveAndExit`: the session goes on top of the history, stamped
        as the code stamps it, with `getUTCMilliseconds()`. */
    method SaveAndExit(history: HistoryStore.History, id: string, nowMs: nat, activeDeckId: string,
                       result: Option<string>)
      modifies history
      ensures history.readings
              == [Session(id, TimestampAsWritten(nowMs), spread, activeDeckId, drawnCards, result)] + old(history.readings)
      ensures 0 <= history.readings[0].timestamp < 1000
    {
      var session := Session(id, TimestampAsWritten(nowMs), spread, activeDeckId, drawnCards, result);
      history.AddReading(session);
    }
  }

  /** A card with a new id for an empty slot keeps the table's ids and
      positions free of repeats. */
  lemma AppendKeepsDistinct(before: seq<DrawnCard>, c: DrawnCard)
    requires Distinct(DrawnIds(before)) && Distinct(Positions(before))
    requires c.cardId !in DrawnIds(before) && c.positionId !in Positions(before)
    ensures Distinct(DrawnIds(before + [c])) && Distinct(Positions(before + [c]))
  {
    assert DrawnIds(before + [c]) == DrawnIds(before) + [c.cardId];
    assert Positions(before + [c]) == Positions(before) + [c.positionId];
  }
}
