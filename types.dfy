/**
 * The data model of src/types/deck.ts, src/types/reading.ts,
 * src/types/settings.ts and src/types/ai.ts, plus the `Array.prototype.find`
 * lookups the core performs on it.
 */
module Types {

  /** A TypeScript optional field or nullable value: `undefined`/`null` is `None`. */
  datatype Option<+T> = None | Some(value: T)

  // ---- src/types/deck.ts ----

  datatype CardType = Major | Minor | Oracle | Other

  datatype CardSuit = Wands | Cups | Swords | Pentacles | NoSuit

  /** The string literal the TypeScript union uses for a card type. */
  function TypeName(t: CardType): string {
    match t
    case Major => "major"
    case Minor => "minor"
    case Oracle => "oracle"
    case Other => "other"
  }

  /** The string literal the TypeScript union uses for a suit. */
  function SuitName(s: CardSuit): string {
    match s
    case Wands => "wands"
    case Cups => "cups"
    case Swords => "swords"
    case Pentacles => "pentacles"
    case NoSuit => "none"
  }

  datatype CardMeta = CardMeta(
    cardType: CardType,
    suit: Option<CardSuit>,
    number: Option<int>,
    element: Option<string>,
    zodiac: Option<string>)

  datatype Card = Card(id: string, sortIndex: int, image: string, meta: CardMeta)

  datatype DeckGroup = DeckGroup(color: string, labelKey: string)

  /** `groups: Record<string, DeckGroup>`: the record's keys in their
      enumeration order (`groupOrder`) and the record itself (`groups`). */
  datatype DeckInfo = DeckInfo(
    id: string,
    author: Option<string>,
    totalCards: int,
    groupOrder: seq<string>,
    groups: map<string, DeckGroup>)

  /** What every JavaScript object guarantees: its keys are enumerated once
      each, and the enumeration lists exactly the keys it has. */
  ghost predicate GroupsWellFormed(info: DeckInfo) {
    (forall i, j :: 0 <= i < j < |info.groupOrder| ==> info.groupOrder[i] != info.groupOrder[j])
    && (forall k :: k in info.groups <==> k in info.groupOrder)
  }

  datatype Deck = Deck(info: DeckInfo, cards: seq<Card>)

  // ---- src/types/reading.ts ----

  /** `label` is a Dafny keyword, so the field is called `slotLabel`. */
  datatype SpreadPosition = SpreadPosition(id: string, slotLabel: string)

  datatype Spread = Spread(id: string, slots: seq<SpreadPosition>, defaultQuestionKey: string)

  datatype DrawnCard = DrawnCard(cardId: string, deckId: string, positionId: string, isReversed: bool)

  /** `drawnCards.map(d => d.cardId)`. */
  function DrawnIds(drawn: seq<DrawnCard>): (r: seq<string>)
    ensures |r| == |drawn| && forall i :: 0 <= i < |drawn| ==> r[i] == drawn[i].cardId
  {
    seq(|drawn|, i requires 0 <= i < |drawn| => drawn[i].cardId)
  }

  datatype ReadingSession = ReadingSession(
    id: string,
    timestamp: int,
    spreadId: string,
    customQuestion: Option<string>,
    deckId: string,
    cards: seq<DrawnCard>,
    aiInterpretation: Option<string>,
    userNotes: Option<string>,
    seed: Option<string>,
    modelUsed: Option<string>)

  // ---- src/types/ai.ts and src/types/settings.ts ----

  datatype Provider = OpenRouter | OpenAI | Local

  datatype AIModelConfig = AIModelConfig(
    provider: Provider,
    modelId: string,
    apiKey: Option<string>,
    baseUrl: Option<string>)

  datatype ThemeMode = Light | Dark | System

  datatype AppPreferences = AppPreferences(
    allowReversed: bool,
    hapticsEnabled: bool,
    onlyMajorArcana: bool,
    animationEnabled: bool,
    biometricsEnabled: Option<bool>,
    theme: ThemeMode,
    language: string)

  // ---- lookups ----

  /** `cards.find(c => c.id === id)`: the first card with that id. */
  function FindCard(cards: seq<Card>, id: string): (r: Option<Card>)
    ensures r.None? <==> forall i :: 0 <= i < |cards| ==> cards[i].id != id
    ensures r.Some? ==> exists i :: 0 <= i < |cards| && cards[i] == r.value
                          && r.value.id == id
                          && forall j :: 0 <= j < i ==> cards[j].id != id
  {
    if cards == [] then None
    else if cards[0].id == id then Some(cards[0])
    else
      var r := FindCard(cards[1..], id);
      assert forall i :: 1 <= i < |cards| ==> cards[i] == cards[1..][i - 1];
      assert r.Some? ==> exists i :: 0 <= i < |cards| && cards[i] == r.value
                          && r.value.id == id
                          && forall j :: 0 <= j < i ==> cards[j].id != id by {
        if r.Some? {
          var i :| 0 <= i < |cards[1..]| && cards[1..][i] == r.value && r.value.id == id
                   && forall j :: 0 <= j < i ==> cards[1..][j].id != id;
          assert cards[i + 1] == r.value;
        }
      }
      r
  }

  /** `slots.find(p => p.id === id)`: the first slot with that id. */
  function FindSlot(slots: seq<SpreadPosition>, id: string): (r: Option<SpreadPosition>)
    ensures r.None? <==> forall i :: 0 <= i < |slots| ==> slots[i].id != id
    ensures r.Some? ==> r.value in slots && r.value.id == id
  {
    if slots == [] then None
    else if slots[0].id == id then Some(slots[0])
    else
      var r := FindSlot(slots[1..], id);
      assert forall i :: 1 <= i < |slots| ==> slots[i] == slots[1..][i - 1];
      r
  }
}
