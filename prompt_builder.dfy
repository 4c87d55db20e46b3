/**
 * src/services/promptBuilder.ts: `buildInterpretationPrompt` turns a deck,
 * a spread, the drawn cards and the user's question into the two chat
 * messages sent to the language model. Localisation (`i18n.t`) is the
 * parameter `t`, an arbitrary function of the key and the interpolation
 * parameters; the active locale (`i18n.language`) is the parameter
 * `languageCode`.
 */
module PromptBuilder {
  import opened Types
  import opened Text

  /** The template keys of `AI_PROMPT_KEYS`. */
  datatype PromptTemplate =
    SystemInstruction | ContextBlock | CardsHeader | CardLine | FinalInstruction | StatusUpright | StatusReversed

  /** A translation key: one of the prompt templates, or a namespaced path
      such as `decks:rider-waite.name`. */
  datatype TKey = Prompt(template: PromptTemplate) | Path(path: string)

  /** An interpolation value: the templates receive strings and one number. */
  datatype Param = Str(s: string) | Num(n: int)

  type Params = map<string, Param>

  datatype Role = SystemRole | UserRole

  datatype ChatMessage = ChatMessage(role: Role, content: string)

  const GeneralReflection: string := "General reflection"

  /** The language the answer is requested in. */
  function TargetLanguageName(languageCode: string): (r: string)
    ensures r == "Italiano" || r == "English"
    ensures r == "Italiano" <==> |languageCode| >= 2 && languageCode[0] == 'i' && languageCode[1] == 't'
  {
    if StartsWith(languageCode, "it") then "Italiano" else "English"
  }

  /** `userQuestion || 'General reflection'`: only the empty string falls back. */
  function EffectiveQuestion(userQuestion: string): (r: string)
    ensures userQuestion != "" ==> r == userQuestion
    ensures userQuestion == "" ==> r == GeneralReflection
    ensures r != ""
  {
    if userQuestion != "" then userQuestion else GeneralReflection
  }

  /** `${type} ${suit ? `(${suit})` : ''}`. */
  function MetaString(meta: CardMeta): (r: string)
    ensures |r| > |TypeName(meta.cardType)| && r[..|TypeName(meta.cardType)| + 1] == TypeName(meta.cardType) + " "
    ensures meta.suit.None? <==> |r| == |TypeName(meta.cardType)| + 1
  {
    TypeName(meta.cardType) + " " + (if meta.suit.Some? then "(" + SuitName(meta.suit.value) + ")" else "")
  }

  /** The id interpolated into a position key: `${position?.id}`, where a
      position missing from the spread prints as `undefined`. */
  function PositionKeyId(spread: Spread, positionId: string): (r: string)
    ensures FindSlot(spread.slots, positionId).Some? ==> r == positionId
    ensures FindSlot(spread.slots, positionId).None? ==> r == "undefined"
  {
    match FindSlot(spread.slots, positionId)
    case Some(position) => position.id
    case None => "undefined"
  }

  function Status(isReversed: bool, t: (TKey, Params) -> string): string {
    if isReversed then t(Prompt(StatusReversed), map[]) else t(Prompt(StatusUpright), map[])
  }

  /** The interpolation parameters of one card line. */
  function CardLineParams(deck: Deck, spread: Spread, draw: DrawnCard, card: Card, index: int,
                          t: (TKey, Params) -> string): (p: Params)
    ensures p.Keys == {"index", "positionName", "positionMeaning", "cardName", "status", "keywords", "meta"}
    ensures p["index"] == Num(index)
    ensures p["meta"] == Str(MetaString(card.meta))
    ensures p["status"] == Str(if draw.isReversed then t(Prompt(StatusReversed), map[])
                               else t(Prompt(StatusUpright), map[]))
  {
    var cardPath := "decks:" + deck.info.id + ".cards." + card.id;
    var positionPath := "spreads:" + spread.id + ".positions." + PositionKeyId(spread, draw.positionId);
    map[
      "index" := Num(index),
      "positionName" := Str(t(Path(positionPath + ".label"), map[])),
      "positionMeaning" := Str(t(Path(positionPath + ".description"), map[])),
      "cardName" := Str(t(Path(cardPath + ".name"), map[])),
      "status" := Str(Status(draw.isReversed, t)),
      "keywords" := Str(t(Path(cardPath + ".keywords"), map[])),
      "meta" := Str(MetaString(card.meta))
    ]
  }

  /** The list entry for one drawn card: the empty string when the card is
      not in the deck, otherwise the `CARD_LINE` template. */
  function CardEntry(deck: Deck, spread: Spread, draw: DrawnCard, index: int,
                     t: (TKey, Params) -> string): (r: string)
    ensures FindCard(deck.cards, draw.cardId).None? ==> r == ""
    ensures FindCard(deck.cards, draw.cardId).Some? ==>
              r == t(Prompt(CardLine), CardLineParams(deck, spread, draw, FindCard(deck.cards, draw.cardId).value, index, t))
  {
    match FindCard(deck.cards, draw.cardId)
    case None => ""
    case Some(card) => t(Prompt(CardLine), CardLineParams(deck, spread, draw, card, index, t))
  }

  /** `drawnCards.map((draw, idx) => ...)`, numbering from `firstIndex`. */
  function CardEntries(deck: Deck, spread: Spread, draws: seq<DrawnCard>, firstIndex: int,
                       t: (TKey, Params) -> string): (r: seq<string>)
    ensures |r| == |draws|
    ensures forall i :: 0 <= i < |draws| ==> r[i] == CardEntry(deck, spread, draws[i], firstIndex + i, t)
  {
    seq(|draws|, i requires 0 <= i < |draws| => CardEntry(deck, spread, draws[i], firstIndex + i, t))
  }

  /** The entries joined by newlines: nothing for no draws, the single
      entry for one draw; `CardsListLines` gives the general case. */
  function CardsList(deck: Deck, spread: Spread, draws: seq<DrawnCard>, t: (TKey, Params) -> string): (r: string)
    ensures draws == [] ==> r == ""
    ensures |draws| == 1 ==> r == CardEntry(deck, spread, draws[0], 1, t)
  {
    Join(CardEntries(deck, spread, draws, 1, t), "\n")
  }

  /** The interpolation parameters of the context block: the translated
      deck and spread names, falling back to their ids, and the question. */
  function ContextParams(deck: Deck, spread: Spread, userQuestion: string, t: (TKey, Params) -> string): (p: Params)
    ensures p.Keys == {"deckName", "spreadName", "question"}
    ensures p["deckName"] == Str(t(Path("decks:" + deck.info.id + ".name"), map["defaultValue" := Str(deck.info.id)]))
    ensures p["spreadName"] == Str(t(Path("spreads:" + spread.id + ".name"), map["defaultValue" := Str(spread.id)]))
    ensures p["question"] == Str(if userQuestion == "" then "General reflection" else userQuestion)
  {
    var deckName := t(Path("decks:" + deck.info.id + ".name"), map["defaultValue" := Str(deck.info.id)]);
    var spreadName := t(Path("spreads:" + spread.id + ".name"), map["defaultValue" := Str(spread.id)]);
    map[
      "deckName" := Str(deckName),
      "spreadName" := Str(spreadName),
      "question" := Str(EffectiveQuestion(userQuestion))
    ]
  }

  function ContextText(deck: Deck, spread: Spread, userQuestion: string, t: (TKey, Params) -> string): string {
    t(Prompt(ContextBlock), ContextParams(deck, spread, userQuestion, t))
  }

  /** The sections of the user message laid out as the template literal
      lays them out, before trimming. */
  function Layout(context: string, header: string, list: string, instruction: string): string {
    context + "\n\n" + header + "\n" + list + "\n\n" + instruction
  }

  /** The template literal: a leading newline, the layout, a newline and two
      spaces of indentation, then `.trim()`. */
  function UserPrompt(context: string, header: string, list: string, instruction: string): string {
    Trim("\n" + Layout(context, header, list, instruction) + "\n  ")
  }

  /** `buildInterpretationPrompt(deck, spread, drawnCards, userQuestion)`. */
  function BuildInterpretationPrompt(deck: Deck, spread: Spread, drawnCards: seq<DrawnCard>, userQuestion: string,
                                     languageCode: string, t: (TKey, Params) -> string): (r: seq<ChatMessage>)
    ensures |r| == 2
    ensures r[0] == ChatMessage(SystemRole, t(Prompt(SystemInstruction), map["language" := Str(TargetLanguageName(languageCode))]))
    ensures r[1].role == UserRole
    ensures r[1].content == Trim(Layout(ContextText(deck, spread, userQuestion, t), t(Prompt(CardsHeader), map[]),
                                        CardsList(deck, spread, drawnCards, t), t(Prompt(FinalInstruction), map[])))
  {
    var systemPrompt := t(Prompt(SystemInstruction), map["language" := Str(TargetLanguageName(languageCode))]);
    var context := ContextText(deck, spread, userQuestion, t);
    var header := t(Prompt(CardsHeader), map[]);
    var list := CardsList(deck, spread, drawnCards, t);
    var instruction := t(Prompt(FinalInstruction), map[]);
    UserPromptIsTrimmedLayout(context, header, list, instruction);
    [ChatMessage(SystemRole, systemPrompt), ChatMessage(UserRole, UserPrompt(context, header, list, instruction))]
  }

  // ---- properties ----

  /** The indentation around the template literal never reaches the
      message: it is the layout, trimmed. */
  lemma UserPromptIsTrimmedLayout(context: string, header: string, list: string, instruction: string)
    ensures UserPrompt(context, header, list, instruction) == Trim(Layout(context, header, list, instruction))
  {
    assert AllWhitespace("\n") by { assert "\n"[0] == '\n'; }
    assert AllWhitespace("\n  ") by { assert forall i :: 0 <= i < 3 ==> "\n  "[i] in {'\n', ' '}; }
    TrimIgnoresPadding("\n", Layout(context, header, list, instruction), "\n  ");
  }

  /** When the context does not start, and the final instruction does not
      end, with whitespace, the user message is exactly: context, blank
      line, header, newline, card list, blank line, final instruction. */
  lemma UserPromptLayout(context: string, header: string, list: string, instruction: string)
    requires context != [] && !IsWhitespace(context[0])
    requires instruction != [] && !IsWhitespace(instruction[|instruction| - 1])
    ensures UserPrompt(context, header, list, instruction)
            == context + "\n\n" + header + "\n" + list + "\n\n" + instruction
  {
    UserPromptIsTrimmedLayout(context, header, list, instruction);
    var s := Layout(context, header, list, instruction);
    assert s[0] == context[0];
    assert s[|s| - 1] == instruction[|instruction| - 1];
    TrimUnpads([], s, []);
    assert [] + s + [] == s;
  }

  /** The entry at position `i` carries index `i + 1`, whatever happened to
      the entries before it; a draw whose card is not in the deck yields an
      empty entry in its place instead of being removed. */
  lemma EntryAtPosition(deck: Deck, spread: Spread, draws: seq<DrawnCard>,
                                           t: (TKey, Params) -> string, i: nat)
    requires i < |draws|
    ensures |CardEntries(deck, spread, draws, 1, t)| == |draws|
    ensures FindCard(deck.cards, draws[i].cardId).None? ==> CardEntries(deck, spread, draws, 1, t)[i] == ""
    ensures FindCard(deck.cards, draws[i].cardId).Some? ==>
              var card := FindCard(deck.cards, draws[i].cardId).value;
              var p := CardLineParams(deck, spread, draws[i], card, i + 1, t);
              && CardEntries(deck, spread, draws, 1, t)[i] == t(Prompt(CardLine), p)
              && p["index"] == Num(i + 1)
              && p["status"] == Str(if draws[i].isReversed then t(Prompt(StatusReversed), map[])
                                    else t(Prompt(StatusUpright), map[]))
  {
  }

  /** The card list holds exactly one line per drawn card, in input order:
      splitting it at the newlines gives back the entries, provided no
      translated line contains a newline itself. */
  lemma CardsListLines(deck: Deck, spread: Spread, draws: seq<DrawnCard>, t: (TKey, Params) -> string)
    requires draws != []
    requires forall i :: 0 <= i < |draws| ==> '\n' !in CardEntry(deck, spread, draws[i], i + 1, t)
    ensures Split(CardsList(deck, spread, draws, t), '\n') == CardEntries(deck, spread, draws, 1, t)
    ensures |Split(CardsList(deck, spread, draws, t), '\n')| == |draws|
  {
    var entries := CardEntries(deck, spread, draws, 1, t);
    assert "\n" == ['\n'];
    SplitJoin(entries, '\n');
  }

  /** With no drawn cards the list is empty and the header is followed by
      a newline and the blank line. */
  lemma NoDrawsEmptyList(deck: Deck, spread: Spread, t: (TKey, Params) -> string)
    ensures CardsList(deck, spread, [], t) == ""
  {
  }

  /** The metadata string determines the card's type and suit. */
  lemma MetaStringDeterminesMeta(m1: CardMeta, m2: CardMeta)
    requires MetaString(m1) == MetaString(m2)
    ensures m1.cardType == m2.cardType && m1.suit == m2.suit
  {
    var x1 := if m1.suit.Some? then "(" + SuitName(m1.suit.value) + ")" else "";
    var x2 := if m2.suit.Some? then "(" + SuitName(m2.suit.value) + ")" else "";
    var a, b := TypeName(m1.cardType), TypeName(m2.cardType);
    assert ' ' !in a && ' ' !in b;
    // both strings split at their first space into the type and the rest
    var s := a + " " + x1;
    assert s == b + " " + x2;
    assert s[..|a|] == a && s[|a|] == ' ';
    assert s[..|b|] == b && s[|b|] == ' ';
    FirstIndexUnique(s, ' ', |a|);
    FirstIndexUnique(s, ' ', |b|);
    assert a == s[..|a|] == b;
    assert x1 == s[|a| + 1..] == x2;
    if m1.suit.Some? && m2.suit.Some? {
      assert SuitName(m1.suit.value) == x1[1..|x1| - 1];
      assert SuitName(m2.suit.value) == x2[1..|x2| - 1];
    }
  }
}
