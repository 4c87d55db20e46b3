/**
 * src/features/deck-explorer/DeckExplorerScreen.tsx: the card archive. The
 * deck's cards are filtered by the search text, ordered by the deck's group
 * order, cut to the current page limit, and bucketed into one list section
 * per group (`groupCards`). `loadMore` and `handleSearch` move the page limit.
 *
 * `t` is the translation function; `lower` is `String.prototype.toLowerCase`.
 * A deck's `groups` record is the pair `groupOrder` (`Object.keys`) and
 * `groups` (the values), see `Types.DeckInfo`.
 */
module DeckExplorer {
  import opened Types
  import opened Seqs
  import opened Text
  import opened Sorting
  import PromptBuilder

  type Translate = (PromptBuilder.TKey, PromptBuilder.Params) -> string

  const PageSize: nat := 20

  /** One entry of the section list: `{ title, type, color, data }`. */
  datatype Section = Section(title: string, groupType: string, color: string, data: seq<Card>)

  /** Every enumerated key has a value: true of every JavaScript object. */
  predicate KeysHaveGroups(info: DeckInfo) {
    forall k :: k in info.groupOrder ==> k in info.groups
  }

  // ---- groupCards: the specification ----

  /** The group `groupCards` puts a card in: its type's group if the deck
      has one, else its suit's group if it has a suit and the deck has that
      group, else none. */
  function GroupOf(groupOrder: seq<string>, card: Card): (r: Option<string>)
    ensures r.Some? ==> r.value in groupOrder
    ensures TypeName(card.meta.cardType) in groupOrder ==> r == Some(TypeName(card.meta.cardType))
    ensures (TypeName(card.meta.cardType) !in groupOrder && card.meta.suit.Some?
             && SuitName(card.meta.suit.value) in groupOrder) ==> r == Some(SuitName(card.meta.suit.value))
    ensures r.None? <==> TypeName(card.meta.cardType) !in groupOrder
                         && (card.meta.suit.None? || SuitName(card.meta.suit.value) !in groupOrder)
  {
    if TypeName(card.meta.cardType) in groupOrder then Some(TypeName(card.meta.cardType))
    else if card.meta.suit.Some? && SuitName(card.meta.suit.value) in groupOrder then Some(SuitName(card.meta.suit.value))
    else None
  }

  function InGroup(groupOrder: seq<string>, k: string): Card -> bool {
    (c: Card) => GroupOf(groupOrder, c) == Some(k)
  }

  /** The cards of group `k`, in input order. */
  function Bucket(cards: seq<Card>, groupOrder: seq<string>, k: string): (r: seq<Card>)
    ensures |r| <= |cards|
    ensures forall c :: c in r <==> c in cards && GroupOf(groupOrder, c) == Some(k)
  {
    Filter(cards, InGroup(groupOrder, k))
  }

  /** The section of group `k` over `cards`: titled by the group's label,
      coloured by its colour, holding the cards of the group. */
  function SectionOf(info: DeckInfo, cards: seq<Card>, k: string, t: Translate): (r: Section)
    requires k in info.groups
    ensures r.groupType == k && r.color == info.groups[k].color
    ensures r.title == t(PromptBuilder.Path("common:" + info.groups[k].labelKey), map[])
    ensures forall c :: c in r.data <==> c in cards && GroupOf(info.groupOrder, c) == Some(k)
  {
    Section(t(PromptBuilder.Path("common:" + info.groups[k].labelKey), map[]), k, info.groups[k].color,
            Bucket(cards, info.groupOrder, k))
  }

  /** `keys.map(key => groupsMap[key])`. */
  function AllSections(info: DeckInfo, cards: seq<Card>, keys: seq<string>, t: Translate): (r: seq<Section>)
    requires forall k :: k in keys ==> k in info.groups
    ensures |r| == |keys| && forall i :: 0 <= i < |keys| ==> r[i] == SectionOf(info, cards, keys[i], t)
  {
    seq(|keys|, i requires 0 <= i < |keys| => SectionOf(info, cards, keys[i], t))
  }

  function NonEmpty(): Section -> bool {
    (s: Section) => |s.data| > 0
  }

  /** `groupCards(cards, deck, t)`. */
  function Grouped(info: DeckInfo, cards: seq<Card>, t: Translate): (r: seq<Section>)
    requires KeysHaveGroups(info)
    ensures forall i :: 0 <= i < |r| ==> |r[i].data| > 0
    ensures forall i :: 0 <= i < |r| ==>
              r[i].groupType in info.groupOrder && r[i] == SectionOf(info, cards, r[i].groupType, t)
  {
    var all := AllSections(info, cards, info.groupOrder, t);
    var r := Filter(all, NonEmpty());
    assert forall i :: 0 <= i < |r| ==>
             r[i].groupType in info.groupOrder && r[i] == SectionOf(info, cards, r[i].groupType, t) by {
      forall i | 0 <= i < |r|
        ensures r[i].groupType in info.groupOrder && r[i] == SectionOf(info, cards, r[i].groupType, t)
      {
        var j :| 0 <= j < |all| && all[j] == r[i];
      }
    }
    r
  }

  function SectionTypes(ss: seq<Section>): (r: seq<string>)
    ensures |r| == |ss| && forall i :: 0 <= i < |ss| ==> r[i] == ss[i].groupType
  {
    seq(|ss|, i requires 0 <= i < |ss| => ss[i].groupType)
  }

  function HasCards(cards: seq<Card>, groupOrder: seq<string>): string -> bool {
    (k: string) => Bucket(cards, groupOrder, k) != []
  }

  // ---- groupCards: properties ----

  lemma SectionTypesConcat(a: seq<Section>, b: seq<Section>)
    ensures SectionTypes(a + b) == SectionTypes(a) + SectionTypes(b)
  {
    assert forall i :: 0 <= i < |a| ==> (a + b)[i] == a[i];
    assert forall i :: |a| <= i < |a + b| ==> (a + b)[i] == b[i - |a|];
  }

  lemma {:induction false} SectionTypesOf(info: DeckInfo, cards: seq<Card>, keys: seq<string>, t: Translate)
    requires forall k :: k in keys ==> k in info.groups
    ensures SectionTypes(Filter(AllSections(info, cards, keys, t), NonEmpty()))
            == Filter(keys, HasCards(cards, info.groupOrder))
  {
    if keys != [] {
      var all := AllSections(info, cards, keys, t);
      var rest := AllSections(info, cards, keys[1..], t);
      assert all[1..] == rest;
      SectionTypesOf(info, cards, keys[1..], t);
      var fr := Filter(rest, NonEmpty());
      var has := HasCards(cards, info.groupOrder);
      var head: seq<Section> := if NonEmpty()(all[0]) then [all[0]] else [];
      var hk: seq<string> := if has(keys[0]) then [keys[0]] else [];
      assert all[0].data == Bucket(cards, info.groupOrder, keys[0]);
      assert NonEmpty()(all[0]) == has(keys[0]);
      assert Filter(all, NonEmpty()) == head + fr;
      assert Filter(keys, has) == hk + Filter(keys[1..], has);
      SectionTypesConcat(head, fr);
      assert SectionTypes(head) == hk;
    }
  }

  /** The sections come in the order of the deck's group keys: their types
      are exactly the keys whose group received a card, in key order. */
  lemma SectionsInKeyOrder(info: DeckInfo, cards: seq<Card>, t: Translate)
    requires KeysHaveGroups(info)
    ensures SectionTypes(Grouped(info, cards, t)) == Filter(info.groupOrder, HasCards(cards, info.groupOrder))
  {
    SectionTypesOf(info, cards, info.groupOrder, t);
  }

  /** A card is in a section exactly when the section is its group's. */
  lemma CardPlacement(info: DeckInfo, cards: seq<Card>, t: Translate)
    requires KeysHaveGroups(info)
    ensures var r := Grouped(info, cards, t);
            && (forall i, c :: 0 <= i < |r| && c in r[i].data ==> c in cards && GroupOf(info.groupOrder, c) == Some(r[i].groupType))
            && (forall c :: c in cards && GroupOf(info.groupOrder, c).Some? ==>
                  exists i :: 0 <= i < |r| && c in r[i].data)
  {
    var r := Grouped(info, cards, t);
    var all := AllSections(info, cards, info.groupOrder, t);
    forall c | c in cards && GroupOf(info.groupOrder, c).Some?
      ensures exists i :: 0 <= i < |r| && c in r[i].data
    {
      var k := GroupOf(info.groupOrder, c).value;
      var j := IndexOf(info.groupOrder, k);
      var ci := IndexOf(cards, c);
      assert c in Bucket(cards, info.groupOrder, k) by {
        assert InGroup(info.groupOrder, k)(cards[ci]);
      }
      assert NonEmpty()(all[j]);
      assert all[j] in r;
    }
  }

  /** With distinct group keys, no card is in two sections. */
  lemma AtMostOneSection(info: DeckInfo, cards: seq<Card>, t: Translate)
    requires KeysHaveGroups(info) && Distinct(info.groupOrder)
    ensures var r := Grouped(info, cards, t);
            forall i, j, c :: 0 <= i < |r| && 0 <= j < |r| && c in r[i].data && c in r[j].data ==> i == j
  {
    var r := Grouped(info, cards, t);
    CardPlacement(info, cards, t);
    SectionsInKeyOrder(info, cards, t);
    FilterDistinct(info.groupOrder, HasCards(cards, info.groupOrder));
    assert Distinct(SectionTypes(r));
  }

  // ---- groupCards: the computation ----

  lemma BucketSnoc(cards: seq<Card>, c: Card, groupOrder: seq<string>, k: string)
    ensures Bucket(cards + [c], groupOrder, k)
            == Bucket(cards, groupOrder, k) + (if GroupOf(groupOrder, c) == Some(k) then [c] else [])
  {
    FilterConcat(cards, [c], InGroup(groupOrder, k));
    FilterSingleton(c, InGroup(groupOrder, k));
  }

  /** `groupsMap` after the cards `done` were pushed into their buckets. */
  ghost predicate Filled(info: DeckInfo, done: seq<Card>, groupsMap: map<string, Section>, t: Translate) {
    && KeysHaveGroups(info)
    && (forall k :: k in groupsMap <==> k in info.groupOrder)
    && (forall k :: k in groupsMap ==> groupsMap[k] == SectionOf(info, done, k, t))
  }

  /** Pushing one card into its group's bucket keeps `groupsMap` filled. */
  lemma PushKeepsFilled(info: DeckInfo, done: seq<Card>, card: Card, m: map<string, Section>, t: Translate)
    requires Filled(info, done, m, t)
    ensures var g := GroupOf(info.groupOrder, card);
            Filled(info, done + [card], if g.Some? then m[g.value := m[g.value].(data := m[g.value].data + [card])] else m, t)
  {
    forall k | k in m {
      BucketSnoc(done, card, info.groupOrder, k);
    }
  }

  /** Step 1 of `groupCards`: an empty section, titled and coloured, for
      every group key. */
  method InitGroups(info: DeckInfo, t: Translate) returns (groupsMap: map<string, Section>)
    requires KeysHaveGroups(info)
    ensures Filled(info, [], groupsMap, t)
  {
    var groupKeys := info.groupOrder;
    groupsMap := map[];
    var g := 0;
    while g < |groupKeys|
      invariant 0 <= g <= |groupKeys|
      invariant forall k :: k in groupsMap <==> k in groupKeys[..g]
      invariant forall k :: k in groupsMap ==> groupsMap[k] == SectionOf(info, [], k, t)
    {
      var key := groupKeys[g];
      assert groupKeys[..g + 1] == groupKeys[..g] + [key];
      groupsMap := groupsMap[key := Section(t(PromptBuilder.Path("common:" + info.groups[key].labelKey), map[]),
                                            key, info.groups[key].color, [])];
      g := g + 1;
    }
    assert groupKeys[..g] == groupKeys;
  }

  /** The body of step 2: push the card into its type's bucket, or else
      into its suit's bucket. */
  method PushCard(info: DeckInfo, ghost done: seq<Card>, groupsMap0: map<string, Section>, card: Card, t: Translate)
    returns (groupsMap: map<string, Section>)
    requires Filled(info, done, groupsMap0, t)
    ensures Filled(info, done + [card], groupsMap, t)
  {
    PushKeepsFilled(info, done, card, groupsMap0, t);
    groupsMap := groupsMap0;
    var typeKey := TypeName(card.meta.cardType);
    if typeKey in groupsMap {
      groupsMap := groupsMap[typeKey := groupsMap[typeKey].(data := groupsMap[typeKey].data + [card])];
    } else if card.meta.suit.Some? && SuitName(card.meta.suit.value) in groupsMap {
      var suitKey := SuitName(card.meta.suit.value);
      groupsMap := groupsMap[suitKey := groupsMap[suitKey].(data := groupsMap[suitKey].data + [card])];
    }
  }

  /** `groupCards`: fill `groupsMap` with an empty section per key, push each
      card into its bucket, then list the non-empty sections in key order. */
  method GroupCards(cards: seq<Card>, info: DeckInfo, t: Translate) returns (sections: seq<Section>)
    requires KeysHaveGroups(info)
    ensures sections == Grouped(info, cards, t)
  {
    var groupsMap := InitGroups(info, t);
    var j := 0;
    assert cards[..0] == [];
    while j < |cards|
      invariant 0 <= j <= |cards|
      invariant Filled(info, cards[..j], groupsMap, t)
    {
      assert cards[..j + 1] == cards[..j] + [cards[j]];
      groupsMap := PushCard(info, cards[..j], groupsMap, cards[j], t);
      j := j + 1;
    }
    assert cards[..j] == cards;

    var groupKeys := info.groupOrder;
    var listed := seq(|groupKeys|, i requires 0 <= i < |groupKeys| && groupKeys[i] in groupsMap => groupsMap[groupKeys[i]]);
    assert listed == AllSections(info, cards, groupKeys, t);
    sections := Filter(listed, NonEmpty());
  }

  // ---- the filter, sort and page pipeline of `sections` ----

  /** The comparator's index: the position of the card's type among the
      group keys, else that of its suit (`"none"` when it has none); -1 when
      neither is a key. */
  function GroupIndex(groupOrder: seq<string>, c: Card): (r: int)
    ensures -1 <= r < |groupOrder|
    ensures TypeName(c.meta.cardType) in groupOrder ==> r == IndexOf(groupOrder, TypeName(c.meta.cardType))
    ensures TypeName(c.meta.cardType) !in groupOrder ==>
              r == IndexOf(groupOrder, if c.meta.suit.Some? then SuitName(c.meta.suit.value) else "none")
  {
    var byType := IndexOf(groupOrder, TypeName(c.meta.cardType));
    if byType != -1 then byType
    else IndexOf(groupOrder, if c.meta.suit.Some? then SuitName(c.meta.suit.value) else "none")
  }

  function ByGroupIndex(groupOrder: seq<string>): Card -> int {
    (c: Card) => GroupIndex(groupOrder, c)
  }

  /** The search predicate: the lower-cased translated card name contains
      the lower-cased query `q`. */
  function NameMatches(activeDeckId: string, q: string, t: Translate, lower: string -> string): Card -> bool {
    (c: Card) => Includes(lower(t(PromptBuilder.Path("decks:" + activeDeckId + ".cards." + c.id + ".name"), map[])), q)
  }

  /** Step 1: no filter for an empty query. */
  function Searched(cards: seq<Card>, searchQuery: string, activeDeckId: string, t: Translate,
                    lower: string -> string): (r: seq<Card>)
    ensures searchQuery == "" ==> r == cards
    ensures forall i :: 0 <= i < |r| ==> r[i] in cards
    ensures searchQuery != "" ==>
              forall i :: 0 <= i < |cards| ==> (cards[i] in r <==> NameMatches(activeDeckId, lower(searchQuery), t, lower)(cards[i]))
  {
    if searchQuery == "" then cards
    else Filter(cards, NameMatches(activeDeckId, lower(searchQuery), t, lower))
  }

  /** `s.slice(0, n)`. */
  function Take<T>(s: seq<T>, n: nat): (r: seq<T>)
    ensures |r| <= n && |r| <= |s|
    ensures forall i :: 0 <= i < |r| ==> r[i] == s[i]
    ensures n >= |s| ==> r == s
  {
    if n < |s| then s[..n] else s
  }

  /** Steps 1 to 3: filter, stable sort by group index, `slice(0, displayLimit)`.
      The page holds as many matches as the limit allows, sorted, none more
      often than it matches; a match
      left off the page sorts no earlier than any card on it; and once the
      limit covers the matches, every match is shown, each as often as it
      matches. */
  function VisibleCards(deck: Deck, searchQuery: string, activeDeckId: string, displayLimit: nat,
                        t: Translate, lower: string -> string): (r: seq<Card>)
    ensures var found := Searched(deck.cards, searchQuery, activeDeckId, t, lower);
            && |r| == (if displayLimit < |found| then displayLimit else |found|)
            && multiset(r) <= multiset(found)
            && (displayLimit >= |found| ==> multiset(r) == multiset(found))
            && (forall c :: c in found && c !in r ==>
                  forall i :: 0 <= i < |r| ==> GroupIndex(deck.info.groupOrder, r[i]) <= GroupIndex(deck.info.groupOrder, c))
    ensures SortedByKey(r, ByGroupIndex(deck.info.groupOrder))
    ensures forall i :: 0 <= i < |r| ==> r[i] in deck.cards
    ensures searchQuery != "" ==> forall i :: 0 <= i < |r| ==> NameMatches(activeDeckId, lower(searchQuery), t, lower)(r[i])
  {
    var found := Searched(deck.cards, searchQuery, activeDeckId, t, lower);
    var key := ByGroupIndex(deck.info.groupOrder);
    var sorted := SortByKey(found, key);
    PageOfSorted(found, sorted, displayLimit, key);
    Take(sorted, displayLimit)
  }

  /** The first `n` of a sorted permutation of `found`: as many cards as
      `n` allows, all from `found`, all of `found` once `n` covers it, and
      a card of `found` it leaves out sorts after all of them. */
  lemma PageOfSorted(found: seq<Card>, sorted: seq<Card>, n: nat, key: Card -> int)
    requires multiset(sorted) == multiset(found) && SortedByKey(sorted, key)
    ensures var r := Take(sorted, n);
            && |r| == (if n < |found| then n else |found|)
            && multiset(r) <= multiset(found)
            && (n >= |found| ==> multiset(r) == multiset(found))
            && (forall i :: 0 <= i < |r| ==> r[i] in found)
            && (forall c :: c in found && c !in r ==> forall i :: 0 <= i < |r| ==> key(r[i]) <= key(c))
            && SortedByKey(r, key)
  {
    var r := Take(sorted, n);
    assert |sorted| == |found| by { assert |multiset(sorted)| == |multiset(found)|; }
    assert r == sorted[..|r|];
    PrefixWithin(sorted, |r|);
    forall i | 0 <= i < |r| ensures r[i] in found {
      assert sorted[i] in multiset(sorted);
    }
    forall c, i | c in found && c !in r && 0 <= i < |r| ensures key(r[i]) <= key(c) {
      assert c in multiset(sorted);
      var j :| 0 <= j < |sorted| && sorted[j] == c;
    }
  }

  /** A prefix holds no element more often than the whole sequence. */
  lemma PrefixWithin(s: seq<Card>, k: nat)
    requires k <= |s|
    ensures multiset(s[..k]) <= multiset(s)
  {
    assert s == s[..k] + s[k..];
  }

  /** `sections`: nothing without a deck, otherwise the grouped page. */
  function Sections(deck: Option<Deck>, searchQuery: string, activeDeckId: string, displayLimit: nat,
                    t: Translate, lower: string -> string): (r: seq<Section>)
    requires deck.Some? ==> KeysHaveGroups(deck.value.info)
    ensures deck.None? ==> r == []
    ensures deck.Some? ==> forall i :: 0 <= i < |r| ==>
              && |r[i].data| > 0
              && r[i].groupType in deck.value.info.groupOrder
              && (forall c :: c in r[i].data ==>
                    c in deck.value.cards && GroupOf(deck.value.info.groupOrder, c) == Some(r[i].groupType))
              && (searchQuery != "" ==>
                   forall c :: c in r[i].data ==> NameMatches(activeDeckId, lower(searchQuery), t, lower)(c))
    ensures deck.Some? ==>
              var page := VisibleCards(deck.value, searchQuery, activeDeckId, displayLimit, t, lower);
              && (forall i, c :: 0 <= i < |r| && c in r[i].data ==> c in page)
              && (forall c :: c in page && GroupOf(deck.value.info.groupOrder, c).Some? ==>
                    exists i :: 0 <= i < |r| && r[i].groupType == GroupOf(deck.value.info.groupOrder, c).value && c in r[i].data)
  {
    if deck.None? then []
    else
      var page := VisibleCards(deck.value, searchQuery, activeDeckId, displayLimit, t, lower);
      CardPlacement(deck.value.info, page, t);
      Grouped(deck.value.info, page, t)
  }

  /** Cards of the same group index keep their deck order on the page. */
  lemma SortKeepsDeckOrder(deck: Deck, searchQuery: string, activeDeckId: string, t: Translate,
                           lower: string -> string, k: int)
    ensures var found := Searched(deck.cards, searchQuery, activeDeckId, t, lower);
            var key := ByGroupIndex(deck.info.groupOrder);
            WithKey(SortByKey(found, key), key, k) == WithKey(found, key, k)
  {
    SortIsStable(Searched(deck.cards, searchQuery, activeDeckId, t, lower), ByGroupIndex(deck.info.groupOrder), k);
  }

  /** Once the limit covers the deck, an empty query shows every card. */
  lemma WholeDeckVisible(deck: Deck, activeDeckId: string, displayLimit: nat, t: Translate, lower: string -> string)
    requires displayLimit >= |deck.cards|
    ensures multiset(VisibleCards(deck, "", activeDeckId, displayLimit, t, lower)) == multiset(deck.cards)
  {
    var sorted := SortByKey(deck.cards, ByGroupIndex(deck.info.groupOrder));
    assert sorted[..|sorted|] == sorted;
  }

  // ---- the screen's state ----

  class Explorer {
    var searchQuery: string
    var displayLimit: nat

    /** A whole number of pages, at least one. */
    ghost predicate Valid()
      reads this
    {
      displayLimit >= PageSize && displayLimit % PageSize == 0
    }

    constructor()
      ensures searchQuery == "" && displayLimit == PageSize
      ensures Valid()
    {
      searchQuery := "";
      displayLimit := PageSize;
    }

    /** `handleSearch(query)`: a new query starts again from the first page. */
    method HandleSearch(query: string)
      modifies this
      ensures searchQuery == query && displayLimit == PageSize
      ensures Valid()
    {
      searchQuery := query;
      displayLimit := PageSize;
    }

    /** `loadMore()`: one more page while the limit is below the deck size. */
    method LoadMore(deck: Option<Deck>)
      requires Valid()
      modifies this
      ensures Valid()
      ensures searchQuery == old(searchQuery)
      ensures deck.Some? && old(displayLimit) < |deck.value.cards| ==> displayLimit == old(displayLimit) + PageSize
      ensures !(deck.Some? && old(displayLimit) < |deck.value.cards|) ==> displayLimit == old(displayLimit)
    {
      if deck.Some? && displayLimit < |deck.value.cards| {
        displayLimit := displayLimit + PageSize;
      }
    }

    /** The sections the screen lists for the current query and limit. */
    function CurrentSections(deck: Option<Deck>, activeDeckId: string, t: Translate, lower: string -> string): (r: seq<Section>)
      reads this
      requires deck.Some? ==> KeysHaveGroups(deck.value.info)
      ensures r == Sections(deck, searchQuery, activeDeckId, displayLimit, t, lower)
      ensures deck.Some? ==> forall i :: 0 <= i < |r| ==> |r[i].data| > 0
    {
      Sections(deck, searchQuery, activeDeckId, displayLimit, t, lower)
    }
  }
}
