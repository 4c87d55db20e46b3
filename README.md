# tarots-os core logic in Dafny

This project models the deterministic core of the tarots-os tarot app, a
React Native app. That core is:

- the prompt it sends to the language model for an interpretation;
- the statistics over the saved readings;
- the two zustand stores, history and settings;
- the card archive's search, order, page and group pipeline;
- the one-card draw step on the reading table and the session saved at
  the end of a reading;
- the memoising deck registry;
- the onboarding step machine;
- the newest-first history list.

Library calls are parameters of the model:

- i18next's `t` is an arbitrary function of a key and its interpolation
  parameters;
- `String.prototype.toLowerCase` is a function parameter;
- `drawCards` (in `src/services/rng.ts`, which is not part of this model)
  is a function of which one thing is assumed: it returns a card of the
  non-empty deck it is given (being a function, it also gives the same
  card for the same input; see "## Left out");
- `getDeck(activeDeckId)`, the clock and the AI result are passed in as
  values.

The model is organised as follows:

- One module per source file, plus four shared modules:
  - `Types` holds the records of `src/types/*.ts`;
  - `Seqs` holds filter, index-of and distinctness;
  - `Text` holds `trim`, `includes`, `join` and `split`;
  - `Sorting` holds a stable insertion sort by an integer key. It stands
    for `Array.prototype.sort` with a numeric comparator, which ECMAScript
    requires to be stable.
- Pure source code becomes functions and lemmas.
- Each zustand store is a class whose methods reassign its fields.
- The registry's `loadedDecks` cache is a `map` field.
- The `forEach` loops of `calculateStats` and `groupCards` are `while`
  loops. Each loop is proved to compute a specification function.

Where the code and its description disagree, the model follows the code:

- A drawn card whose id is missing from the deck gives an empty line in the
  prompt's card list. It is not dropped, so the lines keep their 1-based
  indices and the list still has one line per drawn card
  (`PromptBuilder.CardsListLines`).
- Only an empty question falls back to "General reflection". A question
  made only of whitespace is sent as it is, because `||` tests for the
  empty string only.
- The archive's sort key is the index of the card's type, or else of its
  suit or of `"none"`, in the deck's group order. A card whose key is
  found nowhere gets index -1 and sorts before every group. It still
  counts toward the page limit, and `groupCards` then drops it.
- The saved session's timestamp is `getUTCMilliseconds()`, not the Unix
  time the `timestamp` field is declared to hold (see "## Findings").

## Model

| member | source | states |
|---|---|---|
| Types.FindCard | src/services/promptBuilder.ts:40 | `find`: none exactly when no card has the id; otherwise the first card carrying that id |
| Types.FindSlot | src/services/promptBuilder.ts:43 | `find` on the spread's slots: none exactly when no slot has the id; otherwise a slot of the spread with that id |
| Text.Trim | src/services/promptBuilder.ts:80 | the result has no leading or trailing whitespace and is no longer than the input |
| Text.TrimSplits | src/services/promptBuilder.ts:80 | every string is whitespace, then its trimmed form, then whitespace |
| Text.TrimIgnoresPadding | src/features/onboarding/OnboardingScreen.tsx:30 | whitespace added around a string does not change its trimmed form |
| Text.TrimUnpads | src/services/promptBuilder.ts:73-80 | trimming whitespace-padded trimmed text gives back that text |
| Text.Includes | src/features/deck-explorer/DeckExplorerScreen.tsx:78 | `includes` holds exactly when the query occurs at some position of the text |
| Text.Join | src/services/promptBuilder.ts:67 | joining no parts gives ""; joining one part gives that part |
| Text.Split | src/services/promptBuilder.ts:67 | splitting at a character gives at least one part, and no part contains that character |
| Text.JoinSplit | src/services/promptBuilder.ts:67 | joining the parts of a split with the same character gives back the text |
| Text.SplitJoin | src/services/promptBuilder.ts:67 | splitting a join of parts free of the separator gives back the parts |
| Text.FirstIndexUnique | src/services/promptBuilder.ts:67 | the first occurrence of a character is the one position with no earlier occurrence |
| Seqs.Filter | src/utils/statistics.ts:7 | `filter` keeps the elements that satisfy the predicate, and only those |
| Seqs.FilterMultiset | src/store/useHistoryStore.ts:26 | a kept element keeps its multiplicity; a rejected one has none |
| Seqs.FilterConcat | src/store/useHistoryStore.ts:26 | filtering a concatenation filters each part |
| Seqs.IndexOf | src/features/deck-explorer/DeckExplorerScreen.tsx:85-86 | `indexOf` is -1 exactly when the element is absent; otherwise it is the element's first position |
| Sorting.SortByKey | src/features/history/HistoryScreen.tsx:21 | the sorted copy has the same length and multiset as the input, and is ordered by key |
| Sorting.SortIsStable | src/features/deck-explorer/DeckExplorerScreen.tsx:84-88 | elements with equal keys keep their relative input order |
| Sorting.SortKeepsSorted | src/features/history/HistoryScreen.tsx:21 | an input already ordered by key comes back unchanged |
| Sorting.InsertKeepsSorted | src/features/history/HistoryScreen.tsx:21 | inserting into a list ordered by key keeps it ordered |
| PromptBuilder.TargetLanguageName | src/services/promptBuilder.ts:17-18 | "Italiano" exactly when the language code starts with "it"; otherwise "English" |
| PromptBuilder.EffectiveQuestion | src/services/promptBuilder.ts:33 | a non-empty question is kept; only "" falls back to "General reflection" |
| PromptBuilder.MetaString | src/services/promptBuilder.ts:55 | starts with the type name and a space, and is exactly that when no suit is present |
| PromptBuilder.MetaStringDeterminesMeta | src/services/promptBuilder.ts:55 | cards with different type or suit get different metadata strings |
| PromptBuilder.PositionKeyId | src/services/promptBuilder.ts:43-49 | the slot id when the spread has that slot; otherwise the text "undefined" that `${position?.id}` prints |
| PromptBuilder.CardLineParams | src/services/promptBuilder.ts:51-66 | the card line gets exactly the seven parameters: the 1-based index, the metadata string, and the reversed status template exactly when the card is reversed |
| PromptBuilder.CardEntries | src/services/promptBuilder.ts:39-67 | one entry per drawn card, in input order; entry i is the entry for index i+1 |
| PromptBuilder.CardEntry | src/services/promptBuilder.ts:39-66 | "" for a card missing from the deck; otherwise the card-line template with that card's parameters |
| PromptBuilder.CardsList | src/services/promptBuilder.ts:39-67 | nothing for no draws, the single entry for one draw |
| PromptBuilder.ContextParams | src/services/promptBuilder.ts:27-34 | exactly the keys deckName, spreadName and question; the names are translated with the ids as default values; the question is the user's, or "General reflection" when it is "" |
| PromptBuilder.ContextText | src/services/promptBuilder.ts:30-34 | the context template with `ContextParams` |
| PromptBuilder.UserPrompt | src/services/promptBuilder.ts:73-80 | the definition: the template literal, then `trim`; `UserPromptIsTrimmedLayout` proves the indentation disappears |
| PromptBuilder.EntryAtPosition | src/services/promptBuilder.ts:39-66 | a drawn card missing from the deck gives ""; otherwise its card line is built with its own position as index |
| PromptBuilder.CardsListLines | src/services/promptBuilder.ts:39-67 | when no entry holds a newline, splitting the list at "\n" gives back exactly one entry per drawn card |
| PromptBuilder.NoDrawsEmptyList | src/services/promptBuilder.ts:39-67 | no drawn cards give an empty card list |
| PromptBuilder.UserPromptIsTrimmedLayout | src/services/promptBuilder.ts:73-80 | the user content is the trimmed layout of the four blocks |
| PromptBuilder.UserPromptLayout | src/services/promptBuilder.ts:73-80 | when the context does not start with whitespace and the final instruction does not end with it, the content is: context, blank line, header, newline, list, blank line, instruction |
| PromptBuilder.BuildInterpretationPrompt | src/services/promptBuilder.ts:9-86 | exactly two messages: first a system message with the system template for the chosen language, then a user message with the trimmed layout of context, header, card list and final instruction |
| Statistics.TopCard | src/utils/statistics.ts:44-53 | the count is the maximum over the keys; the id is the first key in order to reach it under strict `>`; none and 0 when every count is 0 |
| Statistics.InitSuitCounts | src/utils/statistics.ts:15-20 | exactly the deck's group keys, each at 0; nothing without a deck |
| Statistics.TallyReading | src/utils/statistics.ts:23-41 | after one reading's cards, the card tally counts every id drawn so far, its keys are in first-seen order, and each group counts its draws |
| Statistics.TallyCard | src/utils/statistics.ts:24-40 | one drawn card raises totalCards by one, its id's count by one (appending the id when new) and its group's count by one when the deck has that group |
| Statistics.TallyReadings | src/utils/statistics.ts:23-41 | after every filtered reading, totalCards is the number of cards drawn, the card tally counts every drawn id and each group counts its draws |
| Statistics.CalculateStats | src/utils/statistics.ts:4-61 | counts only the deck's own readings; totalCards is the number of cards drawn in them; every group key counts the cards of that group; the top card has the highest count, ties going to the first drawn; no top card exactly when nothing was drawn |
| Statistics.TopCardOfTally | src/utils/statistics.ts:45-53 | the top id and count chosen from the tally are the maximum over the drawn ids, the earliest on ties |
| Statistics.CardCountsSumToTotal | src/utils/statistics.ts:26-27 | the card counts add up to totalCards |
| Statistics.SuitCountsAtMostTotal | src/utils/statistics.ts:31-38 | the group counts add up to at most totalCards |
| Statistics.ForeignReadingIgnored | src/utils/statistics.ts:5-7 | a reading of another deck can be removed without changing the filtered readings |
| Statistics.ForDeckExact | src/utils/statistics.ts:7-9 | the filtered readings are exactly the readings of the deck |
| Statistics.ForDeck | src/utils/statistics.ts:7 | no longer than the input; it keeps exactly the readings of the deck |
| Statistics.Draws | src/utils/statistics.ts:23-24 | a card is drawn exactly when some filtered reading holds it |
| Statistics.GroupKey | src/utils/statistics.ts:30-38 | none without a deck or a deck card; otherwise "major" for a major card, else the card's suit, and none only for a non-major card without a suit |
| Statistics.CountDistinct | src/utils/statistics.ts:26 | in a list without repeats, every id counts once or not at all |
| Statistics.DedupDistinct | src/utils/statistics.ts:48 | the tally's keys have no repeats |
| Statistics.DedupElements | src/utils/statistics.ts:48 | the tally's keys are exactly the drawn ids |
| HistoryStore.UpdateById | src/store/useHistoryStore.ts:19-34 | same length; every reading with the id is updated and every other reading is unchanged |
| HistoryStore.DeleteById | src/store/useHistoryStore.ts:24-27 | no longer than the input; it keeps exactly the readings whose id differs |
| HistoryStore.UpdateIdempotent | src/store/useHistoryStore.ts:19-22 | setting the same text twice equals setting it once |
| HistoryStore.UpdateAbsentIsNoop | src/store/useHistoryStore.ts:19-22 | an update for an absent id changes nothing |
| HistoryStore.DeleteCounts | src/store/useHistoryStore.ts:24-27 | delete removes every copy of a reading with the id, and keeps every other reading with its multiplicity |
| HistoryStore.DeleteConcat | src/store/useHistoryStore.ts:26 | delete keeps the remaining readings in their order, segment by segment |
| HistoryStore.DeleteAbsentIsNoop | src/store/useHistoryStore.ts:24-27 | deleting an absent id changes nothing |
| HistoryStore.DeleteIdempotent | src/store/useHistoryStore.ts:24-27 | deleting twice equals deleting once |
| HistoryStore.DeleteUndoesAdd | src/store/useHistoryStore.ts:13-27 | adding a reading and then deleting its id equals deleting that id from the old list |
| HistoryStore.History.constructor | src/store/useHistoryStore.ts:11 | the history starts empty |
| HistoryStore.History.AddReading | src/store/useHistoryStore.ts:13-17 | the new reading is at index 0, followed by the old list; the length grows by one |
| HistoryStore.History.UpdateReadingInterpretation | src/store/useHistoryStore.ts:19-22 | same length and order; matching ids get the text as `aiInterpretation`, and every other field and reading is unchanged |
| HistoryStore.History.DeleteReading | src/store/useHistoryStore.ts:24-27 | the list is the old one without the id, and no reading with the id is left |
| HistoryStore.History.ClearHistory | src/store/useHistoryStore.ts:29 | the history is empty |
| HistoryStore.History.UpdateUserNotes | src/store/useHistoryStore.ts:31-34 | the same frame property for `userNotes` |
| SettingsStore.MergeAIConfig | src/store/useSettingsStore.ts:38-41 | each field present in the patch overrides; each absent field keeps its old value |
| SettingsStore.MergePreferences | src/store/useSettingsStore.ts:43-46 | the same per-field merge for the preferences |
| SettingsStore.MergeAIConfigExtremes | src/store/useSettingsStore.ts:40 | an empty patch changes nothing; a full patch replaces everything |
| SettingsStore.MergeAIConfigTwice | src/store/useSettingsStore.ts:40 | two successive merges equal one merge of the combined patch |
| SettingsStore.MergeAIConfigIdempotent | src/store/useSettingsStore.ts:40 | merging the same patch twice equals merging it once |
| SettingsStore.MergePreferencesEmpty | src/store/useSettingsStore.ts:45 | an empty preferences patch changes nothing |
| SettingsStore.MergePreferencesTwice | src/store/useSettingsStore.ts:45 | two successive preference merges equal one merge of the combined patch |
| SettingsStore.MergePreferencesIdempotent | src/store/useSettingsStore.ts:45 | merging the same preferences patch twice equals merging it once |
| SettingsStore.Settings.constructor | src/store/useSettingsStore.ts:12-30 | the initial state: empty name, default theme, "rider-waite", not onboarded, apiKey "", default preferences |
| SettingsStore.Settings.SetUserName | src/store/useSettingsStore.ts:33 | sets the name and nothing else |
| SettingsStore.Settings.SetThemeMode | src/store/useSettingsStore.ts:34 | sets the theme mode and nothing else |
| SettingsStore.Settings.CompleteOnboarding | src/store/useSettingsStore.ts:35 | sets the flag and nothing else; a second call changes nothing |
| SettingsStore.Settings.SetActiveDeckId | src/store/useSettingsStore.ts:36 | sets the active deck and nothing else |
| SettingsStore.Settings.SetAiConfig | src/store/useSettingsStore.ts:38-41 | the AI config is merged with the patch; nothing else changes |
| SettingsStore.Settings.UpdatePreferences | src/store/useSettingsStore.ts:43-46 | the preferences are merged with the patch; nothing else changes |
| SettingsStore.Settings.ResetAllSettings | src/store/useSettingsStore.ts:48-64 | restores the default preferences, the default AI config (apiKey "") and not onboarded; name, theme and active deck are untouched |
| DeckExplorer.GroupOf | src/features/deck-explorer/DeckExplorerScreen.tsx:34-43 | the type's group when it exists, else the suit's group when there is a suit and it exists, else none |
| DeckExplorer.Bucket | src/features/deck-explorer/DeckExplorerScreen.tsx:34-43 | the cards of the input whose group is the key, and no others |
| DeckExplorer.SectionOf | src/features/deck-explorer/DeckExplorerScreen.tsx:24-31 | the section of a key: its type is the key, its title the translated label, its colour the group's colour, and its cards exactly those of the group |
| DeckExplorer.Grouped | src/features/deck-explorer/DeckExplorerScreen.tsx:17-49 | every section is non-empty and is the bucket of the group its type names |
| DeckExplorer.SectionsInKeyOrder | src/features/deck-explorer/DeckExplorerScreen.tsx:19-48 | the section types are the deck's group keys that received cards, in key order |
| DeckExplorer.CardPlacement | src/features/deck-explorer/DeckExplorerScreen.tsx:34-43 | a card lies in the section of its group; a card without a group lies in no section |
| DeckExplorer.AtMostOneSection | src/features/deck-explorer/DeckExplorerScreen.tsx:34-43 | with distinct group keys, each card lies in at most one section |
| DeckExplorer.GroupCards | src/features/deck-explorer/DeckExplorerScreen.tsx:17-49 | the imperative bucketing computes `Grouped`; each section's data is the input cards of its group, in input order |
| DeckExplorer.InitGroups | src/features/deck-explorer/DeckExplorerScreen.tsx:19-31 | one empty bucket per group key of the deck |
| DeckExplorer.PushCard | src/features/deck-explorer/DeckExplorerScreen.tsx:34-43 | one more card is placed in the bucket of its group, or nowhere when it has none |
| DeckExplorer.GroupIndex | src/features/deck-explorer/DeckExplorerScreen.tsx:85-86 | the index of the type in the group order when present; otherwise the index of the suit, or of "none"; -1 when absent |
| DeckExplorer.Searched | src/features/deck-explorer/DeckExplorerScreen.tsx:73-80 | no query keeps every card; a query keeps exactly the cards whose lower-cased translated name includes the lower-cased query, and only deck cards are kept |
| DeckExplorer.Take | src/features/deck-explorer/DeckExplorerScreen.tsx:91 | `slice(0, n)`: a prefix of at most n elements; the whole list when n reaches its length |
| DeckExplorer.VisibleCards | src/features/deck-explorer/DeckExplorerScreen.tsx:73-91 | as many matching cards as the limit allows (never one more often than it matches, and all of them once the limit covers the matches), ordered by group index; a match left off the page sorts no earlier than any card on it; each card is from the deck and matches the query |
| DeckExplorer.Sections | src/features/deck-explorer/DeckExplorerScreen.tsx:70-95 | no deck gives no sections; otherwise every section is non-empty and names a group of the deck; its cards are page cards of that group matching the query; and every page card that has a group lies in that group's section |
| DeckExplorer.SortKeepsDeckOrder | src/features/deck-explorer/DeckExplorerScreen.tsx:84-88 | cards of one group index keep their deck order after the sort |
| DeckExplorer.WholeDeckVisible | src/features/deck-explorer/DeckExplorerScreen.tsx:73-91 | with no query and a limit covering the deck, every card of the deck is visible, each as often as in the deck |
| DeckExplorer.Explorer.constructor | src/features/deck-explorer/DeckExplorerScreen.tsx:55-56 | no query, and one page |
| DeckExplorer.Explorer.HandleSearch | src/features/deck-explorer/DeckExplorerScreen.tsx:65-68 | sets the query and resets the limit to one page |
| DeckExplorer.Explorer.LoadMore | src/features/deck-explorer/DeckExplorerScreen.tsx:97-101 | adds a page only when there is a deck and the limit is below its size; otherwise changes nothing |
| DeckExplorer.Explorer.CurrentSections | src/features/deck-explorer/DeckExplorerScreen.tsx:70-95 | the sections of the current query and limit, none of them empty |
| HistoryScreen.SortedReadings | src/features/history/HistoryScreen.tsx:20-22 | a copy of the history with the same readings, timestamps non-increasing |
| HistoryScreen.SameTimestampKeepsOrder | src/features/history/HistoryScreen.tsx:21 | readings with equal timestamps keep their store order |
| HistoryScreen.NewestFirstUnchanged | src/features/history/HistoryScreen.tsx:21 | a history already newest first is listed unchanged |
| HistoryScreen.EmptyStateIffNothingListed | src/features/history/HistoryScreen.tsx:84 | the empty state is shown exactly when there is nothing to list |
| HistoryScreen.ShowsEmptyState | src/features/history/HistoryScreen.tsx:84 | the definition: an empty store; `EmptyStateIffNothingListed` proves it agrees with the sorted list |
| ReadingTable.Candidates | src/features/reading/ReadingTableScreen.tsx:55-65 | a card is a candidate exactly when it is in the deck, is major if only major cards are allowed, and is not on the table |
| ReadingTable.DrawnCardIsFresh | src/features/reading/ReadingTableScreen.tsx:61-81 | a card drawn from the candidates is from the deck, is major if required, and is not already on the table |
| ReadingTable.CompleteIffEverySlotFilled | src/features/reading/ReadingTableScreen.tsx:113-130 | with one card per slot and only slots of the spread, a full count means every slot holds a card, and the converse |
| ReadingTable.IsReadingComplete | src/features/reading/ReadingTableScreen.tsx:113 | the definition: as many drawn cards as slots; `CompleteIffEverySlotFilled` proves that this means every slot is filled |
| ReadingTable.FindSpread | src/features/reading/ReadingTableScreen.tsx:42-47 | the route's spread when one has its id; otherwise none |
| ReadingTable.Session | src/features/reading/ReadingTableScreen.tsx:96-105 | the saved id, timestamp, deck and cards; the spread id or ""; the AI text only when non-empty; no question, notes, seed or model |
| ReadingTable.TimestampAsWritten | src/features/reading/ReadingTableScreen.tsx:100 | `getUTCMilliseconds()` always lies in 0..999 |
| ReadingTable.AsWrittenListsOlderFirst | src/features/reading/ReadingTableScreen.tsx:100 | two sessions saved at 1000999 ms and 1001000 ms are listed older first |
| ReadingTable.SaveKeepsNewestFirst | src/features/reading/ReadingTableScreen.tsx:96-107 | with the Unix time as timestamp, saving keeps a newest-first history newest first, with the new session on top |
| ReadingTable.Table.constructor | src/features/reading/ReadingTableScreen.tsx:42-47 | the spread the route names, and no cards |
| ReadingTable.Table.HandleDrawCard | src/features/reading/ReadingTableScreen.tsx:50-82 | no deck: nothing; no candidate: nothing (the alert); otherwise exactly one card is appended for the slot and the active deck, drawn from the candidates, and the earlier cards are unchanged |
| ReadingTable.Table.OnFlip | src/features/reading/ReadingTableScreen.tsx:130-148 | a filled slot is never drawn again; for an empty slot the outcome and new table are those of `handleDrawCard`: no change without a deck or candidates, else exactly the drawn candidate appended for that slot; the table keeps each card and each slot at most once |
| ReadingTable.AppendKeepsDistinct | src/features/reading/ReadingTableScreen.tsx:61-81 | appending a card whose id and slot are new keeps the ids and the slots free of repeats |
| ReadingTable.Table.SaveAndExit | src/features/reading/ReadingTableScreen.tsx:96-109 | the session, stamped with `getUTCMilliseconds()` as the code does (a value in 0..999), goes on top of the history |
| DeckRegistry.TranslationsOf | src/services/deckRegistry.ts:69-71 | registers "en" and then "it", each for the deck |
| DeckRegistry.ImageOf | src/services/deckRegistry.ts:89-97 | an image only when there is a bundle and a non-zero reference under the id; otherwise null |
| DeckRegistry.Registry.constructor | src/services/deckRegistry.ts:17-55 | the three-deck manifest; an empty cache |
| DeckRegistry.Registry.Lookup | src/services/deckRegistry.ts:63-64 | null exactly for an id outside the manifest |
| DeckRegistry.Registry.LoadDeck | src/services/deckRegistry.ts:60-75 | a cached id returns the cached bundle without registering anything; an unknown id gives null and changes nothing; otherwise both translations are registered and the bundle is cached |
| DeckRegistry.Registry.CacheAfter | src/services/deckRegistry.ts:61-74 | the cache after `loadDeck`: the old entries unchanged, plus the id only when it was uncached and in the manifest |
| DeckRegistry.Registry.RegistrationsOf | src/services/deckRegistry.ts:61-71 | the registrations of one `loadDeck`: none for a cached or unknown id, otherwise the deck's two translations |
| DeckRegistry.Registry.LoadEach | src/services/deckRegistry.ts:79-82 | one description per key in order; the cache gains exactly the keys; the registrations are those of loading the keys in order |
| DeckRegistry.Registry.LoadNext | src/services/deckRegistry.ts:80-81 | one `loadDeck` step of the map: the key's description; the cache and the registrations advance by that key |
| DeckRegistry.Registry.FirstListingRegistersEveryDeck | src/services/deckRegistry.ts:77-83 | on a cold cache, listing the decks registers the two translations of each deck once, in manifest order |
| DeckRegistry.Registry.CachedKeysRegisterNothing | src/services/deckRegistry.ts:61-83 | once every key is cached, loading them again registers nothing |
| DeckRegistry.Registry.GetAvailableDecks | src/services/deckRegistry.ts:77-83 | one deck description per manifest key, in key order; afterwards the cache is the whole manifest, and the registrations are those of loading the keys in order |
| DeckRegistry.Registry.GetDeck | src/services/deckRegistry.ts:85-87 | null exactly for an unknown id; otherwise the bundle's deck; the cache and registrations change as one `loadDeck` changes them |
| DeckRegistry.Registry.GetCardImageSource | src/services/deckRegistry.ts:89-92 | the bundle's image under the id; null for an unknown deck; the state changes as one `loadDeck` changes it |
| DeckRegistry.Registry.GetCardBackImage | src/services/deckRegistry.ts:94-97 | the bundle's `back_image` entry; the state changes as one `loadDeck` changes it |
| Onboarding.Flow.constructor | src/features/onboarding/OnboardingScreen.tsx:21-23 | step 0 and an empty name |
| Onboarding.Flow.SetNameInput | src/features/onboarding/OnboardingScreen.tsx:22 | the name field holds the text, and the step is unchanged |
| Onboarding.Flow.HandleNext | src/features/onboarding/OnboardingScreen.tsx:25-38 | step stays in 0..3; below 3 it grows by one; at 3 onboarding completes and the step stays; the name is saved trimmed only at step 1; no other setting changes |
| Onboarding.Flow.HandleBack | src/features/onboarding/OnboardingScreen.tsx:40-43 | at step 0 nothing changes; otherwise the step drops by one |

## Left out

- The draw engine: `drawCards` and the daily seed live in `src/services/rng.ts`, which is not part of this model. The draw is a parameter that returns a card of its non-empty input.
- The draw as a function value (`ReadingTable.Drawer`): the model treats it as deterministic: the same candidates and setting give the same card. The real draw is random. No proof uses this, and every contract holds for whatever card it returns.
- i18next: interpolation, resource bundles, `defaultValue` fallbacks and `loadDeckTranslations` are a foreign library. `t` is an uninterpreted parameter, and the registry records the registrations it makes.
- `toLowerCase` is a parameter: the model has no Unicode case mapping.
- The network client in `src/services/ai.ts`, the async state of `useInterpretation`, and `handleInterpret` are network I/O.
- Platform I/O is left out: storage, backup, notifications, biometrics and alerts. The "Mazzo esaurito!" alert is the `Exhausted` outcome. Navigation after saving is not modelled.
- The zustand persistence middleware and its migration hook are library plumbing.
- Layout animations, geometry, theming and the other screens and components are presentation.
- Wall-clock time and `Date.now()` ids are parameters (the clock in milliseconds, and the id).
- JavaScript objects are modelled as maps with insertion-ordered keys. Integer-like keys, which JavaScript enumerates first, and inherited prototype keys such as `toString` are not modelled.
- SettingsStore.MergeAIConfig: a partial that sets a required field explicitly to `undefined` is not modelled; an absent field and that case are the same here.
- DeckRegistry.Registry.LoadDeck: the loaders are not modelled, because their `require` calls are foreign. The bundles they return are the constructor's parameters, and object identity of a cached bundle is value equality here.
- DeckRegistry.ImageOf: an image reference is an asset number. Only 0 is treated as falsy, since an asset number cannot be any other falsy value.
- PromptBuilder.BuildInterpretationPrompt: an `undefined` question is the default "", as the parameter default says.
- ReadingTable.Session: the custom question of the route is not saved, matching the code, which does not save it.

## Findings

| source | as written | input that shows it | evidently intended | confidence | as-written member | corrected member |
|---|---|---|---|---|---|---|
| src/features/reading/ReadingTableScreen.tsx:100 | `timestamp: new Date().getUTCMilliseconds()` keeps only the milliseconds within the current second (0..999) | two readings saved at 1000999 ms and 1001000 ms get timestamps 999 and 0, so the newest-first history lists the later one last | the Unix time in milliseconds that `ReadingSession.timestamp` is declared to hold (src/types/reading.ts:22) | not executed | ReadingTable.AsWrittenListsOlderFirst | ReadingTable.SaveKeepsNewestFirst |

`ReadingTable.Table.SaveAndExit` stamps the session as the code does, with
`TimestampAsWritten`. The corrected stamp is `ReadingTable.Timestamp`, the
Unix time, and `ReadingTable.SaveKeepsNewestFirst` proves what it restores.
