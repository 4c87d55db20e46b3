/**
 * src/services/deckRegistry.ts: the static manifest of bundled decks and
 * the module-level `loadedDecks` cache that `loadDeck` fills.
 *
 * A manifest loader `require`s the deck's JSON, its image table and its two
 * translation files; the bundles it would produce are given to the
 * registry's constructor. An image reference is the asset number Metro's
 * `require` yields for a picture. `loadDeckTranslations` (i18next) is
 * recorded as the list of registrations it receives.
 */
module DeckRegistry {
  import opened Types

  /** The translation files are modelled by their text. */
  datatype DeckBundle = DeckBundle(data: Deck, images: map<string, int>, en: string, it: string)

  /** One call `loadDeckTranslations(deckId, lang, data)`. */
  datatype Registration = Registration(deckId: string, lang: string, data: string)

  /** `Object.keys(DECK_MANIFEST)`. */
  const ManifestKeys: seq<string> := ["rider-waite", "marseille", "visconti-sforza"]

  const BackImageId := "back_image"

  /** `Object.entries(bundle.translations)`, registered in key order. */
  function TranslationsOf(deckId: string, bundle: DeckBundle): (r: seq<Registration>)
    ensures |r| == 2 && r[0].lang == "en" && r[1].lang == "it"
    ensures forall i :: 0 <= i < 2 ==> r[i].deckId == deckId
    ensures r[0].data == bundle.en && r[1].data == bundle.it
  {
    [Registration(deckId, "en", bundle.en), Registration(deckId, "it", bundle.it)]
  }

  /** `bundle?.images[imageId] || null`: nothing for no bundle, for an
      unknown image id, or for a falsy reference (0). */
  function ImageOf(bundle: Option<DeckBundle>, imageId: string): (r: Option<int>)
    ensures r.Some? <==> bundle.Some? && imageId in bundle.value.images && bundle.value.images[imageId] != 0
    ensures r.Some? ==> r.value == bundle.value.images[imageId]
  {
    if bundle.Some? && imageId in bundle.value.images && bundle.value.images[imageId] != 0
    then Some(bundle.value.images[imageId])
    else None
  }

  class Registry {
    /** `DECK_MANIFEST`, with each loader's result. */
    const manifest: map<string, DeckBundle>
    /** The `loadedDecks` cache. */
    var loadedDecks: map<string, DeckBundle>
    /** Every `loadDeckTranslations` call so far. */
    var registered: seq<Registration>

    /** The manifest lists the three decks, and the cache only holds what
        their loaders produce. */
    ghost predicate Valid()
      reads this
    {
      && (forall k :: k in manifest <==> k in ManifestKeys)
      && (forall k :: k in loadedDecks ==> k in manifest && loadedDecks[k] == manifest[k])
    }

    /** What `loadDeck(deckId)` yields: the manifest's bundle, or null. */
    function Lookup(deckId: string): (r: Option<DeckBundle>)
      reads this
      ensures r.None? <==> deckId !in manifest
    {
      if deckId in manifest then Some(manifest[deckId]) else None
    }

    /** The cache after `loadDeck(deckId)` ran on `cache`: only an unknown,
        uncached id adds its bundle. */
    function CacheAfter(deckId: string, cache: map<string, DeckBundle>): (r: map<string, DeckBundle>)
      ensures forall k :: k in r <==> k in cache || (k == deckId && deckId in manifest)
      ensures forall k :: k in cache ==> r[k] == cache[k]
    {
      if deckId in cache || deckId !in manifest then cache else cache[deckId := manifest[deckId]]
    }

    /** The registrations `loadDeck(deckId)` makes on `cache`: the deck's
        translations when its loader runs, none otherwise. */
    function RegistrationsOf(deckId: string, cache: map<string, DeckBundle>): (r: seq<Registration>)
      ensures deckId in cache || deckId !in manifest ==> r == []
      ensures deckId !in cache && deckId in manifest ==> |r| == 2 && r == TranslationsOf(deckId, manifest[deckId])
    {
      if deckId in cache || deckId !in manifest then [] else TranslationsOf(deckId, manifest[deckId])
    }

    /** The registrations of loading `keys[..n]` in order, starting from
        `cache`: a key of the manifest registers its translations the first
        time it is loaded, unless it was cached already. */
    function RegistrationsOfFirst(keys: seq<string>, n: nat, cache: map<string, DeckBundle>): (r: seq<Registration>)
      requires n <= |keys|
      decreases n
    {
      if n == 0 then []
      else
        var k := keys[n - 1];
        RegistrationsOfFirst(keys, n - 1, cache)
        + (if k in cache || k in keys[..n - 1] || k !in manifest then [] else TranslationsOf(k, manifest[k]))
    }

    constructor(riderWaite: DeckBundle, marseille: DeckBundle, viscontiSforza: DeckBundle)
      ensures manifest == map["rider-waite" := riderWaite, "marseille" := marseille, "visconti-sforza" := viscontiSforza]
      ensures loadedDecks == map[] && registered == []
      ensures Valid()
    {
      manifest := map["rider-waite" := riderWaite, "marseille" := marseille, "visconti-sforza" := viscontiSforza];
      loadedDecks := map[];
      registered := [];
    }

    /** `loadDeck(deckId)`: a cached deck is returned without running its
        loader; an unknown id gives null and changes nothing; otherwise the
        loader runs, its translations are registered and the bundle cached. */
    method LoadDeck(deckId: string) returns (r: Option<DeckBundle>)
      requires Valid()
      modifies this
      ensures Valid()
      ensures r == Lookup(deckId)
      ensures loadedDecks == CacheAfter(deckId, old(loadedDecks))
      ensures registered == old(registered) + RegistrationsOf(deckId, old(loadedDecks))
      ensures deckId in old(loadedDecks) ==>
                r == Some(old(loadedDecks)[deckId]) && loadedDecks == old(loadedDecks) && registered == old(registered)
      ensures deckId !in old(loadedDecks) && deckId !in manifest ==>
                r.None? && loadedDecks == old(loadedDecks) && registered == old(registered)
      ensures deckId !in old(loadedDecks) && deckId in manifest ==>
                && loadedDecks == old(loadedDecks)[deckId := manifest[deckId]]
                && registered == old(registered) + TranslationsOf(deckId, manifest[deckId])
    {
      if deckId in loadedDecks {
        return Some(loadedDecks[deckId]);
      }
      if deckId !in manifest {
        return None;
      }
      var bundle := manifest[deckId];
      var entries := TranslationsOf(deckId, bundle);
      var e := 0;
      while e < |entries|
        invariant 0 <= e <= |entries|
        invariant registered == old(registered) + entries[..e]
        invariant loadedDecks == old(loadedDecks)
      {
        registered := registered + [entries[e]];
        assert entries[..e + 1] == entries[..e] + [entries[e]];
        e := e + 1;
      }
      assert entries[..e] == entries;
      loadedDecks := loadedDecks[deckId := bundle];
      r := Some(bundle);
    }

    /** The deck descriptions of the manifest's bundles for `keys`. */
    function InfosOf(keys: seq<string>): (r: seq<DeckInfo>)
      requires forall k :: k in keys ==> k in manifest
      ensures |r| == |keys| && forall j :: 0 <= j < |keys| ==> r[j] == manifest[keys[j]].data.info
    {
      seq(|keys|, j requires 0 <= j < |keys| => manifest[keys[j]].data.info)
    }

    lemma InfosSnoc(keys: seq<string>, i: nat)
      requires i < |keys| && forall k :: k in keys ==> k in manifest
      ensures InfosOf(keys[..i + 1]) == InfosOf(keys[..i]) + [manifest[keys[i]].data.info]
    {
      assert keys[..i + 1] == keys[..i] + [keys[i]];
    }

    /** `keys.map(id => loadDeck(id)!.data.info)` over keys of the manifest. */
    method LoadEach(keys: seq<string>) returns (infos: seq<DeckInfo>)
      requires Valid()
      requires forall k :: k in keys ==> k in manifest
      modifies this
      ensures Valid()
      ensures |infos| == |keys|
      ensures forall i :: 0 <= i < |keys| ==> infos[i] == manifest[keys[i]].data.info
      ensures forall k :: k in loadedDecks <==> k in old(loadedDecks) || k in keys
      ensures registered == old(registered) + RegistrationsOfFirst(keys, |keys|, old(loadedDecks))
    {
      infos := [];
      var i := 0;
      while i < |keys|
        invariant 0 <= i <= |keys|
        invariant Valid()
        invariant |infos| == i
        invariant infos == InfosOf(keys[..i])
        invariant forall k :: k in loadedDecks <==> k in old(loadedDecks) || k in keys[..i]
        invariant registered == old(registered) + RegistrationsOfFirst(keys, i, old(loadedDecks))
      {
        var info := LoadNext(keys, i, old(loadedDecks), old(registered));
        InfosSnoc(keys, i);
        infos := infos + [info];
        i := i + 1;
      }
      assert keys[..i] == keys;
      assert infos == InfosOf(keys);
    }

    /** The body of `map` in `getAvailableDecks`: load `keys[i]` after
        `keys[..i]` and take its deck description. */
    method LoadNext(keys: seq<string>, i: nat, ghost cache0: map<string, DeckBundle>, ghost regs0: seq<Registration>)
      returns (info: DeckInfo)
      requires Valid() && i < |keys| && keys[i] in manifest
      requires forall k :: k in loadedDecks <==> k in cache0 || k in keys[..i]
      requires registered == regs0 + RegistrationsOfFirst(keys, i, cache0)
      modifies this
      ensures Valid()
      ensures info == manifest[keys[i]].data.info
      ensures forall k :: k in loadedDecks <==> k in cache0 || k in keys[..i + 1]
      ensures registered == regs0 + RegistrationsOfFirst(keys, i + 1, cache0)
    {
      LoadStep(keys, i, cache0, loadedDecks);
      ghost var before, step := RegistrationsOfFirst(keys, i, cache0), RegistrationsOf(keys[i], loadedDecks);
      var bundle := LoadDeck(keys[i]);
      assert registered == regs0 + (before + step);
      info := bundle.value.data.info;
    }

    /** Loading `keys[i]` on the cache that `keys[..i]` left behind: the
        cache gains `keys[i]`, and the registrations are the next ones. */
    lemma LoadStep(keys: seq<string>, i: nat, cache0: map<string, DeckBundle>, cache: map<string, DeckBundle>)
      requires i < |keys| && keys[i] in manifest
      requires forall k :: k in cache <==> k in cache0 || k in keys[..i]
      ensures forall k :: k in CacheAfter(keys[i], cache) <==> k in cache0 || k in keys[..i + 1]
      ensures RegistrationsOfFirst(keys, i + 1, cache0) == RegistrationsOfFirst(keys, i, cache0) + RegistrationsOf(keys[i], cache)
    {
      assert keys[..i + 1] == keys[..i] + [keys[i]];
    }

    /** Listing the decks on a cold cache registers every deck's two
        translations once, in manifest order. */
    lemma FirstListingRegistersEveryDeck()
      requires Valid()
      ensures RegistrationsOfFirst(ManifestKeys, |ManifestKeys|, map[])
              == TranslationsOf("rider-waite", manifest["rider-waite"])
                 + TranslationsOf("marseille", manifest["marseille"])
                 + TranslationsOf("visconti-sforza", manifest["visconti-sforza"])
    {
      assert ManifestKeys[..0] == [] && ManifestKeys[..1] == ["rider-waite"];
      assert ManifestKeys[..2] == ["rider-waite", "marseille"];
      assert "marseille" !in ManifestKeys[..1];
      assert "visconti-sforza" !in ManifestKeys[..2];
    }

    /** Once every key is cached, loading them again registers nothing: the
        cache keeps `getAvailableDecks` from re-registering translations. */
    lemma {:induction false} CachedKeysRegisterNothing(keys: seq<string>, n: nat, cache: map<string, DeckBundle>)
      requires n <= |keys|
      requires forall k :: k in keys ==> k in cache
      ensures RegistrationsOfFirst(keys, n, cache) == []
    {
      if n > 0 {
        CachedKeysRegisterNothing(keys, n - 1, cache);
      }
    }

    /** `getAvailableDecks()`: one deck description per manifest key, in
        key order; afterwards every deck is cached, and each deck that was
        not cached before has registered its translations once, in key
        order. */
    method GetAvailableDecks() returns (infos: seq<DeckInfo>)
      requires Valid()
      modifies this
      ensures Valid()
      ensures |infos| == |ManifestKeys|
      ensures forall i :: 0 <= i < |ManifestKeys| ==> infos[i] == manifest[ManifestKeys[i]].data.info
      ensures loadedDecks == manifest
      ensures registered == old(registered) + RegistrationsOfFirst(ManifestKeys, |ManifestKeys|, old(loadedDecks))
    {
      infos := LoadEach(ManifestKeys);
    }

    /** `getDeck(deckId)`: the bundle's deck, or null. */
    method GetDeck(deckId: string) returns (r: Option<Deck>)
      requires Valid()
      modifies this
      ensures Valid()
      ensures loadedDecks == CacheAfter(deckId, old(loadedDecks))
      ensures registered == old(registered) + RegistrationsOf(deckId, old(loadedDecks))
      ensures r.None? <==> deckId !in manifest
      ensures r.Some? ==> r.value == manifest[deckId].data
    {
      var bundle := LoadDeck(deckId);
      r := if bundle.Some? then Some(bundle.value.data) else None;
    }

    /** `getCardImageSource(deckId, imageId)`. */
    method GetCardImageSource(deckId: string, imageId: string) returns (r: Option<int>)
      requires Valid()
      modifies this
      ensures Valid()
      ensures loadedDecks == CacheAfter(deckId, old(loadedDecks))
      ensures registered == old(registered) + RegistrationsOf(deckId, old(loadedDecks))
      ensures r == ImageOf(Lookup(deckId), imageId)
      ensures deckId !in manifest ==> r.None?
    {
      var bundle := LoadDeck(deckId);
      r := ImageOf(bundle, imageId);
    }

    /** `getCardBackImage(deckId)`: the deck's `back_image` entry. */
    method GetCardBackImage(deckId: string) returns (r: Option<int>)
      requires Valid()
      modifies this
      ensures Valid()
      ensures loadedDecks == CacheAfter(deckId, old(loadedDecks))
      ensures registered == old(registered) + RegistrationsOf(deckId, old(loadedDecks))
      ensures r == ImageOf(Lookup(deckId), BackImageId)
    {
      var bundle := LoadDeck(deckId);
      r := ImageOf(bundle, BackImageId);
    }
  }
}
