/**
 * The favourites store of the app: an encrypted key/value store holding each
 * saved text under a key, either the name the user gave it or a key derived
 * from the text itself. The store is one object whose entries the operations
 * update in place; persistence, encryption and the promise wrapping are not
 * part of this model.
 */
module Favourites {
  import opened Wrappers

  /** The characters JavaScript's `\s` matches. */
  predicate IsJsWhitespace(c: char)
  {
    var n := c as int;
    (9 <= n <= 13) || n == 0x20 || n == 0xA0 || n == 0x1680
    || (0x2000 <= n <= 0x200A) || n == 0x2028 || n == 0x2029 || n == 0x202F
    || n == 0x205F || n == 0x3000 || n == 0xFEFF
  }

  predicate IsAsciiUpper(c: char)
  {
    'A' <= c <= 'Z'
  }

  /** `toLowerCase` on one character, over the ASCII letters. */
  function LowerChar(c: char): char
  {
    if IsAsciiUpper(c) then (c as int + 32) as char else c
  }

  /** `text.replace(/\s/g, '-')`: every whitespace character becomes a dash. */
  function DashWhitespace(s: string): (r: string)
    ensures |r| == |s|
    ensures forall i :: 0 <= i < |s| ==> r[i] == (if IsJsWhitespace(s[i]) then '-' else s[i])
  {
    if s == [] then [] else [if IsJsWhitespace(s[0]) then '-' else s[0]] + DashWhitespace(s[1..])
  }

  /** `s.toLowerCase()`. */
  function ToLowerCase(s: string): (r: string)
    ensures |r| == |s|
    ensures forall i :: 0 <= i < |s| ==> r[i] == LowerChar(s[i])
  {
    if s == [] then [] else [LowerChar(s[0])] + ToLowerCase(s[1..])
  }

  /** A key in the form `DerivedKey` produces: no whitespace and no upper-case letter. */
  predicate InKeyForm(s: string)
  {
    forall i :: 0 <= i < |s| ==> !IsJsWhitespace(s[i]) && !IsAsciiUpper(s[i])
  }

  /**
   * The key a favourite saved without a name is stored under: it has the
   * text's length, is in key form, and differs from the text only where the
   * text has whitespace (now a dash) or a capital (now lowered).
   */
  function DerivedKey(text: string): (r: string)
    ensures |r| == |text|
    ensures InKeyForm(r)
    ensures forall i :: 0 <= i < |text| ==> r[i] == (if IsJsWhitespace(text[i]) then '-' else LowerChar(text[i]))
  {
    ToLowerCase(DashWhitespace(text))
  }

  /** `name || derivedKey`: a non-empty name is the key; a missing or empty name falls back to the derived key. */
  function FavouriteKey(text: string, name: Option<string>): (r: string)
    ensures name.Some? && name.value != "" ==> r == name.value
    ensures name.None? || name.value == "" ==> r == DerivedKey(text)
    ensures name.None? || name.value == "" ==> InKeyForm(r)
  {
    if name.Some? && name.value != "" then name.value else DerivedKey(text)
  }

  /** A text is its own derived key exactly when it is already in key form. */
  lemma DerivedKeyFixedPoints(text: string)
    ensures DerivedKey(text) == text <==> InKeyForm(text)
  {
    if InKeyForm(text) {
      assert forall i :: 0 <= i < |text| ==> DerivedKey(text)[i] == text[i];
    } else {
      var i :| 0 <= i < |text| && (IsJsWhitespace(text[i]) || IsAsciiUpper(text[i]));
      assert DerivedKey(text)[i] != text[i];
    }
  }

  /** Deriving a key from a derived key changes nothing. */
  lemma DerivedKeyIdempotent(text: string)
    ensures DerivedKey(DerivedKey(text)) == DerivedKey(text)
  {
    DerivedKeyFixedPoints(DerivedKey(text));
  }

  /** A text saved without a name is not a key when it holds whitespace or a capital. */
  lemma UnnamedTextIsNotItsKey(text: string)
    requires !InKeyForm(text)
    ensures FavouriteKey(text, None) != text
  {
    DerivedKeyFixedPoints(text);
  }

  /** One row of `getFavouritesWithContent`. */
  datatype Favourite = Favourite(title: string, text: string)

  /** The store, as the key/value table it holds. */
  class FavouritesStore {
    var entries: map<string, string>

    /** Opens the store over whatever it already holds. */
    constructor (persisted: map<string, string>)
      ensures entries == persisted
    {
      entries := persisted;
    }

    /** `getAllKeys()`: every stored key once, in an order the store chooses. */
    method AllKeys() returns (keys: seq<string>)
      ensures forall k :: k in keys <==> k in entries
      ensures forall i, j :: 0 <= i < j < |keys| ==> keys[i] != keys[j]
    {
      keys := [];
      var rest := entries.Keys;
      while rest != {}
        invariant forall k :: k in entries <==> k in rest || k in keys
        invariant forall k :: k in keys ==> k !in rest
        invariant forall i, j :: 0 <= i < j < |keys| ==> keys[i] != keys[j]
        decreases |rest|
      {
        var k :| k in rest;
        keys := keys + [k];
        rest := rest - {k};
      }
    }

    /** `getFavourites`: the keys of all favourites. */
    method GetFavourites() returns (keys: seq<string>)
      ensures forall k :: k in keys <==> k in entries
      ensures forall i, j :: 0 <= i < j < |keys| ==> keys[i] != keys[j]
    {
      keys := AllKeys();
    }

    /** `getFavouritesWithContent`: one row per key, titled by the key and holding its text. */
    method GetFavouritesWithContent() returns (items: seq<Favourite>)
      ensures forall k :: k in entries <==> exists i :: 0 <= i < |items| && items[i].title == k
      ensures forall i :: 0 <= i < |items| ==> items[i].title in entries && items[i].text == entries[items[i].title]
      ensures forall i, j :: 0 <= i < j < |items| ==> items[i].title != items[j].title
    {
      var keys := AllKeys();
      var stored := entries;
      items := seq(|keys|, i requires 0 <= i < |keys| =>
        Favourite(keys[i], if keys[i] in stored then stored[keys[i]] else ""));
      forall k | k in entries ensures exists i :: 0 <= i < |items| && items[i].title == k {
        var i :| 0 <= i < |keys| && keys[i] == k;
        assert items[i].title == k;
      }
    }

    /** `getFavouriteByKey`: the text stored under `key`, if any. */
    function GetFavouriteByKey(key: string): (r: Option<string>)
      reads this
      ensures r.Some? <==> key in entries
      ensures r.Some? ==> r.value == entries[key]
    {
      if key in entries then Some(entries[key]) else None
    }

    /** `isTextInFavourites`: whether `text` is a KEY of the store; stored texts are not searched. */
    method IsTextInFavourites(text: string) returns (r: bool)
      ensures r <==> text in entries
    {
      var keys := AllKeys();
      r := text in keys;
    }

    /** `addFavourite`: stores `text` under its key, leaving every other key as it was. */
    method AddFavourite(text: string, name: Option<string>) returns (key: string)
      modifies this
      ensures key == FavouriteKey(text, name)
      ensures entries == old(entries)[key := text]
      ensures GetFavouriteByKey(key) == Some(text)
      ensures forall k :: k != key ==> GetFavouriteByKey(k) == old(GetFavouriteByKey(k))
    {
      key := FavouriteKey(text, name);
      entries := entries[key := text];
    }

    /** `deleteFavouriteByKey`: removes exactly `key`. */
    method DeleteFavouriteByKey(key: string)
      modifies this
      ensures entries == old(entries) - {key}
      ensures GetFavouriteByKey(key) == None
      ensures forall k :: k != key ==> GetFavouriteByKey(k) == old(GetFavouriteByKey(k))
    {
      entries := entries - {key};
    }

    /** `deleteAllFavourites`: empties the store when confirmed, and does nothing otherwise. */
    method DeleteAllFavourites(confirm: bool)
      modifies this
      ensures confirm ==> entries == map[]
      ensures !confirm ==> entries == old(entries)
    {
      if !confirm {
        return;
      }
      entries := map[];
    }
  }
}
