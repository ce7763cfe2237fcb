/**
 * The spelling-alphabet tables of the app: NATO words for letters, number
 * words (with an optional extra spelling), words for a few symbols, and the
 * merged character table the home screen looks each typed character up in.
 *
 * A JavaScript object literal is written here as the list of its key/value
 * pairs in source order; `ObjectOf` turns that list into the object (a map),
 * a later pair winning over an earlier one with the same key.
 */
module CharsMap {

  /** The key/value pairs of an object literal, in source order. */
  type Entries = seq<(string, string)>

  /** The object an object literal denotes. */
  function ObjectOf(t: Entries): map<string, string>
  {
    if t == [] then map[] else ObjectOf(t[..|t| - 1])[t[|t| - 1].0 := t[|t| - 1].1]
  }

  /** The keys of the object are the keys written in the literal. */
  lemma {:induction false} ObjectKeys(t: Entries, k: string)
    ensures k in ObjectOf(t) <==> exists i :: 0 <= i < |t| && t[i].0 == k
  {
    if t != [] {
      var init := t[..|t| - 1];
      ObjectKeys(init, k);
      if k in ObjectOf(init) {
        var i :| 0 <= i < |init| && init[i].0 == k;
        assert t[i].0 == k;
      }
      if exists i :: 0 <= i < |t| && t[i].0 == k {
        var i :| 0 <= i < |t| && t[i].0 == k;
        if i < |init| {
          assert init[i].0 == k;
        }
      }
    }
  }

  /** Every pair of the literal satisfies `p`. */
  predicate EveryEntry(t: Entries, p: (string, string) -> bool)
  {
    forall i :: 0 <= i < |t| ==> p(t[i].0, t[i].1)
  }

  /** What holds of every pair of a literal holds of every entry of its object. */
  lemma {:induction false} EveryEntryOfObject(t: Entries, p: (string, string) -> bool)
    requires EveryEntry(t, p)
    ensures forall k :: k in ObjectOf(t) ==> p(k, ObjectOf(t)[k])
  {
    if t != [] {
      EveryEntryOfObject(t[..|t| - 1], p);
    }
  }

  /** Two literals with the same keys in the same order whose values are related pairwise by `p`. */
  predicate Pointwise(s: Entries, t: Entries, p: (string, string) -> bool)
  {
    |s| == |t| && forall i :: 0 <= i < |s| ==> s[i].0 == t[i].0 && p(s[i].1, t[i].1)
  }

  /** Such literals denote objects with the same keys whose values are related by `p`. */
  lemma {:induction false} PointwiseObjects(s: Entries, t: Entries, p: (string, string) -> bool)
    requires Pointwise(s, t, p)
    ensures ObjectOf(s).Keys == ObjectOf(t).Keys
    ensures forall k :: k in ObjectOf(s) ==> p(ObjectOf(s)[k], ObjectOf(t)[k])
  {
    if s != [] {
      PointwiseObjects(s[..|s| - 1], t[..|t| - 1], p);
    }
  }

  /** The object spread `{...a, ...b}`: every key of both, and `b` wins on a shared key. */
  function Spread(a: map<string, string>, b: map<string, string>): (r: map<string, string>)
    ensures r.Keys == a.Keys + b.Keys
    ensures forall k :: k in b ==> r[k] == b[k]
    ensures forall k :: k in a && k !in b ==> r[k] == a[k]
  {
    a + b
  }

  /** Spreading two literals is the literal of their pairs one after the other. */
  lemma {:induction false} SpreadIsConcatenation(s: Entries, t: Entries)
    ensures Spread(ObjectOf(s), ObjectOf(t)) == ObjectOf(s + t)
  {
    if t == [] {
      assert s + t == s;
    } else {
      SpreadIsConcatenation(s, t[..|t| - 1]);
      assert (s + t)[..|s + t| - 1] == s + t[..|t| - 1];
      assert (s + t)[|s + t| - 1] == t[|t| - 1];
    }
  }

  const LetterEntries: Entries := [
    ("A", "Alfa"), ("B", "Bravo"), ("C", "Charlie"), ("D", "Delta"),
    ("E", "Echo"), ("F", "Foxtrot"), ("G", "Golf"), ("H", "Hotel"),
    ("I", "India"), ("J", "Juliet"), ("K", "Kilo"), ("L", "Lima"),
    ("M", "Mike"), ("N", "November"), ("O", "Oscar"), ("P", "Papa"),
    ("Q", "Quebec"), ("R", "Romeo"), ("S", "Sierra"), ("T", "Tango"),
    ("U", "Uniform"), ("V", "Victor"), ("W", "Whiskey"), ("X", "X-ray"),
    ("Y", "Yankee"), ("Z", "Zulu")]

  const NumberEntries: Entries := [
    ("0", "Zero"), ("1", "One"), ("2", "Two"), ("3", "Three"), ("4", "Four"),
    ("5", "Five"), ("6", "Six"), ("7", "Seven"), ("8", "Eight"), ("9", "Nine"),
    ("00", "Hundred"), ("000", "Thousand")]

  const NumberExtraSpellingEntries: Entries := [
    ("0", "Zero, nadazero"), ("1", "One, unaone"), ("2", "Two, bissotwo"),
    ("3", "Three, terrathree"), ("4", "Four, kartefour"), ("5", "Five, pantafive"),
    ("6", "Six, soxisix"), ("7", "Seven, setteseven"), ("8", "Eight, oktoeight"),
    ("9", "Nine, novenine"), ("00", "Hundred"), ("000", "Thousand")]

  const SymbolEntries: Entries := [
    ("-", "- dash -"), (".", "- full stop -"), (",", "- comma -"), ("_", "- underscore -")]

  /** `letters`, `numbers`, `numbersExtraSpelling` and `symbols`. */
  const Letters: map<string, string> := ObjectOf(LetterEntries)
  const Numbers: map<string, string> := ObjectOf(NumberEntries)
  const NumbersExtraSpelling: map<string, string> := ObjectOf(NumberExtraSpellingEntries)
  const Symbols: map<string, string> := ObjectOf(SymbolEntries)

  /** `charsMap = {...letters, ...numbers, ...symbols, ' ': '- break -'}`. */
  const Chars: map<string, string> :=
    Spread(Spread(Spread(Letters, Numbers), Symbols), map[" " := "- break -"])

  predicate IsUpperCaseLetter(k: string)
  {
    |k| == 1 && 'A' <= k[0] <= 'Z'
  }

  predicate IsDigit(k: string)
  {
    |k| == 1 && '0' <= k[0] <= '9'
  }

  predicate IsNumberKey(k: string)
  {
    IsDigit(k) || k == "00" || k == "000"
  }

  predicate IsSymbolKey(k: string)
  {
    k == "-" || k == "." || k == "," || k == "_"
  }

  /** `w` is a word for the one-letter key `k`: it starts with that letter. */
  predicate SpellsKey(k: string, w: string)
  {
    |k| == 1 && |w| > 0 && w[0] == k[0]
  }

  /** A word of the form "- ... -", as the symbol and break words are. */
  predicate Dashed(w: string)
  {
    |w| >= 4 && w[..2] == "- " && w[|w| - 2..] == " -"
  }

  /** The keys of `letters`, in order, are A to Z. */
  lemma LetterKeysInOrder()
    ensures |LetterEntries| == 26
    ensures forall i :: 0 <= i < 26 ==> LetterEntries[i].0 == [(('A' as int) + i) as char]
  {
  }

  /** `letters` has exactly the upper-case letters A to Z as keys. */
  lemma {:induction false} LetterKeys(k: string)
    ensures k in Letters <==> IsUpperCaseLetter(k)
  {
    LetterKeysInOrder();
    ObjectKeys(LetterEntries, k);
    if IsUpperCaseLetter(k) {
      var i := (k[0] as int) - ('A' as int);
      assert LetterEntries[i].0 == k;
    }
    if k in Letters {
      var i :| 0 <= i < |LetterEntries| && LetterEntries[i].0 == k;
    }
  }

  /** Every word of `letters` starts with its letter. */
  lemma LettersSpellTheirKey()
    ensures forall k :: k in Letters ==> SpellsKey(k, Letters[k])
  {
    assert EveryEntry(LetterEntries, SpellsKey);
    EveryEntryOfObject(LetterEntries, SpellsKey);
  }

  /** The 26 letter words are pairwise distinct: no two letters read alike. */
  lemma LetterWordsDistinct()
    ensures forall k1, k2 :: k1 in Letters && k2 in Letters && k1 != k2 ==> Letters[k1] != Letters[k2]
  {
    LettersSpellTheirKey();
    forall k1, k2 | k1 in Letters && k2 in Letters && Letters[k1] == Letters[k2]
      ensures k1 == k2
    {
      assert SpellsKey(k1, Letters[k1]) && SpellsKey(k2, Letters[k2]);
      assert k1 == [k1[0]] && k2 == [k2[0]];
    }
  }

  /** The keys of `numbers`, in order, are the ten digits, then "00" and "000". */
  lemma NumberKeysInOrder()
    ensures |NumberEntries| == 12
    ensures forall i :: 0 <= i < 10 ==> NumberEntries[i].0 == [(('0' as int) + i) as char]
    ensures NumberEntries[10].0 == "00" && NumberEntries[11].0 == "000"
  {
  }

  /** `numbers` has exactly the keys '0' to '9', '00' and '000'. */
  lemma {:induction false} NumberKeys(k: string)
    ensures k in Numbers <==> IsNumberKey(k)
  {
    NumberKeysInOrder();
    ObjectKeys(NumberEntries, k);
    if IsDigit(k) {
      var i := (k[0] as int) - ('0' as int);
      assert NumberEntries[i].0 == k;
    } else if k == "00" {
      assert NumberEntries[10].0 == k;
    } else if k == "000" {
      assert NumberEntries[11].0 == k;
    }
    if k in Numbers {
      var i :| 0 <= i < |NumberEntries| && NumberEntries[i].0 == k;
    }
  }

  /** The extra spellings cover the same keys, and each starts with the plain word. */
  lemma ExtraSpellingExtendsNumbers()
    ensures NumbersExtraSpelling.Keys == Numbers.Keys
    ensures forall k :: k in Numbers ==> Numbers[k] <= NumbersExtraSpelling[k]
  {
    var prefix := (a: string, b: string) => a <= b;
    assert Pointwise(NumberEntries, NumberExtraSpellingEntries, prefix);
    PointwiseObjects(NumberEntries, NumberExtraSpellingEntries, prefix);
  }

  /** `symbols` has exactly the keys '-', '.', ',' and '_'. */
  lemma {:induction false} SymbolKeys(k: string)
    ensures k in Symbols <==> IsSymbolKey(k)
  {
    ObjectKeys(SymbolEntries, k);
    assert SymbolEntries[0].0 == "-" && SymbolEntries[1].0 == "." && SymbolEntries[2].0 == ","
      && SymbolEntries[3].0 == "_";
    if IsSymbolKey(k) {
      assert exists i :: 0 <= i < |SymbolEntries| && SymbolEntries[i].0 == k;
    }
  }

  /** Every symbol word is dashed. */
  lemma SymbolsAreDashed()
    ensures forall k :: k in Symbols ==> Dashed(Symbols[k])
  {
    var dashed := (k: string, w: string) => Dashed(w);
    assert EveryEntry(SymbolEntries, dashed);
    EveryEntryOfObject(SymbolEntries, dashed);
  }

  /** The three tables and the break key share no key. */
  lemma PartsDisjoint()
    ensures Letters.Keys !! Numbers.Keys && Letters.Keys !! Symbols.Keys && Numbers.Keys !! Symbols.Keys
    ensures " " !in Letters && " " !in Numbers && " " !in Symbols
  {
    forall k | k in Letters ensures k !in Numbers && k !in Symbols {
      LetterKeys(k);
      NumberKeys(k);
      SymbolKeys(k);
    }
    forall k | k in Numbers ensures k !in Symbols {
      NumberKeys(k);
      SymbolKeys(k);
    }
    LetterKeys(" ");
    NumberKeys(" ");
    SymbolKeys(" ");
  }

  /** The merged table: the four parts are disjoint, so no spread overrides anything. */
  lemma CharsMapIsDisjointUnion()
    ensures Chars.Keys == Letters.Keys + Numbers.Keys + Symbols.Keys + {" "}
    ensures forall k :: k in Letters ==> Chars[k] == Letters[k]
    ensures forall k :: k in Numbers ==> Chars[k] == Numbers[k]
    ensures forall k :: k in Symbols ==> Chars[k] == Symbols[k]
    ensures Chars[" "] == "- break -" && Dashed(Chars[" "])
  {
    PartsDisjoint();
  }

  /** The characters the merged table spells: upper-case letters, digits and their groups, the symbols and the space. */
  lemma {:induction false} CharsKeys(k: string)
    ensures k in Chars <==> IsUpperCaseLetter(k) || IsNumberKey(k) || IsSymbolKey(k) || k == " "
  {
    CharsMapIsDisjointUnion();
    LetterKeys(k);
    NumberKeys(k);
    SymbolKeys(k);
  }
}
