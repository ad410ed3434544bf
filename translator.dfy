/**
 * The translate function that `translateFunctionFactory(dictionary)` returns:
 * path lookup, plural-variant choice, then placeholder substitution when a
 * data payload is given.
 */
module Translator {
  import opened Wrappers
  import opened DataValues
  import opened Paths
  import opened Interpolation

  /** The key of the plural sibling of `name`. */
  function PluralKey(name: string): string
  {
    name + "_plural"
  }

  /** Different names have different plural siblings, and no name is its own sibling. */
  lemma PluralKeyInjective(a: string, b: string)
    ensures PluralKey(a) == PluralKey(b) ==> a == b
    ensures PluralKey(a) != a
  {
    assert PluralKey(a)[..|a|] == a;
    assert PluralKey(b)[..|b|] == b;
    assert |PluralKey(a)| == |a| + 7;
  }

  /**
   * The entry the translate function works on: the key itself when the
   * lookup found nothing; the `<name>_plural` sibling in the same parent when
   * data is given, its `n` cues the plural and that sibling exists; the
   * entry found otherwise.
   */
  function SelectVariant(path: PathInfo, key: string, data: Option<Data>): (e: Entry)
    requires path.found ==> path.parent.Some? && path.value.Some?
    ensures !path.found ==> e == Leaf(key)
  {
    if !path.found then Leaf(key)
    else if data.Some? && PluralCue(Get(data.value, "n")) && PluralKey(path.name) in path.parent.value then
      path.parent.value[PluralKey(path.name)]
    else path.value.value
  }

  /** `${entry}`: a label is its text, a nested dictionary reads as an object. */
  function EntryText(e: Entry): string
  {
    match e
    case Leaf(t) => t
    case Node(_) => "[object Object]"
  }

  /**
   * `t(key, data)` on the dictionary `dict`. Without data the selected entry
   * is returned as it is (a nested dictionary included); with data it is
   * turned into text and its placeholders are replaced.
   */
  function Translate(dict: Dict, key: string, data: Option<Data>): (r: Entry)
    ensures data.Some? ==> r.Leaf?
  {
    var chosen := SelectVariant(ResolvePath(dict, key), key, data);
    if data.None? then chosen else Leaf(Interpolate(EntryText(chosen), data.value))
  }

  /**
   * A key the dictionary does not hold is its own template: returned
   * unchanged without data, interpolated with data.
   */
  lemma TranslateUnknownKey(dict: Dict, key: string, data: Option<Data>)
    requires !ResolvePath(dict, key).found
    ensures data.None? ==> Translate(dict, key, data) == Leaf(key)
    ensures data.Some? ==> Translate(dict, key, data) == Leaf(Interpolate(key, data.value))
  {
  }

  /**
   * A key without dots is looked up exactly: when it is not a key of the
   * dictionary (another capitalisation does not count) it comes back as is.
   */
  lemma TranslateMissingSimpleKey(dict: Dict, key: string)
    requires '.' !in key && key !in dict
    ensures Translate(dict, key, None) == Leaf(key)
  {
    ResolveSimpleKey(dict, key);
  }

  /**
   * Without data the entry found is returned verbatim, braces and all: the
   * plural sibling is never consulted and no placeholder is replaced.
   */
  lemma TranslateWithoutData(dict: Dict, key: string)
    requires ResolvePath(dict, key).found
    ensures Translate(dict, key, None) == ResolvePath(dict, key).value.value
  {
  }

  /** For a key without dots that the dictionary holds, no data gives its entry. */
  lemma TranslateSimpleKey(dict: Dict, key: string)
    requires '.' !in key && key in dict
    ensures Translate(dict, key, None) == dict[key]
  {
    ResolveSimpleKey(dict, key);
  }

  /**
   * The plural rule for a key without dots: with data, the `<key>_plural`
   * entry is used exactly when `n` cues the plural and that entry exists;
   * otherwise the key's own entry is used.
   */
  lemma TranslateSimpleVariant(dict: Dict, key: string, data: Data)
    requires '.' !in key && key in dict
    ensures var plural := PluralKey(key);
            Translate(dict, key, Some(data)) ==
              if PluralCue(Get(data, "n")) && plural in dict then Leaf(Interpolate(EntryText(dict[plural]), data))
              else Leaf(Interpolate(EntryText(dict[key]), data))
  {
    ResolveSimpleKey(dict, key);
  }

  /**
   * The plural rule for any key that resolves: the sibling is looked for
   * in the dictionary that holds the key's last segment.
   */
  lemma TranslateVariant(dict: Dict, key: string, data: Data)
    requires ResolvePath(dict, key).found
    ensures var p := ResolvePath(dict, key);
            var plural := PluralKey(p.name);
            var parent := p.parent.value;
            Translate(dict, key, Some(data)) ==
              if PluralCue(Get(data, "n")) && plural in parent then Leaf(Interpolate(EntryText(parent[plural]), data))
              else Leaf(Interpolate(EntryText(parent[p.name]), data))
  {
  }

  /** A count of zero, or any count other than one, selects an existing plural sibling. */
  lemma TranslateZeroIsPlural(dict: Dict, key: string, data: Data, i: int)
    requires '.' !in key && key in dict && PluralKey(key) in dict
    requires Get(data, "n") == Num(i) && i != 1
    ensures Translate(dict, key, Some(data)) == Leaf(Interpolate(EntryText(dict[PluralKey(key)]), data))
  {
    TranslateSimpleVariant(dict, key, data);
  }

  /** A count of one, or no count at all, keeps the key's own entry. */
  lemma TranslateSingular(dict: Dict, key: string, data: Data)
    requires '.' !in key && key in dict
    requires Get(data, "n") == Num(1) || "n" !in data
    ensures Translate(dict, key, Some(data)) == Leaf(Interpolate(EntryText(dict[key]), data))
  {
    TranslateSimpleVariant(dict, key, data);
  }

  /**
   * A dotted key whose first segment names a nested dictionary translates
   * as the rest of the key does in that dictionary, when the rest resolves.
   */
  lemma TranslateDescend(dict: Dict, a: string, rest: string, data: Option<Data>)
    requires '.' !in a && a in dict && dict[a].Node?
    requires ResolvePath(dict[a].children, rest).found
    ensures Translate(dict, a + "." + rest, data) == Translate(dict[a].children, rest, data)
  {
    ResolveDescend(dict, a, rest);
  }

  /** A label any dictionary stores under a nested path is what its dotted key yields without data. */
  lemma TranslateNested(dict: Dict, segments: seq<string>, text: string)
    requires |segments| >= 1
    requires forall i :: 0 <= i < |segments| ==> '.' !in segments[i]
    requires EntryAt(dict, segments) == Some(Leaf(text))
    ensures Translate(dict, Join(segments, '.'), None) == Leaf(text)
  {
    ResolveNested(dict, segments, Leaf(text));
  }

  /** With data, a label that has no token comes back unchanged, whatever the data holds. */
  lemma TranslatePlainLabel(dict: Dict, key: string, data: Data)
    requires '.' !in key && key in dict && dict[key].Leaf? && '{' !in dict[key].text
    requires !PluralCue(Get(data, "n")) || PluralKey(key) !in dict
    ensures Translate(dict, key, Some(data)) == dict[key]
  {
    TranslateSimpleVariant(dict, key, data);
    NoBraceNoTokens(dict[key].text);
  }

  /** The text of a nested dictionary holds no opening brace. */
  lemma ObjectTextHasNoBrace()
    ensures '{' !in EntryText(Node(map[]))
  {
  }

  /**
   * With data, a dot-free key that names a nested dictionary gives the text
   * of an object, when the plural sibling is not selected.
   */
  lemma TranslateDictionaryWithData(dict: Dict, key: string, data: Data)
    requires '.' !in key && key in dict && dict[key].Node?
    requires !PluralCue(Get(data, "n")) || PluralKey(key) !in dict
    ensures Translate(dict, key, Some(data)) == Leaf("[object Object]")
  {
    TranslateSimpleVariant(dict, key, data);
    ObjectTextHasNoBrace();
    NoBraceNoTokens(EntryText(dict[key]));
  }

  /**
   * A key without dots whose label is a template of brace-free text and
   * placeholders, when the plural sibling is not selected, translates to
   * that template rendered piece by piece.
   */
  lemma TranslateSimpleTemplate(dict: Dict, key: string, data: Data, pieces: seq<Piece>)
    requires '.' !in key && key in dict && dict[key] == Leaf(Source(pieces)) && WellFormed(pieces)
    requires !PluralCue(Get(data, "n")) || PluralKey(key) !in dict
    ensures Translate(dict, key, Some(data)) == Leaf(Render(pieces, data))
  {
    TranslateSimpleVariant(dict, key, data);
    InterpolatePieces(pieces, data);
  }
}
