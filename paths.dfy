/**
 * The translation dictionary and the dotted-path lookup the translate
 * function performs on it (the part of `getPathInfo` it relies on).
 */
module Paths {
  import opened Wrappers

  /** A dictionary entry: a label, or a nested dictionary. */
  datatype Entry = Leaf(text: string) | Node(children: map<string, Entry>)

  /** A translation dictionary for one locale. */
  type Dict = map<string, Entry>

  /**
   * What a lookup reports: whether `name` is a key of `parent`, the entry
   * found there, the dictionary that directly holds the last segment (None
   * when the walk stopped before reaching it) and the last segment itself.
   */
  datatype PathInfo = PathInfo(found: bool, value: Option<Entry>, parent: Option<Dict>, name: string)

  /** Put the parts back together with `sep` between them. */
  function Join(parts: seq<string>, sep: char): string
    requires |parts| >= 1
    decreases |parts|
  {
    if |parts| == 1 then parts[0] else parts[0] + [sep] + Join(parts[1..], sep)
  }

  /** `s.split(sep)`: the maximal runs between separators, empty runs included. */
  function Split(s: string, sep: char): (parts: seq<string>)
    ensures |parts| >= 1
    ensures forall i :: 0 <= i < |parts| ==> sep !in parts[i]
    decreases |s|
  {
    if |s| == 0 then [""]
    else
      var rest := Split(s[1..], sep);
      if s[0] == sep then [""] + rest
      else [[s[0]] + rest[0]] + rest[1..]
  }

  /** Splitting and joining again gives back the key. */
  lemma {:induction false} SplitJoin(s: string, sep: char)
    ensures Join(Split(s, sep), sep) == s
    decreases |s|
  {
    if |s| > 0 {
      var rest := Split(s[1..], sep);
      SplitJoin(s[1..], sep);
      if s[0] == sep {
        assert ([""] + rest)[1..] == rest;
      } else if |rest| > 1 {
        var parts := [[s[0]] + rest[0]] + rest[1..];
        assert parts[1..] == rest[1..];
        assert Join(rest, sep) == rest[0] + [sep] + Join(rest[1..], sep);
      }
    }
  }

  /** A part with no separator in it, followed by the rest, splits as that part first. */
  lemma {:induction false} SplitCons(a: string, rest: string, sep: char)
    requires sep !in a
    ensures Split(a + [sep] + rest, sep) == [a] + Split(rest, sep)
    decreases |a|
  {
    if |a| == 0 {
      assert a + [sep] + rest == [sep] + rest;
      assert ([sep] + rest)[1..] == rest;
    } else {
      var s := a + [sep] + rest;
      assert s[1..] == a[1..] + [sep] + rest;
      SplitCons(a[1..], rest, sep);
      assert [a[0]] + a[1..] == a;
    }
  }

  /** Joining separator-free parts and splitting again gives back the parts. */
  lemma {:induction false} JoinSplit(parts: seq<string>, sep: char)
    requires |parts| >= 1
    requires forall i :: 0 <= i < |parts| ==> sep !in parts[i]
    ensures Split(Join(parts, sep), sep) == parts
    decreases |parts|
  {
    if |parts| == 1 {
      NoSeparatorSplit(parts[0], sep);
    } else {
      JoinSplit(parts[1..], sep);
      SplitCons(parts[0], Join(parts[1..], sep), sep);
      assert [parts[0]] + parts[1..] == parts;
    }
  }

  /** A string without a separator splits into itself alone. */
  lemma {:induction false} NoSeparatorSplit(s: string, sep: char)
    requires sep !in s
    ensures Split(s, sep) == [s]
    decreases |s|
  {
    if |s| > 0 {
      assert sep !in s[1..] by {
        forall i | 0 <= i < |s[1..]| ensures s[1..][i] != sep {
          assert s[1..][i] == s[i + 1];
        }
      }
      NoSeparatorSplit(s[1..], sep);
      assert [s[0]] + s[1..] == s;
    }
  }

  /** The dictionary that holds the last segment, walking one segment at a time. */
  function ParentOf(dict: Dict, segments: seq<string>): Option<Dict>
    requires |segments| >= 1
    decreases |segments|
  {
    if |segments| == 1 then Some(dict)
    else if segments[0] in dict && dict[segments[0]].Node? then ParentOf(dict[segments[0]].children, segments[1..])
    else None
  }

  /**
   * The lookup of a key already split into segments: walk to the dictionary
   * holding the last segment and report whether that segment is a key there.
   * One segment is looked up in `dict` itself; a longer path stops with
   * nothing found and no parent when its first segment is missing or names
   * a label (LookupDescend gives the remaining case).
   */
  function Lookup(dict: Dict, segments: seq<string>): (p: PathInfo)
    requires |segments| >= 1
    ensures |segments| == 1 ==>
              p == PathInfo(segments[0] in dict, if segments[0] in dict then Some(dict[segments[0]]) else None,
                            Some(dict), segments[0])
    ensures |segments| > 1 && !(segments[0] in dict && dict[segments[0]].Node?) ==>
              p == PathInfo(false, None, None, segments[|segments| - 1])
  {
    var parent := ParentOf(dict, segments);
    var name := segments[|segments| - 1];
    var found := parent.Some? && name in parent.value;
    PathInfo(found, if found then Some(parent.value[name]) else None, parent, name)
  }

  /** `getPathInfo(dict, key)`: split the key on dots and look the segments up. */
  function ResolvePath(dict: Dict, key: string): (p: PathInfo)
    ensures p.found <==> p.parent.Some? && p.name in p.parent.value
    ensures p.found ==> p.value == Some(p.parent.value[p.name])
    ensures !p.found ==> p.value == None
  {
    Lookup(dict, Split(key, '.'))
  }

  /**
   * A key with no dot is looked up in the dictionary itself, exactly and
   * case-sensitively: it is found precisely when it is one of its keys.
   */
  lemma ResolveSimpleKey(dict: Dict, key: string)
    requires '.' !in key
    ensures ResolvePath(dict, key) ==
              PathInfo(key in dict, if key in dict then Some(dict[key]) else None, Some(dict), key)
  {
    NoSeparatorSplit(key, '.');
  }

  /**
   * A dotted key descends one level: `a.rest` resolves in `dict` as `rest`
   * resolves in the dictionary under `a`, and finds nothing (with no parent)
   * when `a` is missing or names a label.
   */
  lemma ResolveDescend(dict: Dict, a: string, rest: string)
    requires '.' !in a
    ensures var p := ResolvePath(dict, a + "." + rest);
            if a in dict && dict[a].Node? then p == ResolvePath(dict[a].children, rest)
            else p == PathInfo(false, None, None, Split(rest, '.')[|Split(rest, '.')| - 1])
  {
    var tail := Split(rest, '.');
    ResolveAsLookup(dict, a, rest);
    if a in dict && dict[a].Node? {
      LookupDescend(dict, a, tail);
    } else {
      LookupStops(dict, a, tail);
    }
  }

  /** The dotted key `a.rest` is looked up as `a` followed by the segments of `rest`. */
  lemma ResolveAsLookup(dict: Dict, a: string, rest: string)
    requires '.' !in a
    ensures ResolvePath(dict, a + "." + rest) == Lookup(dict, [a] + Split(rest, '.'))
  {
    SplitCons(a, rest, '.');
  }

  /** Looking up `[a] + tail` where `a` is missing or names a label finds nothing. */
  lemma LookupStops(dict: Dict, a: string, tail: seq<string>)
    requires |tail| >= 1 && !(a in dict && dict[a].Node?)
    ensures Lookup(dict, [a] + tail) == PathInfo(false, None, None, tail[|tail| - 1])
  {
    var segments := [a] + tail;
    assert segments[0] == a && segments[|segments| - 1] == tail[|tail| - 1];
  }

  /** Looking up `[a] + tail` where `a` names a nested dictionary looks `tail` up in it. */
  lemma LookupDescend(dict: Dict, a: string, tail: seq<string>)
    requires |tail| >= 1 && a in dict && dict[a].Node?
    ensures Lookup(dict, [a] + tail) == Lookup(dict[a].children, tail)
  {
    var segments := [a] + tail;
    assert segments[0] == a && segments[1..] == tail;
  }

  /** The entry reached by walking `segments` one nested dictionary at a time. */
  function EntryAt(dict: Dict, segments: seq<string>): Option<Entry>
    requires |segments| >= 1
    decreases |segments|
  {
    if segments[0] !in dict then None
    else if |segments| == 1 then Some(dict[segments[0]])
    else if dict[segments[0]].Node? then EntryAt(dict[segments[0]].children, segments[1..])
    else None
  }

  /** The dotted key of a nested path finds the entry any dictionary holds at the end of it. */
  lemma {:induction false} ResolveNested(dict: Dict, segments: seq<string>, e: Entry)
    requires |segments| >= 1
    requires forall i :: 0 <= i < |segments| ==> '.' !in segments[i]
    requires EntryAt(dict, segments) == Some(e)
    ensures var p := ResolvePath(dict, Join(segments, '.'));
            p.found && p.value == Some(e) && p.name == segments[|segments| - 1]
    decreases |segments|
  {
    if |segments| == 1 {
      assert Join(segments, '.') == segments[0];
      ResolveSimpleKey(dict, segments[0]);
    } else {
      var rest := Join(segments[1..], '.');
      assert Join(segments, '.') == segments[0] + "." + rest;
      ResolveDescend(dict, segments[0], rest);
      ResolveNested(dict[segments[0]].children, segments[1..], e);
      assert segments[1..][|segments[1..]| - 1] == segments[|segments| - 1];
    }
  }
}
