/**
 * The labels and expected results of the repository's test suite, written
 * out as the concatenation of their parts: text, and each placeholder in
 * its braces. Each fact about a literal is a lemma of its own, so that each
 * stays small for the solver.
 */
module TestText {
  /** The parts written one after the other. */
  function Concat(parts: seq<string>): string
    decreases |parts|
  {
    if |parts| == 0 then "" else parts[0] + Concat(parts[1..])
  }

  /** Three parts, concatenated. */
  lemma ConcatOf3(a: string, b: string, c: string)
    ensures Concat([a, b, c]) == a + b + c
  {
    assert [a, b, c][1..] == [b, c] && [b, c][1..] == [c] && [c][1..] == [];
    assert Concat([c]) == c;
    assert a + (b + c) == a + b + c;
  }

  /** Four parts, concatenated. */
  lemma ConcatOf4(a: string, b: string, c: string, d: string)
    ensures Concat([a, b, c, d]) == a + b + c + d
  {
    assert [a, b, c, d][1..] == [b, c, d];
    ConcatOf3(b, c, d);
    assert a + (b + c + d) == a + b + c + d;
  }

  /** Concatenating two lists of parts concatenates their texts. */
  lemma {:induction false} ConcatAppend(xs: seq<string>, ys: seq<string>)
    ensures Concat(xs + ys) == Concat(xs) + Concat(ys)
    decreases |xs|
  {
    if |xs| == 0 {
      assert xs + ys == ys;
    } else {
      assert (xs + ys)[1..] == xs[1..] + ys;
      ConcatAppend(xs[1..], ys);
      assert xs[0] + (Concat(xs[1..]) + Concat(ys)) == xs[0] + Concat(xs[1..]) + Concat(ys);
    }
  }

  /** Seven parts, concatenated. */
  lemma ConcatOf7(a: string, b: string, c: string, d: string, e: string, f: string, g: string)
    ensures Concat([a, b, c, d, e, f, g]) == a + b + c + d + e + f + g
  {
    assert [a, b, c, d, e, f, g] == [a, b, c] + [d, e, f, g];
    ConcatAppend([a, b, c], [d, e, f, g]);
    ConcatOf3(a, b, c);
    ConcatOf4(d, e, f, g);
    assert (a + b + c) + (d + e + f + g) == a + b + c + d + e + f + g;
  }

  /** The label "there's a {item} with replacement", part by part. */
  lemma BetaSpelling()
    ensures "there's a " + "{item}" + " with replacement" == "there's a {item} with replacement"
  {
  }

  /** The expected result "there's a sandwich with replacement", part by part. */
  lemma BetaOutput()
    ensures "there's a " + "sandwich" + " with replacement" == "there's a sandwich with replacement"
  {
  }

  /** The label "there's a letter for {receiver}, from {sender}", part by part. */
  lemma GammaSpelling()
    ensures "there's a letter for " + "{receiver}" + ", from " + "{sender}" == "there's a letter for {receiver}, from {sender}"
  {
  }

  /** The expected result "there's a letter for Bob, from Alice", part by part. */
  lemma GammaOutput()
    ensures "there's a letter for " + "Bob" + ", from " + "Alice" == "there's a letter for Bob, from Alice"
  {
  }

  /** The label "you could stop and five or six stores, or, just {n}", part by part. */
  lemma DeltaSpelling()
    ensures "you could stop and five " + "or six stores, or, just " + "{n}" == "you could stop and five or six stores, or, just {n}"
  {
  }

  /** The expected result "you could stop and five or six stores, or, just 1", part by part. */
  lemma DeltaOutput()
    ensures "you could stop and five " + "or six stores, or, just " + "1" == "you could stop and five or six stores, or, just 1"
  {
  }

  /** The label "Gee Bill! How come your mom lets you eat {n} weiners?", part by part. */
  lemma DeltaPluralSpelling()
    ensures "Gee Bill! How come " + "your mom lets you eat " + "{n}" + " weiners?" == "Gee Bill! How come your mom lets you eat {n} weiners?"
  {
  }

  /** The expected result "Gee Bill! How come your mom lets you eat 2 weiners?", part by part. */
  lemma DeltaPluralOutput()
    ensures "Gee Bill! How come " + "your mom lets you eat " + "2" + " weiners?" == "Gee Bill! How come your mom lets you eat 2 weiners?"
  {
  }

  /** The label "a variable {foo} used for examples", part by part. */
  lemma SentenceSpelling()
    ensures "a variable " + "{foo}" + " used for examples" == "a variable {foo} used for examples"
  {
  }

  /** The expected result "a variable bar used for examples", part by part. */
  lemma SentenceOutput()
    ensures "a variable " + "bar" + " used for examples" == "a variable bar used for examples"
  {
  }

  /** The label "Datawheel's biggest projects are {first}, {second}, and {third}.", part by part. */
  lemma ProjectsSpelling()
    ensures "Datawheel's biggest projects are " + "{first}" + ", " + "{second}" + ", and " + "{third}" + "." == "Datawheel's biggest projects are {first}, {second}, and {third}."
  {
  }

  /** The expected result "Datawheel's biggest projects are the OEC, DataUSA, and DataMexico.", part by part. */
  lemma ProjectsOutput()
    ensures "Datawheel's biggest projects are " + "the OEC" + ", " + "DataUSA" + ", and " + "DataMexico" + "." == "Datawheel's biggest projects are the OEC, DataUSA, and DataMexico."
  {
  }
}

/**
 * The behaviours the repository's test suite checks, stated on the suite's
 * own dictionary `L10n()`, plus a few edge cases of the replace. Each
 * template label is described by pieces of text and placeholders; a text
 * longer than a few words is cut into two pieces, which spell the same
 * label and keep each literal fact small.
 */
module TestExamples {
  import opened Wrappers
  import opened DataValues
  import opened Paths
  import opened Interpolation
  import opened Translator
  import opened TestText

  /** Pieces spelled part by part spell the concatenation of the parts. */
  lemma {:induction false} SourceIsConcat(pieces: seq<Piece>, parts: seq<string>)
    requires |pieces| == |parts|
    requires forall i :: 0 <= i < |pieces| ==> SpellPiece(pieces[i]) == parts[i]
    ensures Source(pieces) == Concat(parts)
    decreases |pieces|
  {
    if |pieces| > 0 {
      SourceIsConcat(pieces[1..], parts[1..]);
    }
  }

  /** Pieces rendered part by part render to the concatenation of the parts. */
  lemma {:induction false} RenderIsConcat(pieces: seq<Piece>, data: Data, parts: seq<string>)
    requires |pieces| == |parts|
    requires forall i :: 0 <= i < |pieces| ==> RenderPiece(pieces[i], data) == parts[i]
    ensures Render(pieces, data) == Concat(parts)
    decreases |pieces|
  {
    if |pieces| > 0 {
      RenderIsConcat(pieces[1..], data, parts[1..]);
    }
  }

  /** The dictionary the tests translate with. */
  function L10n(): Dict
  {
    map[
      "foo" := Leaf("bar"),
      "hotel" := Leaf("trivago"),
      "alpha" := Leaf("there's a simple item"),
      "beta" := Leaf("there's a {item} with replacement"),
      "gamma" := Leaf("there's a letter for {receiver}, from {sender}"),
      "delta" := Leaf("you could stop and five or six stores, or, just {n}"),
      "delta_plural" := Leaf("Gee Bill! How come your mom lets you eat {n} weiners?"),
      "nested" := Node(map[
        "values" := Leaf("am I right?"),
        "replacements" := Leaf("Datawheel's biggest projects are {first}, {second}, and {third}.")
      ])
    ]
  }

  /** The plain entries of the test dictionary, and two keys it does not hold. */
  lemma PlainEntries()
    ensures var d := L10n();
            && "foo" in d && d["foo"] == Leaf("bar")
            && "hotel" in d && d["hotel"] == Leaf("trivago")
            && "alpha" in d && d["alpha"] == Leaf("there's a simple item")
            && "key" !in d && "Foo" !in d
  {
  }

  /** The template entries of the test dictionary. */
  lemma TemplateEntries()
    ensures var d := L10n();
            && "beta" in d && d["beta"] == Leaf("there's a {item} with replacement")
            && "gamma" in d && d["gamma"] == Leaf("there's a letter for {receiver}, from {sender}")
            && "delta" in d && d["delta"] == Leaf("you could stop and five or six stores, or, just {n}")
            && "delta_plural" in d && d["delta_plural"] == Leaf("Gee Bill! How come your mom lets you eat {n} weiners?")
  {
  }

  /** The nested entries of the test dictionary. */
  lemma NestedEntries()
    ensures var d := L10n();
            && "nested" in d && d["nested"].Node?
            && "values" in d["nested"].children && d["nested"].children["values"] == Leaf("am I right?")
            && "replacements" in d["nested"].children
            && d["nested"].children["replacements"] == Leaf("Datawheel's biggest projects are {first}, {second}, and {third}.")
  {
  }

  /** The keys the tests look up directly hold no dot. */
  lemma KeysWithoutDots()
    ensures '.' !in "foo" && '.' !in "hotel" && '.' !in "alpha" && '.' !in "key" && '.' !in "Foo"
    ensures '.' !in "beta" && '.' !in "gamma" && '.' !in "delta" && '.' !in "replacements"
    ensures PluralKey("delta") == "delta_plural"
  {
  }

  function BetaPieces(): seq<Piece>
  {
    [Text("there's a "), Placeholder("item"), Text(" with replacement")]
  }

  /** The texts hold no brace and the placeholders are names the regex accepts. */
  lemma BetaPieceFacts()
    ensures '{' !in "there's a " && '{' !in " with replacement"
    ensures IsTokenBody("item")
    ensures "{" + "item" + "}" == "{item}"
  {
  }

  /** The pieces are well formed. */
  lemma BetaWellFormed()
    ensures WellFormed(BetaPieces())
  {
    BetaPieceFacts();
  }

  /** The pieces spell the label. */
  lemma BetaTemplate()
    ensures WellFormed(BetaPieces()) && Source(BetaPieces()) == "there's a {item} with replacement"
  {
    BetaWellFormed();
    BetaPieceFacts();
    SourceIsConcat(BetaPieces(), ["there's a ", "{item}", " with replacement"]);
    ConcatOf3("there's a ", "{item}", " with replacement");
    BetaSpelling();
  }

  /** The pieces rendered with the test's payload. */
  lemma BetaRendered(data: Data)
    requires data == map["item" := Str("sandwich")]
    ensures Render(BetaPieces(), data) == "there's a sandwich with replacement"
  {
    RenderIsConcat(BetaPieces(), data, ["there's a ", "sandwich", " with replacement"]);
    ConcatOf3("there's a ", "sandwich", " with replacement");
    BetaOutput();
  }

  function GammaPieces(): seq<Piece>
  {
    [Text("there's a letter for "), Placeholder("receiver"), Text(", from "), Placeholder("sender")]
  }

  /** The texts hold no brace and the placeholders are names the regex accepts. */
  lemma GammaPieceFacts()
    ensures '{' !in "there's a letter for " && '{' !in ", from "
    ensures IsTokenBody("receiver") && IsTokenBody("sender")
    ensures "{" + "receiver" + "}" == "{receiver}" && "{" + "sender" + "}" == "{sender}"
  {
  }

  /** The pieces are well formed. */
  lemma GammaWellFormed()
    ensures WellFormed(GammaPieces())
  {
    GammaPieceFacts();
  }

  /** The pieces spell the label. */
  lemma GammaTemplate()
    ensures WellFormed(GammaPieces()) && Source(GammaPieces()) == "there's a letter for {receiver}, from {sender}"
  {
    GammaWellFormed();
    GammaPieceFacts();
    SourceIsConcat(GammaPieces(), ["there's a letter for ", "{receiver}", ", from ", "{sender}"]);
    ConcatOf4("there's a letter for ", "{receiver}", ", from ", "{sender}");
    GammaSpelling();
  }

  /** The pieces rendered with the test's payload. */
  lemma GammaRendered(data: Data)
    requires data == map["sender" := Str("Alice"), "receiver" := Str("Bob")]
    ensures Render(GammaPieces(), data) == "there's a letter for Bob, from Alice"
  {
    RenderIsConcat(GammaPieces(), data, ["there's a letter for ", "Bob", ", from ", "Alice"]);
    ConcatOf4("there's a letter for ", "Bob", ", from ", "Alice");
    GammaOutput();
  }

  function DeltaPieces(): seq<Piece>
  {
    [Text("you could stop and five "), Text("or six stores, or, just "), Placeholder("n")]
  }

  /** The texts hold no brace and the placeholders are names the regex accepts. */
  lemma DeltaPieceFacts()
    ensures '{' !in "you could stop and five " && '{' !in "or six stores, or, just "
    ensures IsTokenBody("n")
    ensures "{" + "n" + "}" == "{n}"
  {
  }

  /** The pieces are well formed. */
  lemma DeltaWellFormed()
    ensures WellFormed(DeltaPieces())
  {
    DeltaPieceFacts();
  }

  /** The pieces spell the label. */
  lemma DeltaTemplate()
    ensures WellFormed(DeltaPieces()) && Source(DeltaPieces()) == "you could stop and five or six stores, or, just {n}"
  {
    DeltaWellFormed();
    DeltaPieceFacts();
    SourceIsConcat(DeltaPieces(), ["you could stop and five ", "or six stores, or, just ", "{n}"]);
    ConcatOf3("you could stop and five ", "or six stores, or, just ", "{n}");
    DeltaSpelling();
  }

  /** The pieces rendered with the test's payload. */
  lemma DeltaRendered(data: Data)
    requires data == map["n" := Num(1)]
    ensures Render(DeltaPieces(), data) == "you could stop and five or six stores, or, just 1"
  {
    RenderIsConcat(DeltaPieces(), data, ["you could stop and five ", "or six stores, or, just ", "1"]);
    ConcatOf3("you could stop and five ", "or six stores, or, just ", "1");
    DeltaOutput();
  }

  function DeltaPluralPieces(): seq<Piece>
  {
    [Text("Gee Bill! How come "), Text("your mom lets you eat "), Placeholder("n"), Text(" weiners?")]
  }

  /** The texts hold no brace and the placeholders are names the regex accepts. */
  lemma DeltaPluralPieceFacts()
    ensures '{' !in "Gee Bill! How come " && '{' !in "your mom lets you eat " && '{' !in " weiners?"
    ensures IsTokenBody("n")
    ensures "{" + "n" + "}" == "{n}"
  {
  }

  /** The pieces are well formed. */
  lemma DeltaPluralWellFormed()
    ensures WellFormed(DeltaPluralPieces())
  {
    DeltaPluralPieceFacts();
  }

  /** The pieces spell the label. */
  lemma DeltaPluralTemplate()
    ensures WellFormed(DeltaPluralPieces()) && Source(DeltaPluralPieces()) == "Gee Bill! How come your mom lets you eat {n} weiners?"
  {
    DeltaPluralWellFormed();
    DeltaPluralPieceFacts();
    SourceIsConcat(DeltaPluralPieces(), ["Gee Bill! How come ", "your mom lets you eat ", "{n}", " weiners?"]);
    ConcatOf4("Gee Bill! How come ", "your mom lets you eat ", "{n}", " weiners?");
    DeltaPluralSpelling();
  }

  /** The pieces rendered with the test's payload. */
  lemma DeltaPluralRendered(data: Data)
    requires data == map["n" := Num(2)]
    ensures Render(DeltaPluralPieces(), data) == "Gee Bill! How come your mom lets you eat 2 weiners?"
  {
    RenderIsConcat(DeltaPluralPieces(), data, ["Gee Bill! How come ", "your mom lets you eat ", "2", " weiners?"]);
    ConcatOf4("Gee Bill! How come ", "your mom lets you eat ", "2", " weiners?");
    DeltaPluralOutput();
  }

  function SentencePieces(): seq<Piece>
  {
    [Text("a variable "), Placeholder("foo"), Text(" used for examples")]
  }

  /** The texts hold no brace and the placeholders are names the regex accepts. */
  lemma SentencePieceFacts()
    ensures '{' !in "a variable " && '{' !in " used for examples"
    ensures IsTokenBody("foo")
    ensures "{" + "foo" + "}" == "{foo}"
  {
  }

  /** The pieces are well formed. */
  lemma SentenceWellFormed()
    ensures WellFormed(SentencePieces())
  {
    SentencePieceFacts();
  }

  /** The pieces spell the label. */
  lemma SentenceTemplate()
    ensures WellFormed(SentencePieces()) && Source(SentencePieces()) == "a variable {foo} used for examples"
  {
    SentenceWellFormed();
    SentencePieceFacts();
    SourceIsConcat(SentencePieces(), ["a variable ", "{foo}", " used for examples"]);
    ConcatOf3("a variable ", "{foo}", " used for examples");
    SentenceSpelling();
  }

  /** The pieces rendered with the test's payload. */
  lemma SentenceRendered(data: Data)
    requires data == map["foo" := Str("bar")]
    ensures Render(SentencePieces(), data) == "a variable bar used for examples"
  {
    RenderIsConcat(SentencePieces(), data, ["a variable ", "bar", " used for examples"]);
    ConcatOf3("a variable ", "bar", " used for examples");
    SentenceOutput();
  }

  function ProjectsPieces(): seq<Piece>
  {
    [Text("Datawheel's biggest projects are "), Placeholder("first"), Text(", "), Placeholder("second"), Text(", and "), Placeholder("third"), Text(".")]
  }

  /** The texts hold no brace and the placeholders are names the regex accepts. */
  lemma ProjectsPieceFacts()
    ensures '{' !in "Datawheel's biggest projects are " && '{' !in ", " && '{' !in ", and " && '{' !in "."
    ensures IsTokenBody("first") && IsTokenBody("second") && IsTokenBody("third")
    ensures "{" + "first" + "}" == "{first}" && "{" + "second" + "}" == "{second}" && "{" + "third" + "}" == "{third}"
  {
  }

  /** The pieces are well formed. */
  lemma ProjectsWellFormed()
    ensures WellFormed(ProjectsPieces())
  {
    ProjectsPieceFacts();
  }

  /** The pieces spell the label. */
  lemma ProjectsTemplate()
    ensures WellFormed(ProjectsPieces()) && Source(ProjectsPieces()) == "Datawheel's biggest projects are {first}, {second}, and {third}."
  {
    ProjectsWellFormed();
    ProjectsPieceFacts();
    SourceIsConcat(ProjectsPieces(), ["Datawheel's biggest projects are ", "{first}", ", ", "{second}", ", and ", "{third}", "."]);
    ConcatOf7("Datawheel's biggest projects are ", "{first}", ", ", "{second}", ", and ", "{third}", ".");
    ProjectsSpelling();
  }

  /** The pieces rendered with the test's payload. */
  lemma ProjectsRendered(data: Data)
    requires data == map["first" := Str("the OEC"), "second" := Str("DataUSA"), "third" := Str("DataMexico")]
    ensures Render(ProjectsPieces(), data) == "Datawheel's biggest projects are the OEC, DataUSA, and DataMexico."
  {
    RenderIsConcat(ProjectsPieces(), data, ["Datawheel's biggest projects are ", "the OEC", ", ", "DataUSA", ", and ", "DataMexico", "."]);
    ConcatOf7("Datawheel's biggest projects are ", "the OEC", ", ", "DataUSA", ", and ", "DataMexico", ".");
    ProjectsOutput();
  }

  /**
   * A dot-free key whose label `template` the pieces spell, with a payload that
   * does not select the plural sibling, translates to what the pieces render.
   */
  lemma TemplateCase(dict: Dict, key: string, data: Data, pieces: seq<Piece>, template: string, output: string)
    requires '.' !in key && key in dict && dict[key] == Leaf(template)
    requires WellFormed(pieces) && Source(pieces) == template && Render(pieces, data) == output
    requires !PluralCue(Get(data, "n")) || PluralKey(key) !in dict
    ensures Translate(dict, key, Some(data)) == Leaf(output)
  {
    TranslateSimpleTemplate(dict, key, data, pieces);
  }

  /** index.test.js:21-25: a plain key returns its label. */
  lemma PlainTerm()
    ensures Translate(L10n(), "foo", None) == Leaf("bar")
    ensures Translate(L10n(), "hotel", None) == Leaf("trivago")
    ensures Translate(L10n(), "alpha", None) == Leaf("there's a simple item")
  {
    PlainEntries();
    KeysWithoutDots();
    TranslateSimpleKey(L10n(), "foo");
    TranslateSimpleKey(L10n(), "hotel");
    TranslateSimpleKey(L10n(), "alpha");
  }

  /** index.test.js:27-29: one placeholder is replaced by the payload entry of the same name. */
  lemma OneReplacement(data: Data)
    requires data == map["item" := Str("sandwich")]
    ensures Translate(L10n(), "beta", Some(data)) ==
            Leaf("there's a sandwich with replacement")
  {
    TemplateEntries();
    KeysWithoutDots();
    BetaTemplate();
    BetaRendered(data);
    TemplateCase(L10n(), "beta", data, BetaPieces(), "there's a {item} with replacement", "there's a sandwich with replacement");
  }

  /** index.test.js:31-33: several placeholders are each replaced, whatever order the payload lists them in. */
  lemma SeveralReplacements(data: Data)
    requires data == map["sender" := Str("Alice"), "receiver" := Str("Bob")]
    ensures Translate(L10n(), "gamma", Some(data)) ==
            Leaf("there's a letter for Bob, from Alice")
  {
    TemplateEntries();
    KeysWithoutDots();
    GammaTemplate();
    GammaRendered(data);
    TemplateCase(L10n(), "gamma", data, GammaPieces(), "there's a letter for {receiver}, from {sender}", "there's a letter for Bob, from Alice");
  }

  /** index.test.js:36: `n` of one keeps the singular label, and `{n}` prints the count. */
  lemma SingularReplacement(data: Data)
    requires data == map["n" := Num(1)]
    ensures Translate(L10n(), "delta", Some(data)) ==
            Leaf("you could stop and five or six stores, or, just 1")
  {
    TemplateEntries();
    KeysWithoutDots();
    DeltaTemplate();
    DeltaRendered(data);
    TemplateCase(L10n(), "delta", data, DeltaPieces(), "you could stop and five or six stores, or, just {n}", "you could stop and five or six stores, or, just 1");
  }

  /** index.test.js:37: `n` of two selects the plural sibling. */
  lemma PluralReplacement(data: Data)
    requires data == map["n" := Num(2)]
    ensures Translate(L10n(), "delta", Some(data)) ==
            Leaf("Gee Bill! How come your mom lets you eat 2 weiners?")
  {
    TemplateEntries();
    KeysWithoutDots();
    DeltaPluralTemplate();
    DeltaPluralRendered(data);
    TranslateZeroIsPlural(L10n(), "delta", data, 2);
    InterpolatePieces(DeltaPluralPieces(), data);
  }

  /** index.test.js:40-43: unknown keys come back as they are; lookup is case-sensitive. */
  lemma UnknownKeys()
    ensures Translate(L10n(), "key", None) == Leaf("key")
    ensures Translate(L10n(), "Foo", None) == Leaf("Foo")
  {
    PlainEntries();
    KeysWithoutDots();
    TranslateMissingSimpleKey(L10n(), "key");
    TranslateMissingSimpleKey(L10n(), "Foo");
  }

  /** The unknown key of index.test.js:46 holds no dot and is not a key of the test dictionary. */
  lemma SentenceKeyFacts()
    ensures '.' !in "a variable {foo} used for examples"
    ensures "a variable {foo} used for examples" !in L10n()
  {
    SentenceKeyNoDot();
  }

  /** The sentence key holds no dot. */
  lemma SentenceKeyNoDot()
    ensures '.' !in "a variable {foo} used for examples"
  {
  }

  /** index.test.js:45-47: an unknown key is itself the template when a payload is given. */
  lemma UnknownKeyReplacement(data: Data)
    requires data == map["foo" := Str("bar")]
    ensures Translate(L10n(), "a variable {foo} used for examples", Some(data)) ==
            Leaf("a variable bar used for examples")
  {
    var key := "a variable {foo} used for examples";
    SentenceKeyFacts();
    SentenceTemplate();
    SentenceRendered(data);
    InterpolatePieces(SentencePieces(), data);
    ResolveSimpleKey(L10n(), key);
    TranslateUnknownKey(L10n(), key, Some(data));
  }

  /** index.test.js:49-51: a dotted key reads a label of a nested dictionary. */
  lemma NestedTerm()
    ensures Translate(L10n(), "nested.values", None) == Leaf("am I right?")
  {
    NestedEntries();
    NestedValuesCase(L10n());
  }

  /** A dictionary whose `nested` dictionary holds `values` gives that label for `nested.values`. */
  lemma NestedValuesCase(dict: Dict)
    requires "nested" in dict && dict["nested"].Node?
    requires "values" in dict["nested"].children && dict["nested"].children["values"] == Leaf("am I right?")
    ensures Translate(dict, "nested.values", None) == Leaf("am I right?")
  {
    var child := dict["nested"].children;
    assert "nested.values" == "nested" + "." + "values";
    ResolveSimpleKey(child, "values");
    TranslateDescend(dict, "nested", "values", None);
    TranslateSimpleKey(child, "values");
  }

  /** `nested.replacements` translates as `replacements` does in the nested dictionary. */
  lemma NestedReplacementsKey(dict: Dict, data: Option<Data>)
    requires "nested" in dict && dict["nested"].Node? && "replacements" in dict["nested"].children
    ensures Translate(dict, "nested.replacements", data) == Translate(dict["nested"].children, "replacements", data)
  {
    assert "nested.replacements" == "nested" + "." + "replacements";
    KeysWithoutDots();
    ResolveSimpleKey(dict["nested"].children, "replacements");
    TranslateDescend(dict, "nested", "replacements", data);
  }

  /** The `replacements` label of the nested dictionary, with the three project names. */
  lemma ProjectsCase(child: Dict, data: Data)
    requires "replacements" in child
    requires child["replacements"] == Leaf("Datawheel's biggest projects are {first}, {second}, and {third}.")
    requires data == map["first" := Str("the OEC"), "second" := Str("DataUSA"), "third" := Str("DataMexico")]
    ensures Translate(child, "replacements", Some(data)) ==
            Leaf("Datawheel's biggest projects are the OEC, DataUSA, and DataMexico.")
  {
    KeysWithoutDots();
    ProjectsTemplate();
    ProjectsRendered(data);
    TemplateCase(child, "replacements", data, ProjectsPieces(),
                 "Datawheel's biggest projects are {first}, {second}, and {third}.",
                 "Datawheel's biggest projects are the OEC, DataUSA, and DataMexico.");
  }

  /** index.test.js:53-55: placeholders in a nested label are filled in. */
  lemma NestedReplacement(data: Data)
    requires data == map["first" := Str("the OEC"), "second" := Str("DataUSA"), "third" := Str("DataMexico")]
    ensures Translate(L10n(), "nested.replacements", Some(data)) ==
            Leaf("Datawheel's biggest projects are the OEC, DataUSA, and DataMexico.")
  {
    NestedEntries();
    NestedReplacementsKey(L10n(), Some(data));
    ProjectsCase(L10n()["nested"].children, data);
  }

  /** A placeholder with no entry in the payload becomes the empty string. */
  lemma MissingEntry(template: string, data: Data)
    requires template == "a{x}b" && data == map[]
    ensures Interpolate(template, data) == "ab"
  {
    var ps := [Text("a"), Placeholder("x"), Text("b")];
    assert PieceOk(ps[0]) && PieceOk(ps[1]) && PieceOk(ps[2]);
    assert Source(ps) == template;
    assert Render(ps, data) == "ab" by {
      assert Render(ps[2..], data) == "b";
      assert Render(ps[1..], data) == "b";
    }
    InterpolatePieces(ps, data);
  }

  /** The `||` fallback treats the number zero as missing. */
  lemma ZeroEntry(template: string, data: Data)
    requires template == "{x}" && data == map["x" := Num(0)]
    ensures Interpolate(template, data) == ""
  {
    assert template == "{" + "x" + "}" + "";
    InterpolateTokenPrefix("x", "", data);
  }

  /** Only the inner pair of `{{x}}` is a token; the outer braces stay. */
  lemma DoubledBraces(template: string, data: Data)
    requires template == "{{x}}" && data == map["x" := Str("A")]
    ensures Interpolate(template, data) == "{A}"
  {
    assert template == "{{" + "x" + "}}" + "";
    InterpolateDoubleBraces("x", "", data);
    assert Substitution(Get(data, "x")) == "A";
    assert "{" + "A" + "}" + "" == "{A}";
  }

  /** A substituted value that looks like a token is not scanned again. */
  lemma NoRescan(template: string, data: Data)
    requires template == "{x}" && data == map["x" := Str("{y}"), "y" := Str("B")]
    ensures Interpolate(template, data) == "{y}"
  {
    assert template == "{" + "x" + "}" + "";
    InterpolateTokenPrefix("x", "", data);
  }

  /** A dotted placeholder reads the payload under the whole dotted name, not a nested entry. */
  lemma DottedPlaceholder(template: string, data: Data)
    requires template == "{a.b}" && data == map["a.b" := Str("X"), "a" := Str("Y")]
    ensures Interpolate(template, data) == "X"
  {
    assert template == "{" + "a.b" + "}" + "";
    assert IsTokenBody("a.b");
    InterpolateTokenPrefix("a.b", "", data);
  }

  /** A numeric placeholder reads the payload under its digits. */
  lemma NumericPlaceholder(template: string, data: Data)
    requires template == "{0}" && data == map["0" := Str("first")]
    ensures Interpolate(template, data) == "first"
  {
    assert template == "{" + "0" + "}" + "";
    InterpolateTokenPrefix("0", "", data);
  }

  /** Matching ignores case, but the payload is read under the name as written. */
  lemma PlaceholderCaseKept(template: string, data: Data)
    requires template == "{Item}" && data == map["item" := Str("x")]
    ensures Interpolate(template, data) == ""
  {
    assert template == "{" + "Item" + "}" + "";
    InterpolateTokenPrefix("Item", "", data);
    assert "Item" !in data;
  }
}
