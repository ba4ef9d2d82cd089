/**
 * The ANML text that `Ste.__str__` and `Anml.__str__` build, as pure functions of
 * the values they read. A state-transition element is described by `SteFields`:
 * the id, the already-joined symbol set, the start type (present exactly when the
 * state is starting), the optional report code and the ids of its neighbours in
 * insertion order. Nothing is escaped: every field is copied into the text verbatim.
 *
 * The fixed pieces of markup between the fields are collected in a `Tags` value;
 * `AnmlTags` holds the ones the source writes. The functions and lemmas are stated
 * for any `Tags`, so that the proofs never look inside the literal text.
 */
module Markup {
  import opened Wrappers

  /** What the rendering of one state-transition element depends on. */
  datatype SteFields = SteFields(
    id: string,
    symbolSet: string,
    start: Option<string>,
    reportCode: Option<string>,
    targets: seq<string>)

  /** The fixed markup written around the fields, in the order it appears. */
  datatype Tags = Tags(
    steOpen: string,
    symbolSetOpen: string,
    startOpen: string,
    reportOpen: string,
    activateOpen: string,
    steClose: string,
    anmlOpen: string,
    networkOpen: string,
    networkClose: string)

  /** The markup `Ste.__str__` and `Anml.__str__` write. */
  const AnmlTags := Tags(
    "<state-transition-element id=\"",
    " symbol-set=\"",
    " start=\"",
    "\t\t\t<report-on-match reportcode=\"",
    "\t\t\t<activate-on-match element=\"",
    "\t\t</state-transition-element>\n",
    "<anml version=\"1.0\"  xmlns:xsi=\"http://www.w3.org/2001/XMLSchema-instance\">\n",
    "\t<automata-network id=\"",
    "\t</automata-network>\n" + "</anml>\n")

  /**
   * `''.join(tokens)`: the tokens concatenated in order, with no separator. Its
   * length is the tokens' lengths added up, and it holds exactly the characters
   * the tokens hold.
   */
  function Concat(tokens: seq<string>): (r: string)
    ensures |r| == TotalLength(tokens)
    ensures forall c :: c in r <==> exists t | t in tokens :: c in t
  {
    if tokens == [] then "" else tokens[0] + Concat(tokens[1..])
  }

  function TotalLength(tokens: seq<string>): nat
  {
    if tokens == [] then 0 else |tokens[0]| + TotalLength(tokens[1..])
  }

  /** A Python string used as the character class: `''.join` iterates over its characters. */
  function Chars(s: string): seq<string>
  {
    seq(|s|, i requires 0 <= i < |s| => [s[i]])
  }

  /** The end of the opening tag: the start attribute only for a starting state. */
  function StartPart(tags: Tags, start: Option<string>): string
  {
    match start
    case Some(t) => tags.startOpen + t + "\"" + ">\n"
    case None => ">\n"
  }

  /** The report child, present exactly when a report code was given. */
  function ReportPart(tags: Tags, reportCode: Option<string>): string
  {
    match reportCode
    case Some(c) => tags.reportOpen + c + "\"" + "/>\n"
    case None => ""
  }

  function ActivateLine(tags: Tags, target: string): string
  {
    tags.activateOpen + target + "\"" + "/>\n"
  }

  /** One activate-on-match line per neighbour, in neighbour order. */
  function Activations(tags: Tags, targets: seq<string>): string
  {
    if targets == [] then "" else ActivateLine(tags, targets[0]) + Activations(tags, targets[1..])
  }

  /** The opening tag of an element, up to its first child. */
  function OpenTag(tags: Tags, id: string, symbolSet: string, start: Option<string>): string
  {
    tags.steOpen + id + "\"" + tags.symbolSetOpen + symbolSet + "\"" + StartPart(tags, start)
  }

  /** Everything of an element before its first activate-on-match line. */
  function SteHead(tags: Tags, f: SteFields): string
  {
    OpenTag(tags, f.id, f.symbolSet, f.start) + ReportPart(tags, f.reportCode)
  }

  /** `Ste.__str__`: an element opens with the element tag and its id. */
  function SteText(tags: Tags, f: SteFields): (r: string)
    ensures tags.steOpen + f.id <= r
  {
    SteHead(tags, f) + Activations(tags, f.targets) + tags.steClose
  }

  function NetworkHead(tags: Tags, id: string): string
  {
    tags.anmlOpen + tags.networkOpen + id + "\"" + ">\n"
  }

  /** The text of each element, in order. */
  function Texts(tags: Tags, elements: seq<SteFields>): seq<string>
  {
    seq(|elements|, i requires 0 <= i < |elements| => SteText(tags, elements[i]))
  }

  /** Each element text indented by two tabs, in network order. */
  function Body(texts: seq<string>): string
  {
    if texts == [] then "" else "\t\t" + texts[0] + Body(texts[1..])
  }

  /** `Anml.__str__`: the document opens with the `anml` tag, then the network tag and its id. */
  function NetworkText(tags: Tags, id: string, elements: seq<SteFields>): (r: string)
    ensures tags.anmlOpen + tags.networkOpen + id <= r
  {
    NetworkHead(tags, id) + Body(Texts(tags, elements)) + tags.networkClose
  }

  /** Joining the characters of a string gives back the string: the symbol set is verbatim. */
  lemma {:induction false} ConcatChars(s: string)
    ensures Concat(Chars(s)) == s
  {
    if s != [] {
      assert Chars(s)[1..] == Chars(s[1..]);
      ConcatChars(s[1..]);
      assert s == [s[0]] + s[1..];
    }
  }

  lemma {:induction false} ActivationsAppend(tags: Tags, a: seq<string>, b: seq<string>)
    ensures Activations(tags, a + b) == Activations(tags, a) + Activations(tags, b)
  {
    if a == [] {
      assert a + b == b;
    } else {
      assert (a + b)[1..] == a[1..] + b;
      ActivationsAppend(tags, a[1..], b);
    }
  }

  /** One more target adds its activate-on-match line at the end. */
  lemma ActivationsSnoc(tags: Tags, targets: seq<string>, t: string)
    ensures Activations(tags, targets + [t]) == Activations(tags, targets) + ActivateLine(tags, t)
  {
    ActivationsAppend(tags, targets, [t]);
    assert [t][1..] == [];
  }

  /**
   * Adding a neighbour adds exactly its activate-on-match line, after all earlier
   * lines and just before the closing tag; the rest of the text is unchanged.
   */
  lemma AddTargetText(tags: Tags, f: SteFields, t: string)
    ensures SteText(tags, f.(targets := f.targets + [t]))
         == SteHead(tags, f) + Activations(tags, f.targets) + ActivateLine(tags, t) + tags.steClose
  {
    var g := f.(targets := f.targets + [t]);
    ActivationsAppend(tags, f.targets, [t]);
    assert [t][1..] == [];
    assert Activations(tags, [t]) == ActivateLine(tags, t);
    assert SteHead(tags, g) == SteHead(tags, f);
  }

  lemma {:induction false} BodyAppend(a: seq<string>, b: seq<string>)
    ensures Body(a + b) == Body(a) + Body(b)
  {
    if a == [] {
      assert a + b == b;
    } else {
      assert (a + b)[1..] == a[1..] + b;
      BodyAppend(a[1..], b);
    }
  }

  /** One more element text is indented and added at the end. */
  lemma BodySnoc(texts: seq<string>, t: string)
    ensures Body(texts + [t]) == Body(texts) + "\t\t" + t
  {
    BodyAppend(texts, [t]);
    assert [t][1..] == [];
  }

  /** The first element's text comes first, indented. */
  lemma BodyCons(tags: Tags, e: SteFields, elements: seq<SteFields>)
    ensures Body(Texts(tags, [e] + elements)) == "\t\t" + SteText(tags, e) + Body(Texts(tags, elements))
  {
    assert Texts(tags, [e] + elements)[1..] == Texts(tags, elements);
  }

  /**
   * Appending an element to the network appends its indented text after all
   * earlier elements and before the closing lines; the rest is unchanged.
   */
  lemma AddElementText(tags: Tags, id: string, elements: seq<SteFields>, e: SteFields)
    ensures NetworkText(tags, id, elements + [e])
         == NetworkHead(tags, id) + Body(Texts(tags, elements)) + "\t\t" + SteText(tags, e) + tags.networkClose
  {
    assert Texts(tags, elements + [e]) == Texts(tags, elements) + [SteText(tags, e)];
    BodySnoc(Texts(tags, elements), SteText(tags, e));
    Regroup5(NetworkHead(tags, id), Body(Texts(tags, elements)), "\t\t", SteText(tags, e), tags.networkClose);
  }

  /** Appending a concatenation is appending its parts one after the other. */
  lemma AppendAssoc(a: string, b: string, c: string)
    ensures a + (b + c) == a + b + c
  {
  }

  lemma Regroup5(a: string, b: string, c: string, d: string, e: string)
    ensures a + (b + c + d) + e == a + b + c + d + e
  {
  }
}
