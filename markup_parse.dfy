/**
 * A reader for exactly the ANML text that `Markup` renders. Each parser's
 * contract says that what it accepts is the rendering of what it returns
 * (followed by the unread rest); the round-trip lemmas say that it accepts every
 * rendering whose fields hold no double quote. Together they show that the
 * rendering keeps every field, in order, and that the start attribute, the
 * report child and the activate-on-match children appear exactly when the
 * fields say so. A field holding a double quote is not escaped, and then two
 * different elements can render to the same text (QuoteMakesTextAmbiguous).
 */
module MarkupParse {
  import opened Wrappers
  import opened Markup

  predicate QuoteFree(s: string)
  {
    '"' !in s
  }

  predicate OptionQuoteFree(o: Option<string>)
  {
    o.Some? ==> QuoteFree(o.value)
  }

  /** The fields that the rendering copies between double quotes hold none themselves. */
  predicate FieldsQuoteFree(f: SteFields)
  {
    && QuoteFree(f.id)
    && QuoteFree(f.symbolSet)
    && OptionQuoteFree(f.start)
    && OptionQuoteFree(f.reportCode)
    && forall t | t in f.targets :: QuoteFree(t)
  }

  /** `a` and `b` differ at a position both have, so neither starts like the other. */
  predicate Differ(a: string, b: string)
  {
    exists i :: 0 <= i < |a| && i < |b| && a[i] != b[i]
  }

  /**
   * Where the reader has to choose between two continuations, their fixed
   * markup tells them apart at once.
   */
  predicate Distinguishable(tags: Tags)
  {
    && Differ(tags.startOpen, ">\n")
    && Differ(tags.reportOpen, tags.activateOpen)
    && Differ(tags.reportOpen, tags.steClose)
    && Differ(tags.activateOpen, tags.steClose)
    && Differ("\t\t", tags.networkClose)
  }

  /** The markup the source writes can be read back unambiguously. */
  lemma AnmlTagsDistinguishable()
    ensures Distinguishable(AnmlTags)
  {
    var t := AnmlTags;
    assert t.startOpen[0] != ">\n"[0];
    assert t.reportOpen[4] != t.activateOpen[4];
    assert t.reportOpen[2] != t.steClose[2];
    assert t.activateOpen[2] != t.steClose[2];
    assert "\t\t"[1] != t.networkClose[1];
  }

  /** Consumes the literal `lit` at the front of `s`. */
  function Expect(lit: string, s: string): (r: Option<string>)
    ensures r.Some? <==> lit <= s
    ensures r.Some? ==> s == lit + r.value
  {
    if lit <= s then Some(s[|lit|..]) else None
  }

  /** Reads an attribute value up to and including its closing double quote. */
  function Field(s: string): (r: Option<(string, string)>)
    ensures r.Some? ==> QuoteFree(r.value.0) && s == r.value.0 + "\"" + r.value.1
  {
    if s == [] then None
    else if s[0] == '"' then Some(("", s[1..]))
    else
      match Field(s[1..])
      case None => None
      case Some((v, rest)) => Some(([s[0]] + v, rest))
  }

  /** The markup `open`, then a value up to its closing double quote. */
  function ParseAttr(open: string, s: string): (r: Option<(string, string)>)
    ensures r.Some? ==> s == open + r.value.0 + "\"" + r.value.1
  {
    match Expect(open, s)
    case None => None
    case Some(s1) =>
      match Field(s1)
      case None => None
      case Some((v, s2)) =>
        assert s == open + v + "\"" + s2;
        Some((v, s2))
  }

  /** The end of the opening tag: the start attribute and `">`, or only `>`, then a newline. */
  function ParseStart(tags: Tags, s: string): (r: Option<(Option<string>, string)>)
    ensures r.Some? ==> s == StartPart(tags, r.value.0) + r.value.1
  {
    match ParseAttr(tags.startOpen, s)
    case Some((t, s1)) =>
      (match Expect(">\n", s1)
       case None => None
       case Some(s2) =>
         Some((Some(t), s2)))
    case None =>
      match Expect(">\n", s)
      case None => None
      case Some(s1) => Some((None, s1))
  }

  /** The opening tag of a state-transition element: its id, symbol set and start type. */
  function ParseOpenTag(tags: Tags, s: string): (r: Option<(string, string, Option<string>, string)>)
    ensures r.Some? ==> s == OpenTag(tags, r.value.0, r.value.1, r.value.2) + r.value.3
  {
    match ParseAttr(tags.steOpen, s)
    case None => None
    case Some((id, s1)) =>
      match ParseAttr(tags.symbolSetOpen, s1)
      case None => None
      case Some((symbols, s2)) =>
        match ParseStart(tags, s2)
        case None => None
        case Some((start, s3)) =>
          OpenTagRegroup(tags.steOpen, id, "\"", tags.symbolSetOpen, symbols, StartPart(tags, start), s3);
          Some((id, symbols, start, s3))
  }

  /** The optional report-on-match child. */
  function ParseReport(tags: Tags, s: string): (r: Option<(Option<string>, string)>)
    ensures r.Some? ==> s == ReportPart(tags, r.value.0) + r.value.1
  {
    if !(tags.reportOpen <= s) then Some((None, s))
    else
      match ParseAttr(tags.reportOpen, s)
      case None => None
      case Some((c, s1)) =>
        match Expect("/>\n", s1)
        case None => None
        case Some(s2) =>
          Some((Some(c), s2))
  }

  /** As many activate-on-match children as follow, in order. */
  function ParseActivations(tags: Tags, s: string): (r: Option<(seq<string>, string)>)
    ensures r.Some? ==> s == Activations(tags, r.value.0) + r.value.1
    decreases |s|
  {
    if !(tags.activateOpen <= s) then Some(([], s))
    else
      match ParseAttr(tags.activateOpen, s)
      case None => None
      case Some((t, s1)) =>
        match Expect("/>\n", s1)
        case None => None
        case Some(s2) =>
          Split2(s, tags.activateOpen + t + "\"", s1, "/>\n", s2);
          match ParseActivations(tags, s2)
          case None => None
          case Some((ts, s3)) =>
            Split2(s, ActivateLine(tags, t), s2, Activations(tags, ts), s3);
            assert ([t] + ts)[1..] == ts;
            Some(([t] + ts, s3))
  }

  /** One whole state-transition element. */
  function ParseSte(tags: Tags, s: string): (r: Option<(SteFields, string)>)
    ensures r.Some? ==> s == SteText(tags, r.value.0) + r.value.1
  {
    match ParseOpenTag(tags, s)
    case None => None
    case Some((id, symbols, start, s1)) =>
      match ParseReport(tags, s1)
      case None => None
      case Some((report, s2)) =>
        match ParseActivations(tags, s2)
        case None => None
        case Some((targets, s3)) =>
          match Expect(tags.steClose, s3)
          case None => None
          case Some(s4) =>
            Split4(s, OpenTag(tags, id, symbols, start), s1, ReportPart(tags, report), s2,
                   Activations(tags, targets), s3, tags.steClose, s4);
            Some((SteFields(id, symbols, start, report, targets), s4))
  }

  /** The indented elements of a network, in order. */
  function ParseBody(tags: Tags, s: string): (r: Option<(seq<SteFields>, string)>)
    ensures r.Some? ==> s == Body(Texts(tags, r.value.0)) + r.value.1
    decreases |s|
  {
    match Expect("\t\t", s)
    case None => Some(([], s))
    case Some(s1) =>
      match ParseSte(tags, s1)
      case None => None
      case Some((e, s2)) =>
        match ParseBody(tags, s2)
        case None => None
        case Some((es, s3)) =>
          Chain3(s, "\t\t", s1, SteText(tags, e), s2, Body(Texts(tags, es)), s3);
          BodyCons(tags, e, es);
          Some(([e] + es, s3))
  }

  /** A whole ANML document as `Anml.__str__` writes it, with nothing after it. */
  function ParseNetwork(tags: Tags, s: string): (r: Option<(string, seq<SteFields>)>)
    ensures r.Some? ==> s == NetworkText(tags, r.value.0, r.value.1)
  {
    match ParseAttr(tags.anmlOpen + tags.networkOpen, s)
    case None => None
    case Some((id, s1)) =>
      match Expect(">\n", s1)
      case None => None
      case Some(s2) =>
        match ParseBody(tags, s2)
        case None => None
        case Some((elements, s3)) =>
          if s3 == tags.networkClose then
            Split2(s, tags.anmlOpen + tags.networkOpen + id + "\"", s1, ">\n", s2);
            Split2(s, NetworkHead(tags, id), s2, Body(Texts(tags, elements)), s3);
            Some((id, elements))
          else None
  }

  lemma ExpectOf(lit: string, rest: string)
    ensures Expect(lit, lit + rest) == Some(rest)
  {
    assert lit <= lit + rest;
    var r := Expect(lit, lit + rest).value;
    assert rest == (lit + r)[|lit|..];
  }

  /** Every quote-free value followed by its closing quote is read back whole. */
  lemma {:induction false} FieldOf(v: string, rest: string)
    requires QuoteFree(v)
    ensures Field(v + "\"" + rest) == Some((v, rest))
  {
    var s := v + "\"" + rest;
    if v == [] {
      assert s == "\"" + rest;
      assert s[1..] == rest;
    } else {
      assert s[0] == v[0] && v[0] != '"';
      assert s[1..] == v[1..] + "\"" + rest;
      FieldOf(v[1..], rest);
      assert [v[0]] + v[1..] == v;
    }
  }

  lemma AttrOf(open: string, v: string, rest: string)
    requires QuoteFree(v)
    ensures ParseAttr(open, open + v + "\"" + rest) == Some((v, rest))
  {
    Split3Back(open, v, "\"", rest);
    ExpectOf(open, v + "\"" + rest);
    FieldOf(v, rest);
  }

  lemma StartOf(tags: Tags, start: Option<string>, rest: string)
    requires Differ(tags.startOpen, ">\n")
    requires OptionQuoteFree(start)
    ensures ParseStart(tags, StartPart(tags, start) + rest) == Some((start, rest))
  {
    match start
    case Some(t) =>
      Split4Back(tags.startOpen, t, "\"", ">\n", rest);
      AttrOf(tags.startOpen, t, ">\n" + rest);
      ExpectOf(">\n", rest);
    case None =>
      Diverge(tags.startOpen, ">\n", rest);
      ExpectOf(">\n", rest);
  }

  lemma OpenTagOf(tags: Tags, id: string, symbols: string, start: Option<string>, rest: string)
    requires Differ(tags.startOpen, ">\n")
    requires QuoteFree(id) && QuoteFree(symbols) && OptionQuoteFree(start)
    ensures ParseOpenTag(tags, OpenTag(tags, id, symbols, start) + rest) == Some((id, symbols, start, rest))
  {
    var s2 := StartPart(tags, start) + rest;
    var s1 := tags.symbolSetOpen + symbols + "\"" + s2;
    OpenTagRegroup(tags.steOpen, id, "\"", tags.symbolSetOpen, symbols, StartPart(tags, start), rest);
    AttrOf(tags.steOpen, id, s1);
    AttrOf(tags.symbolSetOpen, symbols, s2);
    StartOf(tags, start, rest);
  }

  /** What follows a report child never starts like one. */
  lemma NoReportAfter(tags: Tags, targets: seq<string>, rest: string)
    requires Differ(tags.reportOpen, tags.activateOpen) && Differ(tags.reportOpen, tags.steClose)
    ensures !(tags.reportOpen <= Activations(tags, targets) + tags.steClose + rest)
  {
    if targets == [] {
      Diverge(tags.reportOpen, tags.steClose, rest);
    } else {
      var line := ActivateLine(tags, targets[0]);
      var after := Activations(tags, targets[1..]) + tags.steClose + rest;
      var tail := targets[0] + "\"" + "/>\n" + after;
      Diverge(tags.reportOpen, tags.activateOpen, tail);
    }
  }

  lemma ReportOf(tags: Tags, reportCode: Option<string>, rest: string)
    requires OptionQuoteFree(reportCode)
    requires reportCode.None? ==> !(tags.reportOpen <= rest)
    ensures ParseReport(tags, ReportPart(tags, reportCode) + rest) == Some((reportCode, rest))
  {
    match reportCode
    case Some(c) =>
      Split4Back(tags.reportOpen, c, "\"", "/>\n", rest);
      AttrOf(tags.reportOpen, c, "/>\n" + rest);
      ExpectOf("/>\n", rest);
    case None =>
      assert ReportPart(tags, reportCode) + rest == rest;
  }

  /** The closing tag never starts like an activate-on-match child. */
  lemma NoActivationAt(tags: Tags, rest: string)
    requires Differ(tags.activateOpen, tags.steClose)
    ensures !(tags.activateOpen <= tags.steClose + rest)
  {
    Diverge(tags.activateOpen, tags.steClose, rest);
  }

  lemma {:induction false} ActivationsOf(tags: Tags, targets: seq<string>, rest: string)
    requires forall t | t in targets :: QuoteFree(t)
    requires !(tags.activateOpen <= rest)
    ensures ParseActivations(tags, Activations(tags, targets) + rest) == Some((targets, rest))
  {
    if targets == [] {
      assert Activations(tags, targets) + rest == rest;
    } else {
      var t := targets[0];
      var s2 := Activations(tags, targets[1..]) + rest;
      var s := Activations(tags, targets) + rest;
      assert s == ActivateLine(tags, t) + s2;
      Split4Back(tags.activateOpen, t, "\"", "/>\n", s2);
      AttrOf(tags.activateOpen, t, "/>\n" + s2);
      ExpectOf("/>\n", s2);
      ActivationsOf(tags, targets[1..], rest);
      assert [t] + targets[1..] == targets;
    }
  }

  /** Every quote-free element is read back whole, and the reader stops right after it. */
  lemma SteOf(tags: Tags, f: SteFields, rest: string)
    requires Distinguishable(tags)
    requires FieldsQuoteFree(f)
    ensures ParseSte(tags, SteText(tags, f) + rest) == Some((f, rest))
  {
    var s3 := tags.steClose + rest;
    var s2 := Activations(tags, f.targets) + s3;
    var s1 := ReportPart(tags, f.reportCode) + s2;
    var open := OpenTag(tags, f.id, f.symbolSet, f.start);
    SteRegroup(open, ReportPart(tags, f.reportCode), Activations(tags, f.targets), tags.steClose, rest);
    OpenTagOf(tags, f.id, f.symbolSet, f.start, s1);
    NoReportAfter(tags, f.targets, rest);
    ReportOf(tags, f.reportCode, s2);
    NoActivationAt(tags, rest);
    ActivationsOf(tags, f.targets, s3);
    ExpectOf(tags.steClose, rest);
    SteStep(tags, open + s1, f.id, f.symbolSet, f.start, s1, f.reportCode, s2, f.targets, s3, rest);
  }

  /** The four parts of an element, read one after the other, make up the element. */
  lemma SteStep(tags: Tags, s: string, id: string, symbols: string, start: Option<string>, s1: string,
                report: Option<string>, s2: string, targets: seq<string>, s3: string, s4: string)
    requires ParseOpenTag(tags, s) == Some((id, symbols, start, s1))
    requires ParseReport(tags, s1) == Some((report, s2))
    requires ParseActivations(tags, s2) == Some((targets, s3))
    requires Expect(tags.steClose, s3) == Some(s4)
    ensures ParseSte(tags, s) == Some((SteFields(id, symbols, start, report, targets), s4))
  {
  }

  lemma {:induction false} BodyOf(tags: Tags, elements: seq<SteFields>, rest: string)
    requires Distinguishable(tags)
    requires forall e | e in elements :: FieldsQuoteFree(e)
    requires !("\t\t" <= rest)
    ensures ParseBody(tags, Body(Texts(tags, elements)) + rest) == Some((elements, rest))
  {
    if elements == [] {
      BodyNilOf(tags, rest);
    } else {
      BodyOf(tags, elements[1..], rest);
      assert elements[0] in elements;
      BodyConsOf(tags, elements, rest);
    }
  }

  /** The reader stops where no further element is indented. */
  lemma BodyNilOf(tags: Tags, rest: string)
    requires !("\t\t" <= rest)
    ensures ParseBody(tags, Body(Texts(tags, [])) + rest) == Some(([], rest))
  {
    assert Body(Texts(tags, [])) + rest == rest;
  }

  /** An element in front of elements that are read back whole is read back too. */
  lemma BodyConsOf(tags: Tags, elements: seq<SteFields>, rest: string)
    requires Distinguishable(tags)
    requires |elements| > 0 && FieldsQuoteFree(elements[0])
    requires ParseBody(tags, Body(Texts(tags, elements[1..])) + rest) == Some((elements[1..], rest))
    ensures ParseBody(tags, Body(Texts(tags, elements)) + rest) == Some((elements, rest))
  {
    var e, others := elements[0], elements[1..];
    var tail := Body(Texts(tags, others)) + rest;
    BodyCons(tags, e, others);
    assert [e] + others == elements;
    Regroup4Back("\t\t", SteText(tags, e), Body(Texts(tags, others)), rest);
    assert Body(Texts(tags, elements)) + rest == "\t\t" + (SteText(tags, e) + tail);
    SteOf(tags, e, tail);
    BodyStep(tags, SteText(tags, e) + tail, e, tail, others, rest);
  }

  /** One more element read in front of the ones after it. */
  lemma BodyStep(tags: Tags, s: string, e: SteFields, tail: string, elements: seq<SteFields>, rest: string)
    requires ParseSte(tags, s) == Some((e, tail))
    requires ParseBody(tags, tail) == Some((elements, rest))
    ensures ParseBody(tags, "\t\t" + s) == Some(([e] + elements, rest))
  {
    ExpectOf("\t\t", s);
  }

  /**
   * Reading back a rendered network gives its id and all its elements, in order,
   * whenever no field holds a double quote.
   */
  lemma NetworkRoundTrip(tags: Tags, id: string, elements: seq<SteFields>)
    requires Distinguishable(tags)
    requires QuoteFree(id)
    requires forall e | e in elements :: FieldsQuoteFree(e)
    ensures ParseNetwork(tags, NetworkText(tags, id, elements)) == Some((id, elements))
  {
    var s2 := Body(Texts(tags, elements)) + tags.networkClose;
    Split6Back(tags.anmlOpen + tags.networkOpen, id, "\"", ">\n", Body(Texts(tags, elements)), tags.networkClose);
    AttrOf(tags.anmlOpen + tags.networkOpen, id, ">\n" + s2);
    ExpectOf(">\n", s2);
    Diverge("\t\t", tags.networkClose, "");
    assert tags.networkClose + "" == tags.networkClose;
    BodyOf(tags, elements, tags.networkClose);
  }

  /** With quote-free fields, different networks never render to the same text. */
  lemma NetworkTextInjective(tags: Tags, id1: string, elements1: seq<SteFields>,
                             id2: string, elements2: seq<SteFields>)
    requires Distinguishable(tags)
    requires QuoteFree(id1) && forall e | e in elements1 :: FieldsQuoteFree(e)
    requires QuoteFree(id2) && forall e | e in elements2 :: FieldsQuoteFree(e)
    requires NetworkText(tags, id1, elements1) == NetworkText(tags, id2, elements2)
    ensures id1 == id2 && elements1 == elements2
  {
    NetworkRoundTrip(tags, id1, elements1);
    NetworkRoundTrip(tags, id2, elements2);
  }

  /**
   * Nothing is escaped: an id that holds a double quote and the symbol-set
   * attribute renders exactly like a shorter id with a longer symbol set.
   */
  lemma QuoteMakesTextAmbiguous(tags: Tags, f: SteFields, a: string, b: string)
    ensures var f1 := f.(id := a + "\"" + tags.symbolSetOpen + b);
            var f2 := f.(id := a, symbolSet := b + "\"" + tags.symbolSetOpen + f.symbolSet);
            f1 != f2 && SteText(tags, f1) == SteText(tags, f2)
  {
    var f1 := f.(id := a + "\"" + tags.symbolSetOpen + b);
    var f2 := f.(id := a, symbolSet := b + "\"" + tags.symbolSetOpen + f.symbolSet);
    assert |f1.id| > |f2.id|;
    assert OpenTag(tags, f1.id, f1.symbolSet, f1.start) == OpenTag(tags, f2.id, f2.symbolSet, f2.start);
  }

  /** A literal that differs from `b` is not a prefix of anything starting with `b`. */
  lemma Diverge(a: string, b: string, rest: string)
    requires Differ(a, b)
    ensures !(a <= b + rest)
  {
    var i :| 0 <= i < |a| && i < |b| && a[i] != b[i];
    assert (b + rest)[i] == b[i];
  }

  // Regrouping steps for the contracts above, stated over plain strings.

  lemma Split2(s: string, a: string, s1: string, b: string, s2: string)
    requires s == a + s1 && s1 == b + s2
    ensures s == a + b + s2
  {
  }

  lemma Chain3(s: string, a: string, s1: string, b: string, s2: string, c: string, s3: string)
    requires s == a + s1 && s1 == b + s2 && s2 == c + s3
    ensures s == a + b + c + s3
  {
  }

  lemma Split4(s: string, a: string, s1: string, b: string, s2: string, c: string, s3: string, d: string, s4: string)
    requires s == a + s1 && s1 == b + s2 && s2 == c + s3 && s3 == d + s4
    ensures s == a + b + c + d + s4
  {
  }

  lemma Split3Back(a: string, b: string, c: string, r: string)
    ensures a + b + c + r == a + (b + c + r)
  {
  }

  lemma Split4Back(a: string, b: string, c: string, d: string, r: string)
    ensures a + b + c + d + r == a + b + c + (d + r)
  {
  }

  lemma Regroup4Back(a: string, b: string, c: string, r: string)
    ensures a + b + c + r == a + (b + (c + r))
  {
  }

  lemma Split6Back(a: string, b: string, c: string, d: string, e: string, r: string)
    ensures a + b + c + d + e + r == a + b + c + (d + (e + r))
  {
  }

  lemma SteRegroup(a: string, b: string, c: string, d: string, r: string)
    ensures a + b + c + d + r == a + (b + (c + (d + r)))
  {
  }

  lemma OpenTagRegroup(a: string, b: string, q: string, c: string, d: string, e: string, r: string)
    ensures a + b + q + c + d + q + e + r == a + b + q + (c + d + q + (e + r))
  {
  }

}
