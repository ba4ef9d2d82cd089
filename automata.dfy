/**
 * The automaton network of `Anml.py`: states (`Ste`) that are connected by
 * edges and collected in a network (`Anml`), and the ANML text both write.
 * A state's id, symbol set, start type, report code and match flag are fixed
 * when it is built; only its list of neighbours grows afterwards, and only the
 * network's list of states grows.
 */
module Automata {
  import opened Wrappers
  import opened Markup
  import opened MarkupParse
  import opened PyStr

  /** `AnmlDefs`: whether a state is active on every input symbol or not started at all. */
  datatype AnmlDefs = AllInput | NoStart

  /** The value each member of the enumeration is declared with. */
  function DefsValue(d: AnmlDefs): (v: int)
    ensures v == 1 || v == 2
    ensures v == 1 <==> d == AllInput
  {
    match d
    case AllInput => 1
    case NoStart => 2
  }

  /** `AnmlDefs(v)`: the member declared with value `v`, if there is one. */
  function DefsOf(v: int): (r: Option<AnmlDefs>)
    ensures r.Some? <==> v == 1 || v == 2
    ensures r.Some? ==> DefsValue(r.value) == v
  {
    if v == 1 then Some(AllInput) else if v == 2 then Some(NoStart) else None
  }

  /** Every member is found again by its value: the two values are distinct. */
  lemma DefsRoundTrip(d: AnmlDefs)
    ensures DefsOf(DefsValue(d)) == Some(d)
  {
  }

  /** The start type written for a state built with `AllInput`. */
  const AllInputStart := "all-input"

  /** The ids of `stes`, in order: what the activate-on-match lines name. */
  function Ids(stes: seq<Ste>): seq<string>
  {
    seq(|stes|, i requires 0 <= i < |stes| => stes[i].id)
  }

  /** A state-transition element. */
  class Ste {
    const id: string
    /** The symbol set as the tokens `''.join` concatenates (a Python string is `Chars` of it). */
    const characterClass: seq<string>
    const defs: AnmlDefs
    const reportCode: Option<string>
    const matching: bool
    var neighbors: seq<Ste>

    /** `starting_`: set by the constructor exactly for an all-input state, never changed. */
    predicate Starting()
    {
      defs == AllInput
    }

    /** `start_type_`, present exactly when `starting_` is true. */
    function StartType(): (r: Option<string>)
      ensures r.Some? <==> Starting()
    {
      if Starting() then Some(AllInputStart) else None
    }

    /** The state as built from the constructor's arguments, before any edge is added. */
    predicate BuiltFrom(characterClass: seq<string>, defs: AnmlDefs, anmlId: PyValue,
                        reportCode: Option<PyValue>, matchFlag: Option<bool>)
      reads this
    {
      && this.id == Str(anmlId)
      && this.characterClass == characterClass
      && this.defs == defs
      && this.reportCode == (if reportCode.Some? then Some(Str(reportCode.value)) else None)
      && this.matching == (matchFlag.Some? && matchFlag.value)
      && this.neighbors == []
    }

    /**
     * `Ste(character_class, defs, anmlId=…, reportCode=…, match=…)`; an absent
     * keyword argument is `None`.
     */
    constructor(characterClass: seq<string>, defs: AnmlDefs, anmlId: PyValue,
                reportCode: Option<PyValue>, matchFlag: Option<bool>)
      ensures BuiltFrom(characterClass, defs, anmlId, reportCode, matchFlag)
    {
      this.neighbors := [];
      this.characterClass := characterClass;
      this.defs := defs;
      this.id := Str(anmlId);
      this.reportCode := if reportCode.Some? then Some(Str(reportCode.value)) else None;
      this.matching := matchFlag.Some? && matchFlag.value;
    }

    /** `add_edge`: `ste2` becomes the last neighbour. */
    method AddEdge(ste2: Ste)
      modifies this
      ensures neighbors == old(neighbors) + [ste2]
      ensures Fields() == old(Fields()).(targets := old(Fields()).targets + [ste2.id])
    {
      ghost var f := Fields();
      neighbors := neighbors + [ste2];
      assert Ids(neighbors) == f.targets + [ste2.id];
    }

    /** `add_edges`: the states become the last neighbours, in their order. */
    method AddEdges(stes: seq<Ste>)
      modifies this
      ensures neighbors == old(neighbors) + stes
    {
      for i := 0 to |stes|
        invariant neighbors == old(neighbors) + stes[..i]
      {
        AddEdge(stes[i]);
        assert stes[..i + 1] == stes[..i] + [stes[i]];
      }
      assert stes[..|stes|] == stes;
    }

    /**
     * What `__str__` reads: the start type is `all-input` exactly for an all-input
     * state, and there is one target per neighbour.
     */
    function Fields(): (r: SteFields)
      reads this
      ensures r.start == Some(AllInputStart) <==> defs == AllInput
      ensures r.start.None? <==> defs == NoStart
      ensures |r.targets| == |neighbors|
      ensures forall c :: c in r.symbolSet <==> exists t | t in characterClass :: c in t
    {
      SteFields(id, Concat(characterClass), StartType(), reportCode, Ids(neighbors))
    }

    /** `__str__`. */
    method ToString() returns (s: string)
      ensures s == SteText(AnmlTags, Fields())
    {
      s := Render(AnmlTags);
    }

    /** The string building of `__str__`, for any markup. */
    method Render(tags: Tags) returns (s: string)
      ensures s == SteText(tags, Fields())
    {
      s := tags.steOpen + id + "\"" + tags.symbolSetOpen + Concat(characterClass) + "\"";
      if Starting() {
        s := s + (tags.startOpen + StartType().value + "\"" + ">\n");
      } else {
        s := s + ">\n";
      }
      if reportCode.Some? {
        s := s + (tags.reportOpen + reportCode.value + "\"" + "/>\n");
      }
      ghost var head := SteHead(tags, Fields());
      ghost var targets := Ids(neighbors);
      assert s == head + Activations(tags, targets[..0]);
      for i := 0 to |neighbors|
        invariant s == head + Activations(tags, targets[..i])
      {
        s := s + (tags.activateOpen + neighbors[i].id + "\"" + "/>\n");
        ActivationsSnoc(tags, targets[..i], targets[i]);
        TakeSnoc(targets, i);
      }
      assert targets[..|neighbors|] == targets;
      s := s + tags.steClose;
    }
  }

  /** The fields each state's text is built from, in network order. */
  function FieldsOf(stes: seq<Ste>): seq<SteFields>
    reads stes
  {
    seq(|stes|, i requires 0 <= i < |stes| reads stes => stes[i].Fields())
  }

  /** An automaton network. */
  class Anml {
    const id: string
    var stes: seq<Ste>

    /** Every state a state of the network activates is itself in the network. */
    predicate Closed()
      reads this, stes
    {
      forall s | s in stes :: forall t | t in s.neighbors :: t in stes
    }

    /** `Anml()`: the default id. */
    constructor()
      ensures id == "an1" && stes == []
    {
      id := "an1";
      stes := [];
    }

    /** `Anml(aId)`. */
    constructor WithId(aId: string)
      ensures id == aId && stes == []
    {
      id := aId;
      stes := [];
    }

    /** `AddSTE`: builds a new state, appends it to the network and returns it. */
    method AddSte(characterClass: seq<string>, defs: AnmlDefs, anmlId: PyValue,
                  reportCode: Option<PyValue>, matchFlag: Option<bool>) returns (ste: Ste)
      modifies this
      ensures fresh(ste)
      ensures ste.BuiltFrom(characterClass, defs, anmlId, reportCode, matchFlag)
      ensures stes == old(stes) + [ste]
      ensures old(Closed()) ==> Closed()
      ensures FieldsOf(stes) == old(FieldsOf(stes)) + [ste.Fields()]
    {
      ghost var elements := FieldsOf(stes);
      ste := new Ste(characterClass, defs, anmlId, reportCode, matchFlag);
      assert FieldsOf(old(stes)) == elements;
      stes := stes + [ste];
      assert FieldsOf(stes) == elements + [ste.Fields()];
    }

    /** `AddAnmlEdge`: `ste2` becomes the last neighbour of `ste1`. */
    method AddAnmlEdge(ste1: Ste, ste2: Ste)
      modifies ste1
      ensures ste1.neighbors == old(ste1.neighbors) + [ste2]
      ensures old(Closed()) && ste2 in stes ==> Closed()
    {
      ste1.AddEdge(ste2);
    }

    /** `AddAnmlEdges`: the states become the last neighbours of `ste1`, in their order. */
    method AddAnmlEdges(ste1: Ste, targets: seq<Ste>)
      modifies ste1
      ensures ste1.neighbors == old(ste1.neighbors) + targets
      ensures old(Closed()) && (forall t | t in targets :: t in stes) ==> Closed()
    {
      ste1.AddEdges(targets);
    }

    /** `__str__`. */
    method ToString() returns (s: string)
      ensures s == NetworkText(AnmlTags, id, FieldsOf(stes))
    {
      s := Render(AnmlTags);
    }

    /** The string building of `__str__`, for any markup. */
    method Render(tags: Tags) returns (s: string)
      ensures s == NetworkText(tags, id, FieldsOf(stes))
    {
      s := tags.anmlOpen;
      s := s + (tags.networkOpen + id + "\"" + ">\n");
      ghost var head := NetworkHead(tags, id);
      ghost var texts := Texts(tags, FieldsOf(stes));
      assert s == head + Body(texts[..0]);
      for i := 0 to |stes|
        invariant |texts| == |stes|
        invariant s == head + Body(texts[..i])
      {
        var t := stes[i].Render(tags);
        assert t == texts[i];
        s := s + ("\t\t" + t);
        BodySnoc(texts[..i], t);
        AppendAssoc(head, Body(texts[..i]), "\t\t" + t);
        AppendAssoc(Body(texts[..i]), "\t\t", t);
        TakeSnoc(texts, i);
      }
      assert texts[..|stes|] == texts;
      s := s + tags.networkClose;
    }
  }

  /** One more element of `xs` taken. */
  lemma TakeSnoc(xs: seq<string>, i: nat)
    requires i < |xs|
    ensures xs[..i + 1] == xs[..i] + [xs[i]]
  {
  }

  /**
   * Reading back a state's text gives its id, its symbol set, a start attribute
   * `all-input` exactly when it was built with `AllInput`, a report child exactly
   * when it has a report code, and one activate-on-match line per neighbour
   * naming that neighbour's id, in order, whenever none of these holds a double
   * quote.
   */
  lemma SteTextReadsBack(ste: Ste)
    requires FieldsQuoteFree(ste.Fields())
    ensures var r := ParseSte(AnmlTags, SteText(AnmlTags, ste.Fields()));
            && r.Some? && r.value.1 == ""
            && r.value.0.id == ste.id
            && r.value.0.symbolSet == Concat(ste.characterClass)
            && (r.value.0.start == Some(AllInputStart) <==> ste.defs == AllInput)
            && (r.value.0.start.None? <==> ste.defs == NoStart)
            && r.value.0.reportCode == ste.reportCode
            && |r.value.0.targets| == |ste.neighbors|
            && forall i | 0 <= i < |ste.neighbors| :: r.value.0.targets[i] == ste.neighbors[i].id
  {
    var t := SteText(AnmlTags, ste.Fields());
    AnmlTagsDistinguishable();
    SteOf(AnmlTags, ste.Fields(), "");
    assert t + "" == t;
  }

  /**
   * Reading back a network's text gives its id and, in order, every state it
   * holds, whenever no field holds a double quote: each state's text carries
   * `start="all-input"` exactly when the state was built with `AllInput`, its
   * report code exactly when it has one, and its neighbours' ids in order.
   */
  lemma NetworkTextReadsBack(anml: Anml)
    requires QuoteFree(anml.id)
    requires forall s | s in anml.stes :: FieldsQuoteFree(s.Fields())
    ensures var r := ParseNetwork(AnmlTags, NetworkText(AnmlTags, anml.id, FieldsOf(anml.stes)));
            && r.Some? && r.value.0 == anml.id && |r.value.1| == |anml.stes|
            && forall i | 0 <= i < |anml.stes| ::
                 && r.value.1[i] == anml.stes[i].Fields()
                 && (r.value.1[i].start == Some(AllInputStart) <==> anml.stes[i].defs == AllInput)
                 && r.value.1[i].reportCode == anml.stes[i].reportCode
                 && r.value.1[i].targets == Ids(anml.stes[i].neighbors)
  {
    AnmlTagsDistinguishable();
    var fs := FieldsOf(anml.stes);
    assert |fs| == |anml.stes| && forall i | 0 <= i < |fs| :: fs[i] == anml.stes[i].Fields();
    forall e | e in fs
      ensures FieldsQuoteFree(e)
    {
      var i :| 0 <= i < |fs| && fs[i] == e;
      assert anml.stes[i] in anml.stes;
    }
    NetworkRoundTrip(AnmlTags, anml.id, fs);
  }
}
