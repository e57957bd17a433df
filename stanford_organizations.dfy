/**
 * The mapping rules that turn one flattened Stanford organization record into
 * the fields of its output hash: the named graph, the subject, the types, the
 * labels, the org codes and the parent link, each value-carrying field but
 * the graph, subject and types preceded by a "!"-prefixed flag that asks for
 * the field's old values to be cleared first.
 */
module StanfordOrganizations {
  import opened Wrappers

  // ---------------------------------------------------------------------
  // Vocabularies
  // ---------------------------------------------------------------------

  const FoafPrefix: string := "http://xmlns.com/foaf/0.1/"
  const SkosPrefix: string := "http://www.w3.org/2004/02/skos/core#"
  const RdfsPrefix: string := "http://www.w3.org/2000/01/rdf-schema#"
  const DcPrefix: string := "http://purl.org/dc/terms/"
  const VivoPrefix: string := "http://vivoweb.org/ontology/core#"
  const OboPrefix: string := "http://purl.obolibrary.org/obo/"

  /** The RIALTO-specific namespace values: the prefix of organization
      subjects and the named graph of Stanford organizations. */
  datatype Namespaces = Namespaces(rialtoOrganizations: string, stanfordOrganizationsGraph: string)

  const FoafAgent: string := FoafPrefix + "Agent"
  const FoafOrganization: string := FoafPrefix + "Organization"

  /** The terms the rules fill: three JSON-LD keywords and four predicates. */
  datatype Term = AtGraph | AtId | AtType | PrefLabel | RdfsLabel | DcIdentifier | PartOf

  /** The text of a term as a key of the output hash. */
  function TermName(t: Term): string {
    match t
    case AtGraph => "@graph"
    case AtId => "@id"
    case AtType => "@type"
    case PrefLabel => SkosPrefix + "prefLabel"
    case RdfsLabel => RdfsPrefix + "label"
    case DcIdentifier => DcPrefix + "identifier"
    case PartOf => OboPrefix + "BFO_0000050"
  }

  /** A key of the output hash: a term, or the "!"-prefixed flag asking for
      the term's existing values to be cleared. */
  datatype Key = Set(term: Term) | Clear(term: Term)

  /** The text of a key: the flag is the term's text behind a "!". */
  function KeyName(k: Key): (r: string)
    ensures k.Clear? ==> r == "!" + TermName(k.term)
    ensures k.Set? ==> r == TermName(k.term)
  {
    match k
    case Set(t) => TermName(t)
    case Clear(t) => "!" + TermName(t)
  }

  /** No term's text starts with "!", which marks a flag. */
  lemma TermNameNotFlag(t: Term)
    ensures |TermName(t)| > 0 && TermName(t)[0] != '!'
  {
    match t
    case AtGraph =>
    case AtId =>
    case AtType =>
    case PrefLabel => assert TermName(t)[0] == SkosPrefix[0];
    case RdfsLabel => assert TermName(t)[0] == RdfsPrefix[0];
    case DcIdentifier => assert TermName(t)[0] == DcPrefix[0];
    case PartOf => assert TermName(t)[0] == OboPrefix[0];
  }

  /** Distinct terms have distinct texts: their lengths differ, except for
      rdfs:label and BFO_0000050, whose namespaces differ early on. */
  lemma TermNameInjective(a: Term, b: Term)
    ensures TermName(a) == TermName(b) ==> a == b
  {
    assert |TermName(PrefLabel)| == 45;
    assert |TermName(RdfsLabel)| == 42 && TermName(RdfsLabel)[7] == 'w';
    assert |TermName(DcIdentifier)| == 35;
    assert |TermName(PartOf)| == 42 && TermName(PartOf)[7] == 'p';
  }

  /** Distinct keys have distinct texts, so no two keys of an output hash
      fall on the same string key of the Ruby hash. */
  lemma KeyNameInjective(a: Key, b: Key)
    ensures KeyName(a) == KeyName(b) ==> a == b
  {
    if KeyName(a) == KeyName(b) {
      TermNameNotFlag(a.term);
      TermNameNotFlag(b.term);
      if a.Clear? && b.Clear? {
        assert KeyName(a)[1..] == TermName(a.term);
        assert KeyName(b)[1..] == TermName(b.term);
        TermNameInjective(a.term, b.term);
      } else if a.Set? && b.Set? {
        TermNameInjective(a.term, b.term);
      }
    }
  }

  /** A term of the VIVO vocabulary. */
  function Vivo(local: string): (r: string)
    ensures |r| == |VivoPrefix| + |local|
    ensures r[..|VivoPrefix|] == VivoPrefix && r[|VivoPrefix|..] == local
  {
    VivoPrefix + local
  }

  // ---------------------------------------------------------------------
  // Records and output
  // ---------------------------------------------------------------------

  /** The parent organization, as the flattening reader attaches it. */
  datatype Parent = Parent(alias: Option<string>, name: Option<string>)

  /** One flattened organization record. */
  datatype Organization = Organization(
    alias: string,
    name: string,
    orgType: Option<string>,
    orgCodes: Option<seq<string>>,
    parent: Option<Parent>)

  /** A value in a field's accumulator. */
  datatype Value =
    | Iri(iri: string)
    | Text(text: string)
    | Flag(flag: bool)
    | Codes(codes: seq<string>)

  /** The output hash of one record: its keys in insertion order and the
      values accumulated under each. */
  datatype OutputHash = OutputHash(order: seq<Key>, fields: map<Key, seq<Value>>)

  /** The keys in `order` are distinct and are exactly those of `fields`. */
  predicate ValidHash(h: OutputHash) {
    (forall k :: k in h.order ==> k in h.fields) &&
    (forall k :: k in h.fields ==> k in h.order) &&
    (forall i, j :: 0 <= i < j < |h.order| ==> h.order[i] != h.order[j])
  }

  const EmptyHash: OutputHash := OutputHash([], map[])

  /** One rule's step: a non-empty accumulator is added under its key (a new
      key goes last); an empty one leaves the hash as it is. */
  function Accumulate(h: OutputHash, k: Key, accum: seq<Value>): OutputHash
  {
    if accum == [] then h
    else if k in h.fields then OutputHash(h.order, h.fields[k := h.fields[k] + accum])
    else OutputHash(h.order + [k], h.fields[k := accum])
  }

  // ---------------------------------------------------------------------
  // Labels
  // ---------------------------------------------------------------------

  /** Organization names too generic to stand alone. */
  const OrgsNeedingContext: seq<string> := [
    "External Relations",
    "Administration",
    "Dean's Office",
    "Financial Aid",
    "Financial Aid Office",
    "Research Centers"
  ]

  /** The name, followed by the parent's name in parentheses when the name
      needs context and the record has a parent; a parent without a name
      interpolates as the empty text. The name is returned unchanged exactly
      when it needs no context or there is no parent. */
  function ContextualizedOrgName(org: Organization): (r: string)
    ensures |org.name| <= |r|
    ensures r[..|org.name|] == org.name
    ensures r == org.name <==> !(org.name in OrgsNeedingContext && org.parent.Some?)
    ensures org.name in OrgsNeedingContext && org.parent.Some? ==>
      r[|org.name|..] == " (" + org.parent.value.name.GetOr("") + ")"
  {
    if org.name in OrgsNeedingContext && org.parent.Some? then
      org.name + " (" + org.parent.value.name.GetOr("") + ")"
    else
      org.name
  }

  // ---------------------------------------------------------------------
  // Types
  // ---------------------------------------------------------------------

  /** A translation-map lookup with a default for missing keys. */
  function Translate(typeMap: map<string, string>, key: string, default: string): (r: string)
    ensures key in typeMap ==> r == typeMap[key]
    ensures key !in typeMap ==> r == default
  {
    if key in typeMap then typeMap[key] else default
  }

  /** The VIVO class of an organization: University for the ROOT, School
      for a SCHOOL, and otherwise the class the departments map gives the
      alias, by default Division for a DIVISION or SUB_DIVISION and
      Department for any other or a missing type. */
  function VivoClass(org: Organization, typeMap: map<string, string>): (r: string)
  {
    match org.orgType
    case Some("DIVISION") => Vivo(Translate(typeMap, org.alias, "Division"))
    case Some("SUB_DIVISION") => Vivo(Translate(typeMap, org.alias, "Division"))
    case Some("ROOT") => Vivo("University")
    case Some("SCHOOL") => Vivo("School")
    case _ => Vivo(Translate(typeMap, org.alias, "Department"))
  }

  function IsDivision(orgType: Option<string>): bool {
    orgType == Some("DIVISION") || orgType == Some("SUB_DIVISION")
  }

  function IsRootOrSchool(orgType: Option<string>): bool {
    orgType == Some("ROOT") || orgType == Some("SCHOOL")
  }

  /** The VIVO class, case by case. */
  lemma VivoClassCases(org: Organization, typeMap: map<string, string>)
    ensures org.orgType == Some("ROOT") ==> VivoClass(org, typeMap) == Vivo("University")
    ensures org.orgType == Some("SCHOOL") ==> VivoClass(org, typeMap) == Vivo("School")
    ensures !IsRootOrSchool(org.orgType) && org.alias in typeMap ==>
      VivoClass(org, typeMap) == Vivo(typeMap[org.alias])
    ensures IsDivision(org.orgType) && org.alias !in typeMap ==>
      VivoClass(org, typeMap) == Vivo("Division")
    ensures !IsDivision(org.orgType) && !IsRootOrSchool(org.orgType) && org.alias !in typeMap ==>
      VivoClass(org, typeMap) == Vivo("Department")
  {
  }

  /** The ROOT and a SCHOOL are classed without consulting the map; every
      other organization is classed by the map alone wherever it has the alias. */
  lemma VivoClassUsesMapOnlyBelowSchools(org: Organization, m1: map<string, string>, m2: map<string, string>)
    ensures IsRootOrSchool(org.orgType) ==> VivoClass(org, m1) == VivoClass(org, m2)
    ensures !IsRootOrSchool(org.orgType) && org.alias in m1 && org.alias in m2 ==>
      (VivoClass(org, m1) == VivoClass(org, m2) <==> m1[org.alias] == m2[org.alias])
  {
  }

  // ---------------------------------------------------------------------
  // Subject and parent
  // ---------------------------------------------------------------------

  /** The subject of an organization: the RIALTO organizations prefix
      followed by the alias. */
  function Subject(ns: Namespaces, alias: string): (r: string)
    ensures |r| == |ns.rialtoOrganizations| + |alias|
    ensures r[..|ns.rialtoOrganizations|] == ns.rialtoOrganizations
    ensures r[|ns.rialtoOrganizations|..] == alias
  {
    ns.rialtoOrganizations + alias
  }

  /** The alias a subject was made from. */
  function AliasOf(ns: Namespaces, subject: string): string
    requires |ns.rialtoOrganizations| <= |subject|
  {
    subject[|ns.rialtoOrganizations|..]
  }

  /** Round trip: the alias can be read back from the subject. */
  lemma AliasOfSubject(ns: Namespaces, alias: string)
    ensures AliasOf(ns, Subject(ns, alias)) == alias
  {
  }

  /** The same alias always gives the same subject, and different aliases
      give different subjects. */
  lemma SubjectInjective(ns: Namespaces, a: string, b: string)
    ensures Subject(ns, a) == Subject(ns, b) <==> a == b
  {
    if Subject(ns, a) == Subject(ns, b) {
      AliasOfSubject(ns, a);
      AliasOfSubject(ns, b);
    }
  }

  /** The BFO_0000050 rule: the parent's subject when a parent alias is
      present, otherwise nothing. */
  function ParentValues(ns: Namespaces, org: Organization): (r: seq<Value>)
    ensures |r| <= 1
    ensures |r| == 1 <==> org.parent.Some? && org.parent.value.alias.Some?
    ensures |r| == 1 ==> r[0] == Iri(Subject(ns, org.parent.value.alias.value))
  {
    if org.parent.Some? && org.parent.value.alias.Some? then
      [Iri(Subject(ns, org.parent.value.alias.value))]
    else
      []
  }

  /** The dc:identifier rule: the record's org codes, as one value. */
  function CodeValues(org: Organization): (r: seq<Value>)
    ensures |r| <= 1
    ensures |r| == 1 <==> org.orgCodes.Some?
    ensures |r| == 1 ==> r[0] == Codes(org.orgCodes.value)
  {
    if org.orgCodes.Some? then [Codes(org.orgCodes.value)] else []
  }

  // ---------------------------------------------------------------------
  // The rule table
  // ---------------------------------------------------------------------

  /** `r` is `h` with `accum` added under the new key `k`: the key goes
      last in the order, unless the accumulator is empty. */
  ghost predicate Added(h: OutputHash, r: OutputHash, k: Key, accum: seq<Value>) {
    && r.order == h.order + (if accum == [] then [] else [k])
    && (forall x :: x != k ==> (x in r.fields <==> x in h.fields) && (x in h.fields ==> r.fields[x] == h.fields[x]))
    && (k in r.fields <==> accum != [])
    && (accum != [] ==> r.fields[k] == accum)
  }

  /** A rule's step on a key no earlier rule wrote. */
  lemma AccumulateFresh(h: OutputHash, k: Key, accum: seq<Value>)
    requires ValidHash(h) && k !in h.fields
    ensures ValidHash(Accumulate(h, k, accum))
    ensures Added(h, Accumulate(h, k, accum), k, accum)
  {
  }

  /** What each rule computes for one record, before it is accumulated. */
  datatype RuleResults = RuleResults(
    graph: seq<Value>,
    id: seq<Value>,
    types: seq<Value>,
    labels: seq<Value>,
    codes: seq<Value>,
    parent: seq<Value>)

  /** The rule results of one organization record: the `@graph`, `@id`
      and `@type` rules, the two label rules, the dc:identifier rule and the
      BFO_0000050 parent rule. */
  function Results(ns: Namespaces, typeMap: map<string, string>, org: Organization): RuleResults {
    RuleResults([Text(ns.stanfordOrganizationsGraph)], [Iri(Subject(ns, org.alias))],
                [Iri(FoafAgent), Iri(FoafOrganization), Iri(VivoClass(org, typeMap))],
                [Text(ContextualizedOrgName(org))], CodeValues(org), ParentValues(ns, org))
  }

  /** The graph, the subject and the types. */
  function SubjectRules(h: OutputHash, rr: RuleResults): OutputHash {
    var h := Accumulate(h, Set(AtGraph), rr.graph);
    var h := Accumulate(h, Set(AtId), rr.id);
    Accumulate(h, Set(AtType), rr.types)
  }

  /** A term's rule after the rule of its "!" flag. */
  function ClearedRule(h: OutputHash, t: Term, accum: seq<Value>): OutputHash {
    Accumulate(Accumulate(h, Clear(t), [Flag(true)]), Set(t), accum)
  }

  /** The two labels, each after its clear flag. */
  function LabelRules(h: OutputHash, rr: RuleResults): OutputHash {
    ClearedRule(ClearedRule(h, PrefLabel, rr.labels), RdfsLabel, rr.labels)
  }

  /** The rules of the configuration, applied in order to an empty hash. */
  function ApplyRules(rr: RuleResults): OutputHash {
    ClearedRule(ClearedRule(LabelRules(SubjectRules(EmptyHash, rr), rr), DcIdentifier, rr.codes), PartOf, rr.parent)
  }

  /** The output hash of one organization record. */
  function MapOrganization(ns: Namespaces, typeMap: map<string, string>, org: Organization): OutputHash {
    ApplyRules(Results(ns, typeMap, org))
  }

  /** `r` is `h` with the graph, subject and type keys added by their rules. */
  ghost predicate SubjectStep(h: OutputHash, r: OutputHash, rr: RuleResults) {
      && r.order == h.order + (if rr.graph == [] then [] else [Set(AtGraph)])
                            + (if rr.id == [] then [] else [Set(AtId)])
                            + (if rr.types == [] then [] else [Set(AtType)])
      && (forall k :: k != Set(AtGraph) && k != Set(AtId) && k != Set(AtType) ==>
            (k in r.fields <==> k in h.fields) && (k in h.fields ==> r.fields[k] == h.fields[k]))
      && (Set(AtGraph) in r.fields <==> rr.graph != []) && (rr.graph != [] ==> r.fields[Set(AtGraph)] == rr.graph)
      && (Set(AtId) in r.fields <==> rr.id != []) && (rr.id != [] ==> r.fields[Set(AtId)] == rr.id)
      && (Set(AtType) in r.fields <==> rr.types != []) && (rr.types != [] ==> r.fields[Set(AtType)] == rr.types)
  }

  lemma SubjectRulesFresh(h: OutputHash, rr: RuleResults)
    requires ValidHash(h) && Set(AtGraph) !in h.fields && Set(AtId) !in h.fields && Set(AtType) !in h.fields
    ensures ValidHash(SubjectRules(h, rr))
    ensures SubjectStep(h, SubjectRules(h, rr), rr)
  {
    var h1 := Accumulate(h, Set(AtGraph), rr.graph);
    AccumulateFresh(h, Set(AtGraph), rr.graph);
    var h2 := Accumulate(h1, Set(AtId), rr.id);
    AccumulateFresh(h1, Set(AtId), rr.id);
    AccumulateFresh(h2, Set(AtType), rr.types);
  }

  /** `r` is `h` with the flag of term `t` and then `accum` under `t` added. */
  ghost predicate ClearedStep(h: OutputHash, r: OutputHash, t: Term, accum: seq<Value>) {
      && r.order == h.order + [Clear(t)] + (if accum == [] then [] else [Set(t)])
      && (forall k :: k != Clear(t) && k != Set(t) ==>
            (k in r.fields <==> k in h.fields) && (k in h.fields ==> r.fields[k] == h.fields[k]))
      && Clear(t) in r.fields && r.fields[Clear(t)] == [Flag(true)]
      && (Set(t) in r.fields <==> accum != [])
      && (accum != [] ==> r.fields[Set(t)] == accum)
  }

  lemma ClearedRuleFresh(h: OutputHash, t: Term, accum: seq<Value>)
    requires ValidHash(h) && Clear(t) !in h.fields && Set(t) !in h.fields
    ensures ValidHash(ClearedRule(h, t, accum))
    ensures ClearedStep(h, ClearedRule(h, t, accum), t, accum)
  {
    var h1 := Accumulate(h, Clear(t), [Flag(true)]);
    AccumulateFresh(h, Clear(t), [Flag(true)]);
    AccumulateFresh(h1, Set(t), accum);
  }

  /** `r` is `h` with the two labels and their flags added. */
  ghost predicate LabelStep(h: OutputHash, r: OutputHash, rr: RuleResults) {
      && r.order == h.order + [Clear(PrefLabel), Set(PrefLabel), Clear(RdfsLabel), Set(RdfsLabel)]
      && (forall k :: k != Clear(PrefLabel) && k != Set(PrefLabel) && k != Clear(RdfsLabel) && k != Set(RdfsLabel) ==>
            (k in r.fields <==> k in h.fields) && (k in h.fields ==> r.fields[k] == h.fields[k]))
      && Clear(PrefLabel) in r.fields && r.fields[Clear(PrefLabel)] == [Flag(true)]
      && Set(PrefLabel) in r.fields && r.fields[Set(PrefLabel)] == rr.labels
      && Clear(RdfsLabel) in r.fields && r.fields[Clear(RdfsLabel)] == [Flag(true)]
      && Set(RdfsLabel) in r.fields && r.fields[Set(RdfsLabel)] == rr.labels
  }

  /** Two cleared rules, one after the other, are the label step. */
  lemma LabelSteps(h: OutputHash, h1: OutputHash, r: OutputHash, rr: RuleResults)
    requires rr.labels != []
    requires ClearedStep(h, h1, PrefLabel, rr.labels) && ClearedStep(h1, r, RdfsLabel, rr.labels)
    ensures LabelStep(h, r, rr)
  {
    assert h.order + [Clear(PrefLabel)] + [Set(PrefLabel)] + [Clear(RdfsLabel)] + [Set(RdfsLabel)]
        == h.order + [Clear(PrefLabel), Set(PrefLabel), Clear(RdfsLabel), Set(RdfsLabel)];
  }

  lemma LabelRulesFresh(h: OutputHash, rr: RuleResults)
    requires ValidHash(h)
    requires Clear(PrefLabel) !in h.fields && Set(PrefLabel) !in h.fields
    requires Clear(RdfsLabel) !in h.fields && Set(RdfsLabel) !in h.fields
    requires rr.labels != []
    ensures ValidHash(LabelRules(h, rr))
    ensures LabelStep(h, LabelRules(h, rr), rr)
  {
    var h1 := ClearedRule(h, PrefLabel, rr.labels);
    ClearedRuleFresh(h, PrefLabel, rr.labels);
    ClearedRuleFresh(h1, RdfsLabel, rr.labels);
    LabelSteps(h, h1, LabelRules(h, rr), rr);
  }

  /** The terms cleared before being set. */
  predicate Cleared(t: Term) {
    t == PrefLabel || t == RdfsLabel || t == DcIdentifier || t == PartOf
  }

  /** What the rules accumulate under each key: the rule results under the
      terms, the flag `true` under the cleared terms' flags, and nothing
      under the other flags. */
  function KeyValues(rr: RuleResults, k: Key): seq<Value> {
    match k
    case Set(AtGraph) => rr.graph
    case Set(AtId) => rr.id
    case Set(AtType) => rr.types
    case Set(PrefLabel) => rr.labels
    case Set(RdfsLabel) => rr.labels
    case Set(DcIdentifier) => rr.codes
    case Set(PartOf) => rr.parent
    case Clear(t) => if Cleared(t) then [Flag(true)] else []
  }

  /** The first eight rules always accumulate a value, so their keys come
      first, in rule order. */
  function FixedKeys(): seq<Key> {
    [Set(AtGraph), Set(AtId), Set(AtType),
     Clear(PrefLabel), Set(PrefLabel), Clear(RdfsLabel), Set(RdfsLabel), Clear(DcIdentifier)]
  }

  /** One key through the four groups of rules. */
  lemma ComposeKey(h1: OutputHash, h2: OutputHash, h3: OutputHash, h4: OutputHash, rr: RuleResults, k: Key)
    requires rr.graph != [] && rr.id != [] && rr.types != [] && rr.labels != []
    requires SubjectStep(EmptyHash, h1, rr) && LabelStep(h1, h2, rr)
    requires ClearedStep(h2, h3, DcIdentifier, rr.codes) && ClearedStep(h3, h4, PartOf, rr.parent)
    ensures k in h4.fields <==> KeyValues(rr, k) != []
    ensures k in h4.fields ==> h4.fields[k] == KeyValues(rr, k)
  {
    if k.Set? {
      ComposeSetKey(h1, h2, h3, h4, rr, k.term);
    } else {
      ComposeClearKey(h1, h2, h3, h4, rr, k.term);
    }
  }

  /** A term's key through the four groups of rules. */
  lemma ComposeSetKey(h1: OutputHash, h2: OutputHash, h3: OutputHash, h4: OutputHash, rr: RuleResults, t: Term)
    requires rr.graph != [] && rr.id != [] && rr.types != [] && rr.labels != []
    requires SubjectStep(EmptyHash, h1, rr) && LabelStep(h1, h2, rr)
    requires ClearedStep(h2, h3, DcIdentifier, rr.codes) && ClearedStep(h3, h4, PartOf, rr.parent)
    ensures Set(t) in h4.fields <==> KeyValues(rr, Set(t)) != []
    ensures Set(t) in h4.fields ==> h4.fields[Set(t)] == KeyValues(rr, Set(t))
  {
    match t
    case AtGraph =>
    case AtId =>
    case AtType =>
    case PrefLabel =>
    case RdfsLabel =>
    case DcIdentifier =>
    case PartOf =>
  }

  /** A flag's key through the four groups of rules. */
  lemma ComposeClearKey(h1: OutputHash, h2: OutputHash, h3: OutputHash, h4: OutputHash, rr: RuleResults, t: Term)
    requires rr.graph != [] && rr.id != [] && rr.types != [] && rr.labels != []
    requires SubjectStep(EmptyHash, h1, rr) && LabelStep(h1, h2, rr)
    requires ClearedStep(h2, h3, DcIdentifier, rr.codes) && ClearedStep(h3, h4, PartOf, rr.parent)
    ensures Clear(t) in h4.fields <==> KeyValues(rr, Clear(t)) != []
    ensures Clear(t) in h4.fields ==> h4.fields[Clear(t)] == KeyValues(rr, Clear(t))
  {
    if t == PartOf {
    } else if t == DcIdentifier {
      ClearedFrame(h3, h4, PartOf, rr.parent, Clear(t));
    } else {
      ClearedFrame(h3, h4, PartOf, rr.parent, Clear(t));
      ClearedFrame(h2, h3, DcIdentifier, rr.codes, Clear(t));
      if t != PrefLabel && t != RdfsLabel {
        assert Clear(t) !in h1.fields;
        assert Clear(t) !in h2.fields;
      }
    }
  }

  /** A cleared rule leaves every other key as it was. */
  lemma ClearedFrame(h: OutputHash, r: OutputHash, t: Term, accum: seq<Value>, k: Key)
    requires ClearedStep(h, r, t, accum) && k != Clear(t) && k != Set(t)
    ensures k in r.fields <==> k in h.fields
    ensures k in h.fields ==> r.fields[k] == h.fields[k]
  {
  }

  /** The keys of the subject and label rules, in order. */
  lemma LabelOrder(h1: OutputHash, h2: OutputHash, rr: RuleResults)
    requires rr.graph != [] && rr.id != [] && rr.types != []
    requires SubjectStep(EmptyHash, h1, rr) && LabelStep(h1, h2, rr)
    ensures h2.order == FixedKeys()[..7]
  {
    assert h1.order == [Set(AtGraph), Set(AtId), Set(AtType)];
  }

  /** The keys of the four groups of rules, in order. */
  lemma ComposeOrder(h1: OutputHash, h2: OutputHash, h3: OutputHash, h4: OutputHash, rr: RuleResults)
    requires rr.graph != [] && rr.id != [] && rr.types != [] && rr.labels != []
    requires SubjectStep(EmptyHash, h1, rr) && LabelStep(h1, h2, rr)
    requires ClearedStep(h2, h3, DcIdentifier, rr.codes) && ClearedStep(h3, h4, PartOf, rr.parent)
    ensures h4.order ==
      FixedKeys() + (if rr.codes == [] then [] else [Set(DcIdentifier)])
      + [Clear(PartOf)] + (if rr.parent == [] then [] else [Set(PartOf)])
  {
    LabelOrder(h1, h2, rr);
    if rr.codes == [] {
      assert h3.order == FixedKeys();
    } else {
      assert h3.order == FixedKeys() + [Set(DcIdentifier)];
    }
  }

  /** The four groups of rules, one after the other. */
  lemma ComposeSteps(h1: OutputHash, h2: OutputHash, h3: OutputHash, h4: OutputHash, rr: RuleResults)
    requires rr.graph != [] && rr.id != [] && rr.types != [] && rr.labels != []
    requires SubjectStep(EmptyHash, h1, rr) && LabelStep(h1, h2, rr)
    requires ClearedStep(h2, h3, DcIdentifier, rr.codes) && ClearedStep(h3, h4, PartOf, rr.parent)
    ensures h4.order ==
      FixedKeys() + (if rr.codes == [] then [] else [Set(DcIdentifier)])
      + [Clear(PartOf)] + (if rr.parent == [] then [] else [Set(PartOf)])
    ensures forall k :: k in h4.fields <==> KeyValues(rr, k) != []
    ensures forall k :: k in h4.fields ==> h4.fields[k] == KeyValues(rr, k)
  {
    ComposeOrder(h1, h2, h3, h4, rr);
    forall k
      ensures (k in h4.fields <==> KeyValues(rr, k) != [])
      ensures k in h4.fields ==> h4.fields[k] == KeyValues(rr, k)
    {
      ComposeKey(h1, h2, h3, h4, rr, k);
    }
  }

  /** No group of rules writes a key of a later group. */
  lemma LaterKeysAbsent(h1: OutputHash, h2: OutputHash, h3: OutputHash, rr: RuleResults)
    requires SubjectStep(EmptyHash, h1, rr) && LabelStep(h1, h2, rr)
    ensures Clear(DcIdentifier) !in h2.fields && Set(DcIdentifier) !in h2.fields
    ensures Clear(PartOf) !in h2.fields && Set(PartOf) !in h2.fields
    ensures ClearedStep(h2, h3, DcIdentifier, rr.codes) ==> Clear(PartOf) !in h3.fields && Set(PartOf) !in h3.fields
  {
  }

  /** The label rules, after the subject rules. */
  lemma LabelGroup(h1: OutputHash, rr: RuleResults)
    requires SubjectStep(EmptyHash, h1, rr) && ValidHash(h1) && rr.labels != []
    ensures LabelStep(h1, LabelRules(h1, rr), rr) && ValidHash(LabelRules(h1, rr))
  {
    SubjectStepKeys(h1, rr);
    LabelRulesFresh(h1, rr);
  }

  /** The subject rules write no key of the label rules. */
  lemma SubjectStepKeys(h1: OutputHash, rr: RuleResults)
    requires SubjectStep(EmptyHash, h1, rr)
    ensures Clear(PrefLabel) !in h1.fields && Set(PrefLabel) !in h1.fields
    ensures Clear(RdfsLabel) !in h1.fields && Set(RdfsLabel) !in h1.fields
  {
  }

  /** The codes rule, then the parent rule, after the label rules. */
  lemma LastGroups(h1: OutputHash, h2: OutputHash, rr: RuleResults)
    requires SubjectStep(EmptyHash, h1, rr) && LabelStep(h1, h2, rr) && ValidHash(h2)
    ensures var h3 := ClearedRule(h2, DcIdentifier, rr.codes);
      && ClearedStep(h2, h3, DcIdentifier, rr.codes)
      && ClearedStep(h3, ClearedRule(h3, PartOf, rr.parent), PartOf, rr.parent)
      && ValidHash(ClearedRule(h3, PartOf, rr.parent))
  {
    var h3 := ClearedRule(h2, DcIdentifier, rr.codes);
    LaterKeysAbsent(h1, h2, h3, rr);
    ClearedRuleFresh(h2, DcIdentifier, rr.codes);
    ClearedRuleFresh(h3, PartOf, rr.parent);
  }

  /** The whole output hash of the rule table: the keys in rule order, a key
      whose rule accumulated nothing left out, each key with its rule's values. */
  lemma ApplyRulesContents(rr: RuleResults)
    requires rr.graph != [] && rr.id != [] && rr.types != [] && rr.labels != []
    ensures ValidHash(ApplyRules(rr))
    ensures ApplyRules(rr).order ==
      FixedKeys() + (if rr.codes == [] then [] else [Set(DcIdentifier)])
      + [Clear(PartOf)] + (if rr.parent == [] then [] else [Set(PartOf)])
    ensures forall k :: k in ApplyRules(rr).fields <==> KeyValues(rr, k) != []
    ensures forall k :: k in ApplyRules(rr).fields ==> ApplyRules(rr).fields[k] == KeyValues(rr, k)
  {
    var h1 := SubjectRules(EmptyHash, rr);
    var h2 := LabelRules(h1, rr);
    var h3 := ClearedRule(h2, DcIdentifier, rr.codes);
    SubjectRulesFresh(EmptyHash, rr);
    LabelGroup(h1, rr);
    LastGroups(h1, h2, rr);
    ComposeSteps(h1, h2, h3, ApplyRules(rr), rr);
  }

  /** One key of the rule table's output hash. */
  lemma ApplyRulesKey(rr: RuleResults, k: Key)
    requires rr.graph != [] && rr.id != [] && rr.types != [] && rr.labels != []
    ensures k in ApplyRules(rr).fields <==> KeyValues(rr, k) != []
    ensures k in ApplyRules(rr).fields ==> ApplyRules(rr).fields[k] == KeyValues(rr, k)
  {
    ApplyRulesContents(rr);
  }

  /** One key of an organization's output hash: present exactly when its
      rule accumulated something, and then holding what the rule accumulated. */
  lemma MapOrganizationKey(ns: Namespaces, typeMap: map<string, string>, org: Organization, k: Key)
    ensures var out := MapOrganization(ns, typeMap, org).fields;
      && (k in out <==> KeyValues(Results(ns, typeMap, org), k) != [])
      && (k in out ==> out[k] == KeyValues(Results(ns, typeMap, org), k))
  {
    ApplyRulesKey(Results(ns, typeMap, org), k);
  }

  // ---------------------------------------------------------------------
  // The output hash of one organization record
  // ---------------------------------------------------------------------

  /** The keys of an organization's output hash, in rule order: the org
      codes only when the record has them and the parent link only when the
      parent has an alias. */
  lemma MapOrganizationOrder(ns: Namespaces, typeMap: map<string, string>, org: Organization)
    ensures ValidHash(MapOrganization(ns, typeMap, org))
    ensures MapOrganization(ns, typeMap, org).order ==
      [Set(AtGraph), Set(AtId), Set(AtType),
       Clear(PrefLabel), Set(PrefLabel), Clear(RdfsLabel), Set(RdfsLabel), Clear(DcIdentifier)]
      + (if org.orgCodes.Some? then [Set(DcIdentifier)] else [])
      + [Clear(PartOf)]
      + (if org.parent.Some? && org.parent.value.alias.Some? then [Set(PartOf)] else [])
  {
    ApplyRulesContents(Results(ns, typeMap, org));
  }

  /** The graph and the subject: one value each, the graph's name and the
      alias's subject. */
  lemma MapOrganizationSubject(ns: Namespaces, typeMap: map<string, string>, org: Organization)
    ensures var out := MapOrganization(ns, typeMap, org).fields;
      && Set(AtGraph) in out && out[Set(AtGraph)] == [Text(ns.stanfordOrganizationsGraph)]
      && Set(AtId) in out && out[Set(AtId)] == [Iri(Subject(ns, org.alias))]
  {
    MapOrganizationKey(ns, typeMap, org, Set(AtGraph));
    MapOrganizationKey(ns, typeMap, org, Set(AtId));
  }

  /** The types: FOAF Agent, FOAF Organization and the VIVO class, in order. */
  lemma MapOrganizationTypes(ns: Namespaces, typeMap: map<string, string>, org: Organization)
    ensures var out := MapOrganization(ns, typeMap, org).fields;
      && Set(AtType) in out
      && out[Set(AtType)] == [Iri(FoafAgent), Iri(FoafOrganization), Iri(VivoClass(org, typeMap))]
  {
    MapOrganizationKey(ns, typeMap, org, Set(AtType));
  }

  /** Both labels: exactly one value each, the same contextualized name. */
  lemma MapOrganizationLabels(ns: Namespaces, typeMap: map<string, string>, org: Organization)
    ensures var out := MapOrganization(ns, typeMap, org).fields;
      && Set(PrefLabel) in out && out[Set(PrefLabel)] == [Text(ContextualizedOrgName(org))]
      && Set(RdfsLabel) in out && out[Set(RdfsLabel)] == [Text(ContextualizedOrgName(org))]
  {
    MapOrganizationKey(ns, typeMap, org, Set(PrefLabel));
    MapOrganizationKey(ns, typeMap, org, Set(RdfsLabel));
  }

  /** The org codes: present exactly when the record has them, and then all
      of them as one value. */
  lemma MapOrganizationCodes(ns: Namespaces, typeMap: map<string, string>, org: Organization)
    ensures var out := MapOrganization(ns, typeMap, org).fields;
      && (Set(DcIdentifier) in out <==> org.orgCodes.Some?)
      && (org.orgCodes.Some? ==> Set(DcIdentifier) in out && out[Set(DcIdentifier)] == [Codes(org.orgCodes.value)])
  {
    MapOrganizationKey(ns, typeMap, org, Set(DcIdentifier));
  }

  /** The parent link: present exactly when the parent has an alias, and
      then the parent's subject. */
  lemma MapOrganizationParent(ns: Namespaces, typeMap: map<string, string>, org: Organization)
    ensures var out := MapOrganization(ns, typeMap, org).fields;
      && (Set(PartOf) in out <==> org.parent.Some? && org.parent.value.alias.Some?)
      && (org.parent.Some? && org.parent.value.alias.Some? ==>
            Set(PartOf) in out && out[Set(PartOf)] == [Iri(Subject(ns, org.parent.value.alias.value))])
  {
    MapOrganizationKey(ns, typeMap, org, Set(PartOf));
  }

  /** The "!" flags: each cleared term has exactly the flag `true`, and no
      other term (the graph, the subject, the types) has a flag. */
  lemma MapOrganizationClearFlags(ns: Namespaces, typeMap: map<string, string>, org: Organization)
    ensures var out := MapOrganization(ns, typeMap, org).fields;
      forall t: Term :: (Clear(t) in out <==> Cleared(t)) && (Cleared(t) ==> Clear(t) in out && out[Clear(t)] == [Flag(true)])
  {
    forall t: Term
      ensures var out := MapOrganization(ns, typeMap, org).fields;
        (Clear(t) in out <==> Cleared(t)) && (Cleared(t) ==> Clear(t) in out && out[Clear(t)] == [Flag(true)])
    {
      MapOrganizationKey(ns, typeMap, org, Clear(t));
    }
  }

  // ---------------------------------------------------------------------
  // Scenarios
  // ---------------------------------------------------------------------

  /** A name that needs no context is kept as it is. */
  lemma PlainNameScenario()
    ensures ContextualizedOrgName(Organization("dlss", "Digital Library Support and Services", None, None, None))
            == "Digital Library Support and Services"
  {
  }

  /** "Financial Aid" under the School of Business is told apart by its
      parent's name. */
  lemma ContextualizedNameScenario()
    ensures ContextualizedOrgName(Organization("fa", "Financial Aid", None, None,
                                               Some(Parent(None, Some("School of Business")))))
            == "Financial Aid (School of Business)"
  {
    var org := Organization("fa", "Financial Aid", None, None, Some(Parent(None, Some("School of Business"))));
    assert org.name in OrgsNeedingContext by {
      assert OrgsNeedingContext[3] == "Financial Aid";
    }
    assert ContextualizedOrgName(org) == "Financial Aid" + " (" + "School of Business" + ")";
  }

  /** The Stanford root: classed as a University whatever the departments
      map says, labelled with its own name, with its org code and no parent
      link. */
  lemma StanfordRootScenario(ns: Namespaces, typeMap: map<string, string>)
    ensures var org := Organization("stanford", "Stanford University", Some("ROOT"), Some(["AA00"]), None);
      var out := MapOrganization(ns, typeMap, org).fields;
      && Set(AtType) in out && out[Set(AtType)] == [Iri(FoafAgent), Iri(FoafOrganization), Iri(Vivo("University"))]
      && Set(PrefLabel) in out && out[Set(PrefLabel)] == [Text("Stanford University")]
      && Set(AtId) in out && out[Set(AtId)] == [Iri(ns.rialtoOrganizations + "stanford")]
      && Set(DcIdentifier) in out && out[Set(DcIdentifier)] == [Codes(["AA00"])]
      && Set(PartOf) !in out
  {
    var org := Organization("stanford", "Stanford University", Some("ROOT"), Some(["AA00"]), None);
    MapOrganizationTypes(ns, typeMap, org);
    MapOrganizationLabels(ns, typeMap, org);
    MapOrganizationSubject(ns, typeMap, org);
    MapOrganizationParent(ns, typeMap, org);
    MapOrganizationCodes(ns, typeMap, org);
  }

  /** An alias the departments map classes as an Institute is an Institute
      whether the record says DEPARTMENT or DIVISION. */
  lemma InstituteScenario(typeMap: map<string, string>, alias: string, name: string, orgType: string)
    requires alias in typeMap && typeMap[alias] == "Institute"
    requires orgType == "DEPARTMENT" || orgType == "DIVISION"
    ensures VivoClass(Organization(alias, name, Some(orgType), None, None), typeMap) == Vivo("Institute")
  {
  }
}
