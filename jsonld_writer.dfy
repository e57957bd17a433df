/**
 * The JSON-LD writer: a Traject writer that keeps the output hash of every
 * mapped record in memory and, on close, prints one JSON-LD document whose
 * `@context` is the context object from the settings and whose `@graph` is
 * the list of records, in the order they were put.
 */
module JsonldWriters {
  import opened Wrappers

  /** A JSON value; an object keeps its members in insertion order, as a
      Ruby hash does. */
  datatype Json =
    | Null
    | Bool(b: bool)
    | Str(s: string)
    | Arr(items: seq<Json>)
    | Obj(members: seq<(string, Json)>)

  /** The value of the first member of an object named `key`, as Ruby's
      `Hash#[]` finds it; nothing for a missing key or a non-object. */
  function Get(j: Json, key: string): (r: Option<Json>)
    ensures j.Obj? && r.Some? ==>
      exists i :: 0 <= i < |j.members| && j.members[i] == (key, r.value) &&
        forall k :: 0 <= k < i ==> j.members[k].0 != key
    ensures j.Obj? && r.None? ==> forall i :: 0 <= i < |j.members| ==> j.members[i].0 != key
    ensures !j.Obj? ==> r.None?
    decreases if j.Obj? then |j.members| else 0
  {
    if !j.Obj? || j.members == [] then None
    else if j.members[0].0 == key then Some(j.members[0].1)
    else
      var r := Get(Obj(j.members[1..]), key);
      assert r.Some? ==> j.members[1..][0] == j.members[1];
      r
  }

  /** The names of an object's members, in order. */
  function Keys(j: Json): (r: seq<string>)
    ensures j.Obj? ==> |r| == |j.members| && forall i :: 0 <= i < |r| ==> r[i] == j.members[i].0
    ensures !j.Obj? ==> r == []
  {
    if j.Obj? then seq(|j.members|, i requires 0 <= i < |j.members| => j.members[i].0) else []
  }

  /** The settings key of the JSON-LD context object. */
  const ContextObjectKey: string := "context_object"

  /** The context object from the settings; an absent setting reads as nil,
      which prints as JSON `null`. */
  function ContextObject(settings: map<string, Json>): (r: Json)
    ensures ContextObjectKey in settings ==> r == settings[ContextObjectKey]
    ensures ContextObjectKey !in settings ==> r == Null
  {
    if ContextObjectKey in settings then settings[ContextObjectKey] else Null
  }

  /** The Traject context of one mapped record; the writer reads only its
      output hash. */
  datatype Context = Context(outputHash: Json)

  class JsonldWriter {
    /** The Traject settings. */
    const settings: map<string, Json>
    /** The output hashes put so far, oldest first. */
    var records: seq<Json>

    /** A new writer holds no records. */
    constructor (settings: map<string, Json>)
      ensures this.settings == settings
      ensures records == []
    {
      this.settings := settings;
      records := [];
    }

    /** Appends the output hash of one mapped record to the records held
        in memory. */
    method Put(context: Context)
      modifies this`records
      ensures records == old(records) + [context.outputHash]
      ensures Get(BuildObject(), "@graph") == Some(Arr(old(records) + [context.outputHash]))
    {
      records := records + [context.outputHash];
    }

    /** The document `close` prints: an object with exactly the members
        `@context`, holding the context object of the settings, and
        `@graph`, holding every record put so far, in order. */
    function BuildObject(): (r: Json)
      reads this
      ensures Keys(r) == ["@context", "@graph"]
      ensures Get(r, "@context") == Some(ContextObject(settings))
      ensures Get(r, "@graph") == Some(Arr(records))
    {
      Obj([("@context", ContextObject(settings)), ("@graph", Arr(records))])
    }
  }

  /** The records of a document: the items of its `@graph` array. */
  function Graph(doc: Json): (r: seq<Json>)
    ensures Get(doc, "@graph").Some? && Get(doc, "@graph").value.Arr? ==> r == Get(doc, "@graph").value.items
    ensures Get(doc, "@graph").None? ==> r == []
  {
    match Get(doc, "@graph")
    case Some(Arr(items)) => items
    case _ => []
  }

  /** Round trip: the records can be read back from the document in the
      order they were put, whatever the settings hold. */
  lemma GraphOfBuildObject(w: JsonldWriter)
    ensures Graph(w.BuildObject()) == w.records
  {
  }

  /** The output hashes of a run of contexts, in order. */
  function OutputHashes(cs: seq<Context>): (r: seq<Json>)
    ensures |r| == |cs|
    ensures forall j :: 0 <= j < |cs| ==> r[j] == cs[j].outputHash
  {
    seq(|cs|, j requires 0 <= j < |cs| => cs[j].outputHash)
  }

  /** Traject's loop over the mapped records: one `put` per record, in
      order. The records put before are kept, and the new ones follow them
      in call order. */
  method Puts(w: JsonldWriter, cs: seq<Context>)
    modifies w`records
    ensures w.records == old(w.records) + OutputHashes(cs)
  {
    var i := 0;
    while i < |cs|
      invariant 0 <= i <= |cs|
      invariant w.records == old(w.records) + OutputHashes(cs[..i])
    {
      assert OutputHashes(cs[..i + 1]) == OutputHashes(cs[..i]) + [cs[i].outputHash];
      w.Put(cs[i]);
      i := i + 1;
    }
    assert cs[..i] == cs;
  }

  /** Traject's use of a writer: a new writer, one `put` per mapped record,
      then the document `close` prints. The document holds the records in
      the order they were put, and the configured context. */
  method WriteRecords(settings: map<string, Json>, cs: seq<Context>) returns (doc: Json)
    ensures Graph(doc) == OutputHashes(cs)
    ensures |Graph(doc)| == |cs| && forall j :: 0 <= j < |cs| ==> Graph(doc)[j] == cs[j].outputHash
    ensures Get(doc, "@context") == Some(ContextObject(settings))
    ensures Keys(doc) == ["@context", "@graph"]
  {
    var writer := new JsonldWriter(settings);
    Puts(writer, cs);
    assert writer.records == OutputHashes(cs);
    doc := writer.BuildObject();
    GraphOfBuildObject(writer);
  }

  /** A writer that was never given a record prints an empty graph. */
  method WriteNothing(settings: map<string, Json>) returns (doc: Json)
    ensures Graph(doc) == []
    ensures Get(doc, "@graph") == Some(Arr([]))
  {
    var writer := new JsonldWriter(settings);
    doc := writer.BuildObject();
  }
}
