# rialto-etl core, modelled in Dafny

This project models three in-memory pieces of the RIALTO extract-transform-load
pipeline and proves properties of them.

- **The SPARQL statement reader** (`SparqlStatementReader#each`). It reads
  SPARQL update statements from an input stream, line by line. A statement
  may span several lines and is complete when the accumulated text ends with
  `";\n"`. Complete statements are buffered. The buffer is yielded as one
  chunk after each `INSERT`, so a `DELETE` is never yielded before the next
  `INSERT` and travels with it in one chunk. Statements after the last
  `INSERT` are never yielded. With the `sparql_statement_reader.by_statement` setting
  every statement is yielded on its own. The reader counts the `INSERT`
  statements it reads. Reading uses the stream up, so a second `each`
  yields nothing.
  - `statement_text.dfy` holds the text helpers.
  - `statement_batching.dfy` holds the specification, in two stages: lines
    to statements (`Scan`), then statements to batches (`Batch`).
  - `sparql_statement_reader.dfy` holds the reader class. Its `Each` loop
    works on the two string buffers and the counter, and is proved to yield
    exactly `Chunks(input, by_statement)`.
- **The Stanford organizations mapping** (the Traject configuration
  `stanford_organizations_to_sparql_statements.rb`), in
  `stanford_organizations.dfy`. Its rule table turns one flattened
  organization record into an output hash. The hash holds:
  - the named graph;
  - the subject;
  - the FOAF and VIVO types;
  - the contextualized labels;
  - the org codes;
  - the parent link;
  - a `"!"`-prefixed flag before each of the last four, asking for the old
    values to be cleared.

  Each rule adds its accumulator to the hash the way Traject does. An empty
  accumulator adds no key. A new key goes last in the hash's insertion order.
- **The JSON-LD writer** (`JsonldWriter`), in `jsonld_writer.dfy`. It keeps
  the output hash of every record it is given (`put`) in memory. It builds
  the document that `close` prints: the context object from the settings as
  `@context`, and the records, in order, as `@graph`.

`wrappers.dfy` holds the `Option` type that stands for Ruby's `nil`.

The input stream is a sequence of lines, as `each_line` hands them out. The
reader's settings are a map from setting names to booleans. The writer's
settings map names to JSON values.

The organizations configuration uses constants from `rialto/etl/namespaces`,
which is not part of this model: `RIALTO_ORGANIZATIONS`, `VIVO` and `OBO`
from `Rialto::Etl::Vocabs`, and `STANFORD_ORGANIZATIONS_GRAPH` from
`Rialto::Etl::NamedGraphs`. `RIALTO_ORGANIZATIONS` and
`STANFORD_ORGANIZATIONS_GRAPH` are the `Namespaces` parameter; the IRIs of
`VIVO` and `OBO` are fixed constants (see "Left out"). The `stanford_departments_to_vivo_types` translation
map is not part of this model either, and is the `typeMap` parameter. The
FOAF, SKOS, RDFS, Dublin Core, VIVO and OBO vocabularies are their
namespace IRIs followed by the local name.

Output keys are the datatype `Key` (`Set(term)` or `Clear(term)`). They are
not raw strings. `KeyName` gives the key's text, so `Clear(t)` is `"!"`
followed by the term's IRI. `KeyNameInjective` shows that distinct keys have
distinct texts, so the datatype loses nothing against the Ruby hash's string
keys.

## Model

| member | source | states |
|---|---|---|
| StatementBatching.ScanCovers | lib/rialto/etl/readers/sparql_statement_reader.rb:37-39 | lines are appended unchanged: statements read, then pending text, concatenate back to the pending text plus the input |
| StatementBatching.StatementsSplitInput | lib/rialto/etl/readers/sparql_statement_reader.rb:35-48 | the input is its complete statements, each ending with ";\n", followed by an unterminated tail that does not end with ";\n" |
| StatementBatching.StatementEndsAtFirstDelimiter | lib/rialto/etl/readers/sparql_statement_reader.rb:37-39 | a statement is the lines up to the first one after which the text ends with ";\n", and the rest is read the same way |
| StatementBatching.NoDelimiterNoStatement | lib/rialto/etl/readers/sparql_statement_reader.rb:37-39 | input in which ";\n" never closes the text yields no statement and stays whole as unterminated text |
| StatementBatching.BatchCovers | lib/rialto/etl/readers/sparql_statement_reader.rb:40-46 | the yielded batches, then the statements still buffered, are exactly the statements read, in order |
| StatementBatching.BatchCount | lib/rialto/etl/readers/sparql_statement_reader.rb:43-46 | grouped mode yields one batch per INSERT statement |
| StatementBatching.BatchShape | lib/rialto/etl/readers/sparql_statement_reader.rb:40-46 | in grouped mode each batch ends with an INSERT and holds no earlier INSERT; the statements never yielded hold no INSERT |
| StatementBatching.ByStatementBatches | lib/rialto/etl/readers/sparql_statement_reader.rb:43-46 | in by-statement mode each statement is a batch of its own, in order, and nothing stays buffered |
| StatementBatching.RegroupBatches | lib/rialto/etl/readers/sparql_statement_reader.rb:11-14 | round trip: statements written as DELETE...INSERT groups are regrouped into exactly those groups, with nothing left over |
| StatementBatching.ChunksAreComplete | lib/rialto/etl/readers/sparql_statement_reader.rb:39-45 | every yielded chunk is non-empty and ends with ";\n" |
| StatementBatching.ChunksArePrefix | lib/rialto/etl/readers/sparql_statement_reader.rb:35-48 | the input is the yielded chunks, then the buffered statements never yielded, then the unterminated tail; so the chunks are a prefix of the input; in by-statement mode nothing complete is held back |
| StatementBatching.GroupedChunks | lib/rialto/etl/readers/sparql_statement_reader.rb:40-46 | grouped mode: one chunk per INSERT; each chunk is the text of non-INSERT statements closed by one INSERT, so no DELETE is yielded alone; statements after the last INSERT are never yielded |
| StatementBatching.ByStatementChunks | lib/rialto/etl/readers/sparql_statement_reader.rb:43-46 | by-statement mode yields exactly the complete statements, one per chunk, in input order |
| StatementBatching.ScenarioStatements | lib/rialto/etl/readers/sparql_statement_reader.rb:37-47 | a two-line DELETE, an INSERT and a DELETE are read as three statements, the first joining its two lines |
| StatementBatching.ScenarioBatches | lib/rialto/etl/readers/sparql_statement_reader.rb:40-46 | grouped mode batches that DELETE with the INSERT and never flushes the trailing DELETE |
| StatementBatching.GroupedScenario | lib/rialto/etl/readers/sparql_statement_reader.rb:40-46 | grouped mode yields the first three lines as the only chunk |
| StatementBatching.ByStatementScenario | lib/rialto/etl/readers/sparql_statement_reader.rb:43-46 | by-statement mode yields all three statements, in order |
| SparqlStatementReaders.SparqlStatementReader.constructor | lib/rialto/etl/readers/sparql_statement_reader.rb:22-26 | keeps the input stream and the settings; the insert count starts at 0 |
| SparqlStatementReaders.SparqlStatementReader.Each | lib/rialto/etl/readers/sparql_statement_reader.rb:31-49 | yields exactly the chunks of the unread input for the by_statement setting, in order, adds the number of INSERT statements read to the insert count, and leaves the stream used up |
| SparqlStatementReaders.ReadTwice | lib/rialto/etl/readers/sparql_statement_reader.rb:35-48 | on one reader, the first `each` yields the chunks of the whole input and counts its INSERTs; a second `each` yields nothing and counts nothing more |
| StanfordOrganizations.KeyNameInjective | lib/rialto/etl/configs/stanford_organizations_to_sparql_statements.rb:36-80 | distinct keys have distinct texts: no "!" flag key equals a term key and no two terms share a key, so no two rules write the same key of the Ruby hash |
| StanfordOrganizations.ContextualizedOrgName | lib/rialto/etl/configs/stanford_organizations_to_sparql_statements.rb:21-26 | the result starts with the name; it is the name alone exactly when the name needs no context or there is no parent; otherwise the name is followed by " (" and the parent's name (nil reads as empty) and ")" |
| StanfordOrganizations.Translate | lib/rialto/etl/configs/stanford_organizations_to_sparql_statements.rb:49 | the translation map's value for a key it has, the default otherwise |
| StanfordOrganizations.VivoClassCases | lib/rialto/etl/configs/stanford_organizations_to_sparql_statements.rb:46-57 | ROOT is University and SCHOOL is School; DIVISION or SUB_DIVISION takes the mapped class, by default Division; any other or missing type takes the mapped class, by default Department |
| StanfordOrganizations.VivoClassUsesMapOnlyBelowSchools | lib/rialto/etl/configs/stanford_organizations_to_sparql_statements.rb:46-57 | ROOT and SCHOOL do not depend on the map; below them, where both maps have the alias, the classes agree exactly when the mapped values do |
| StanfordOrganizations.Subject | lib/rialto/etl/configs/stanford_organizations_to_sparql_statements.rb:40 | the subject is the organizations prefix followed by the alias |
| StanfordOrganizations.AliasOfSubject | lib/rialto/etl/configs/stanford_organizations_to_sparql_statements.rb:39-41 | round trip: the alias is read back from its subject |
| StanfordOrganizations.SubjectInjective | lib/rialto/etl/configs/stanford_organizations_to_sparql_statements.rb:39-41 | two aliases give the same subject exactly when they are the same alias |
| StanfordOrganizations.ParentValues | lib/rialto/etl/configs/stanford_organizations_to_sparql_statements.rb:77-80 | one value, the parent alias's subject, exactly when a parent alias is present; nothing otherwise |
| StanfordOrganizations.CodeValues | lib/rialto/etl/configs/stanford_organizations_to_sparql_statements.rb:73 | one value holding the record's org codes exactly when it has them; nothing otherwise |
| StanfordOrganizations.AccumulateFresh | lib/rialto/etl/configs/stanford_organizations_to_sparql_statements.rb:36-80 | a rule on a key no earlier rule wrote keeps the hash well formed; a non-empty accumulator adds the key last with exactly that accumulator; an empty one changes nothing |
| StanfordOrganizations.SubjectRulesFresh | lib/rialto/etl/configs/stanford_organizations_to_sparql_statements.rb:36-59 | the graph, subject and type rules add their keys in that order, each with its rule's values, and leave every other key alone |
| StanfordOrganizations.ClearedRuleFresh | lib/rialto/etl/configs/stanford_organizations_to_sparql_statements.rb:72-73 | a term's "!" flag rule and then its value rule add the flag with `true`, then the term with its values when there are any, and leave every other key alone |
| StanfordOrganizations.LabelRulesFresh | lib/rialto/etl/configs/stanford_organizations_to_sparql_statements.rb:61-69 | the label rules add flag, prefLabel, flag, rdfs:label in that order, both labels holding the same one value |
| StanfordOrganizations.ApplyRulesContents | lib/rialto/etl/configs/stanford_organizations_to_sparql_statements.rb:36-80 | the whole rule table: a well-formed hash whose keys are in rule order, a key whose rule found nothing left out, each key holding what its rule accumulated |
| StanfordOrganizations.MapOrganizationKey | lib/rialto/etl/configs/stanford_organizations_to_sparql_statements.rb:36-80 | for one record, a key is present exactly when its rule accumulated something, and then holds that |
| StanfordOrganizations.MapOrganizationOrder | lib/rialto/etl/configs/stanford_organizations_to_sparql_statements.rb:36-80 | the record's keys, in order: graph, id, type, the two labels with their flags, the codes' flag, the codes when present, the parent flag, the parent link when present |
| StanfordOrganizations.MapOrganizationSubject | lib/rialto/etl/configs/stanford_organizations_to_sparql_statements.rb:36-41 | @graph holds only the graph's name and @id only the alias's subject |
| StanfordOrganizations.MapOrganizationTypes | lib/rialto/etl/configs/stanford_organizations_to_sparql_statements.rb:44-59 | @type holds exactly FOAF Agent, FOAF Organization and the VIVO class, in that order |
| StanfordOrganizations.MapOrganizationLabels | lib/rialto/etl/configs/stanford_organizations_to_sparql_statements.rb:61-69 | skos:prefLabel and rdfs:label each hold exactly one value, the contextualized name |
| StanfordOrganizations.MapOrganizationCodes | lib/rialto/etl/configs/stanford_organizations_to_sparql_statements.rb:71-73 | dc:identifier is present exactly when the record has org codes, and then holds them |
| StanfordOrganizations.MapOrganizationParent | lib/rialto/etl/configs/stanford_organizations_to_sparql_statements.rb:75-80 | BFO_0000050 is present exactly when the parent has an alias, and then holds only the parent's subject |
| StanfordOrganizations.MapOrganizationClearFlags | lib/rialto/etl/configs/stanford_organizations_to_sparql_statements.rb:62-76 | exactly prefLabel, rdfs:label, dc:identifier and BFO_0000050 have a "!" flag, each holding only `true`; @graph, @id and @type have none |
| StanfordOrganizations.PlainNameScenario | spec/configs/stanford_organizations_to_sparql_statements_spec.rb:131-137 | "Digital Library Support and Services" is kept as it is |
| StanfordOrganizations.ContextualizedNameScenario | spec/configs/stanford_organizations_to_sparql_statements_spec.rb:139-148 | "Financial Aid" under "School of Business" becomes "Financial Aid (School of Business)" |
| StanfordOrganizations.StanfordRootScenario | spec/configs/stanford_organizations_to_sparql_statements_spec.rb:244-251 | the Stanford root, with org code "AA00", is a University under any map, labelled "Stanford University", with its subject, its org codes under dc:identifier and no parent link |
| StanfordOrganizations.InstituteScenario | spec/configs/stanford_organizations_to_sparql_statements_spec.rb:365-395 | an alias mapped to Institute is an Institute whether the record says DEPARTMENT or DIVISION |
| JsonldWriters.Get | lib/rialto/etl/writers/jsonld_writer.rb:37-42 | a member lookup finds the first member with the key, and nothing exactly when no member has it |
| JsonldWriters.ContextObject | lib/rialto/etl/writers/jsonld_writer.rb:39 | the `context_object` setting, or null when it is absent |
| JsonldWriters.JsonldWriter.constructor | lib/rialto/etl/writers/jsonld_writer.rb:15-17 | keeps the settings; a new writer holds no records |
| JsonldWriters.JsonldWriter.Put | lib/rialto/etl/writers/jsonld_writer.rb:21-23 | appends exactly the context's output hash after the earlier records, which are unchanged; the settings cannot change |
| JsonldWriters.JsonldWriter.BuildObject | lib/rialto/etl/writers/jsonld_writer.rb:37-42 | the document has exactly the members @context, the context object, and @graph, the records in order; it reads the writer and changes nothing |
| JsonldWriters.GraphOfBuildObject | lib/rialto/etl/writers/jsonld_writer.rb:37-42 | round trip: the records read back from the document are the writer's records |
| JsonldWriters.Puts | lib/rialto/etl/writers/jsonld_writer.rb:21-23 | a run of `put` calls keeps the earlier records and appends the output hashes in call order |
| JsonldWriters.WriteRecords | lib/rialto/etl/writers/jsonld_writer.rb:15-42 | a new writer given any run of records builds a document whose graph is exactly those records' output hashes in call order, with the configured context and no other member |
| JsonldWriters.WriteNothing | lib/rialto/etl/writers/jsonld_writer.rb:33-42 | a writer never given a record builds a document with an empty graph |

## Left out

- The reader's progress log every thousandth INSERT, and its `to_s(:delimited)` formatting, are left out. Logging is I/O. The counter it reads is modelled.
- `each` without a block returns an enumerator (`enum_for`). This is left out. `Each` returns the yielded chunks as a sequence, in yield order. Side effects of the caller's block between yields are not modelled.
- SparqlStatementReaders.SparqlStatementReader.Each: a caller's block that leaves early (`break`, or `first` on the enumerator) stops the Ruby loop part-way, with part of the stream read; the model always reads the stream to its end.
- The "UTF-8 encoding is required" note is a comment that the code does not enforce. Lines are arbitrary strings, with no encoding errors.
- The `by_statement` setting is modelled as a boolean that may be absent. Ruby would also treat any other non-nil, non-false value as true.
- `JsonldWriter#close` is left out: it serializes to JSON and prints to standard output. The document it prints is `BuildObject`.
- `records ||= []` creates the array lazily. The model starts with an empty sequence, which reads the same.
- The Traject indexer that drives the mapping and the writer is not part of this model. It loads the configuration, runs the rules and calls `put` once per record.
- Traject's `single: true` option on `@graph`, `@id` and dc:identifier is left out. It unwraps a one-value field. The model keeps every field as its accumulator sequence.
- Traject's handling of a key written twice (appending to the earlier accumulator) is in `Accumulate`. No rule of this configuration writes a key twice, so nothing about that case is proved.
- `extract_json('$.orgCodes')` and `JsonPath` are left out. The record is already the flattened organization, with optional fields.
- The org codes are kept as one accumulated value. Splitting them into one `dc:identifier` triple per code is the SPARQL statement writer's job, and that writer is not part of this model.
- The IRIs of the `VIVO` and `OBO` vocabularies are assumed to be the published namespaces `http://vivoweb.org/ontology/core#` and `http://purl.obolibrary.org/obo/`, because `rialto/etl/namespaces`, which defines them, is not part of this model.
- The record's alias and name are assumed present. The configuration does not guard a missing alias or name.
- The StanfordOrganizationsJsonReader is not part of this model. It flattens the organization tree and sets `parent`.
- The SparqlStatementWriter is not part of this model. It turns the `"!"` flags into DELETE statements.
- The command-line tools, the HTTP connection factory and the deployment configuration are not part of this model. They are I/O plumbing.
- The other mapping configurations are not part of this model.
