/**
 * The SPARQL statement reader: reads a stream of SPARQL update statements,
 * each one or more lines long and ending with ";\n", and yields them in
 * chunks. A DELETE is held back and yielded together with the INSERT that
 * follows it, so that statements run in parallel never see the delete
 * without its replacement; with the `by_statement` setting every statement
 * is yielded on its own.
 */
module SparqlStatementReaders {
  import opened StatementText
  import opened StatementBatching

  /** The settings key that switches on one chunk per statement. */
  const ByStatementKey: string := "sparql_statement_reader.by_statement"

  /** Whether a settings hash switches on by-statement mode: the key must be
      present with a true value (an absent key reads as nil, which is false). */
  predicate ByStatement(settings: map<string, bool>) {
    ByStatementKey in settings && settings[ByStatementKey]
  }

  class SparqlStatementReader {
    const settings: map<string, bool>
    /** The lines of the input stream not read yet, as `each_line` hands
        them out. */
    var inputStream: seq<string>
    /** INSERT statements read so far. */
    var insertCount: nat

    constructor (inputStream: seq<string>, settings: map<string, bool>)
      ensures this.inputStream == inputStream && this.settings == settings
      ensures insertCount == 0
    {
      this.settings := settings;
      this.inputStream := inputStream;
      insertCount := 0;
    }

    /** Reads the rest of the input stream and returns the chunks it yields,
        in the order they are yielded; the INSERT statements read are added
        to `insertCount`, and the stream is left at its end. */
    method Each() returns (yielded: seq<string>)
      modifies this`insertCount, this`inputStream
      ensures yielded == Chunks(old(inputStream), ByStatement(settings))
      ensures insertCount == old(insertCount) + InsertCount(Statements(old(inputStream)))
      ensures inputStream == []
    {
      var lines := inputStream;
      var byStatement := ByStatement(settings);
      var statements := "";
      var statement := "";
      // The statements buffered in `statements`, one by one.
      ghost var held: seq<string> := [];
      yielded := [];
      var i := 0;
      assert lines[0..] == lines;
      while i < |lines|
        invariant 0 <= i <= |lines|
        invariant statements == Concat(held)
        invariant Chunks(lines, byStatement)
                  == yielded + Texts(Batch(held, Scan(statement, lines[i..]), byStatement))
        invariant insertCount - old(insertCount) + InsertCount(Scan(statement, lines[i..]))
                  == InsertCount(Statements(lines))
      {
        var line := lines[i];
        assert lines[i..][1..] == lines[i + 1..];
        statement := statement + line;
        if IsComplete(statement) {
          statements := statements + statement;
          held := held + [statement];
          if IsInsert(statement) {
            insertCount := insertCount + 1;
          }
          if IsInsert(statement) || byStatement {
            yielded := yielded + [statements];
            statements := "";
            held := [];
          }
          statement := "";
        }
        i := i + 1;
      }
      inputStream := [];
    }
  }

  /** A stream can be read once: a second `each` on the same reader finds
      the stream used up, yields nothing and counts no INSERT. */
  method ReadTwice(lines: seq<string>, settings: map<string, bool>)
    returns (first: seq<string>, second: seq<string>, inserts: nat)
    ensures first == Chunks(lines, ByStatement(settings))
    ensures second == []
    ensures inserts == InsertCount(Statements(lines))
  {
    var reader := new SparqlStatementReader(lines, settings);
    first := reader.Each();
    second := reader.Each();
    inserts := reader.insertCount;
  }
}
