/**
 * What the SPARQL statement reader yields, stated as two stages over values:
 * first the input lines are cut into complete statements (Scan), then the
 * statements are grouped into the batches that are yielded together (Batch).
 * The lemmas here are the properties of the reader that do not depend on how
 * its loop is written; SparqlStatementReaders.SparqlStatementReader.Each is
 * proved to yield exactly Chunks(lines, byStatement).
 */
module StatementBatching {
  import opened StatementText

  // ---------------------------------------------------------------------
  // Stage 1: lines to statements
  // ---------------------------------------------------------------------

  /** The complete statements read from `lines` when `pending` text has
      already been accumulated. Each line is appended unchanged; a statement
      is complete as soon as the accumulated text ends with ";\n". */
  function Scan(pending: string, lines: seq<string>): seq<string>
    decreases |lines|
  {
    if lines == [] then []
    else
      var s := pending + lines[0];
      if IsComplete(s) then [s] + Scan("", lines[1..]) else Scan(s, lines[1..])
  }

  /** The accumulated text left over once `lines` are exhausted. */
  function Leftover(pending: string, lines: seq<string>): string
    decreases |lines|
  {
    if lines == [] then pending
    else
      var s := pending + lines[0];
      if IsComplete(s) then Leftover("", lines[1..]) else Leftover(s, lines[1..])
  }

  /** The complete statements of an input stream. */
  function Statements(lines: seq<string>): seq<string> {
    Scan("", lines)
  }

  /** The unterminated text at the end of an input stream. */
  function Unterminated(lines: seq<string>): string {
    Leftover("", lines)
  }

  // ---------------------------------------------------------------------
  // Stage 2: statements to batches
  // ---------------------------------------------------------------------

  /** The batches flushed from `stmts` when the statements `held` are
      already buffered: a batch is flushed after each INSERT, or after every
      statement when `byStatement` is on. */
  function Batch(held: seq<string>, stmts: seq<string>, byStatement: bool): seq<seq<string>>
    decreases |stmts|
  {
    if stmts == [] then []
    else
      var h := held + [stmts[0]];
      if IsInsert(stmts[0]) || byStatement then [h] + Batch([], stmts[1..], byStatement)
      else Batch(h, stmts[1..], byStatement)
  }

  /** The statements still buffered, never flushed, once `stmts` are exhausted. */
  function Unflushed(held: seq<string>, stmts: seq<string>, byStatement: bool): seq<string>
    decreases |stmts|
  {
    if stmts == [] then held
    else
      var h := held + [stmts[0]];
      if IsInsert(stmts[0]) || byStatement then Unflushed([], stmts[1..], byStatement)
      else Unflushed(h, stmts[1..], byStatement)
  }

  /** The batches of an input stream, each as its list of statements. */
  function Batches(lines: seq<string>, byStatement: bool): seq<seq<string>> {
    Batch([], Statements(lines), byStatement)
  }

  /** The text of each batch. */
  function Texts(bss: seq<seq<string>>): seq<string> {
    if bss == [] then [] else [Concat(bss[0])] + Texts(bss[1..])
  }

  /** The chunks the reader yields for an input stream, in order. */
  function Chunks(lines: seq<string>, byStatement: bool): seq<string> {
    Texts(Batches(lines, byStatement))
  }

  /** All statements of all batches, in order. */
  function Flatten(bss: seq<seq<string>>): seq<string> {
    if bss == [] then [] else bss[0] + Flatten(bss[1..])
  }

  /** The number of INSERT statements. */
  function InsertCount(stmts: seq<string>): nat {
    if stmts == [] then 0 else (if IsInsert(stmts[0]) then 1 else 0) + InsertCount(stmts[1..])
  }

  predicate NoInsert(stmts: seq<string>) {
    forall j :: 0 <= j < |stmts| ==> !IsInsert(stmts[j])
  }

  /** A batch of grouped mode: some non-INSERT statements (the DELETEs)
      followed by the one INSERT that closes it. */
  predicate WellFormedBatch(b: seq<string>) {
    |b| > 0 && IsInsert(b[|b| - 1]) && NoInsert(b[..|b| - 1])
  }

  // ---------------------------------------------------------------------
  // Properties of stage 1
  // ---------------------------------------------------------------------

  /** Nothing is lost or changed: statements then leftover give back the input. */
  lemma {:induction false} ScanCovers(pending: string, lines: seq<string>)
    ensures Concat(Scan(pending, lines)) + Leftover(pending, lines) == pending + Concat(lines)
    decreases |lines|
  {
    if lines != [] {
      var s := pending + lines[0];
      assert lines == [lines[0]] + lines[1..];
      ConcatCons(lines[0], lines[1..]);
      if IsComplete(s) {
        ScanCovers("", lines[1..]);
        ConcatCons(s, Scan("", lines[1..]));
        calc {
          Concat(Scan(pending, lines)) + Leftover(pending, lines);
          s + Concat(Scan("", lines[1..])) + Leftover("", lines[1..]);
          s + (Concat(Scan("", lines[1..])) + Leftover("", lines[1..]));
          { assert "" + Concat(lines[1..]) == Concat(lines[1..]); }
          s + Concat(lines[1..]);
        }
      } else {
        ScanCovers(s, lines[1..]);
      }
    }
  }

  lemma {:induction false} ScanComplete(pending: string, lines: seq<string>)
    ensures forall i :: 0 <= i < |Scan(pending, lines)| ==> IsComplete(Scan(pending, lines)[i])
    decreases |lines|
  {
    if lines != [] {
      var s := pending + lines[0];
      if IsComplete(s) {
        ScanComplete("", lines[1..]);
      } else {
        ScanComplete(s, lines[1..]);
      }
    }
  }

  lemma {:induction false} LeftoverIncomplete(pending: string, lines: seq<string>)
    requires !IsComplete(pending)
    ensures !IsComplete(Leftover(pending, lines))
    decreases |lines|
  {
    if lines != [] {
      var s := pending + lines[0];
      if IsComplete(s) {
        LeftoverIncomplete("", lines[1..]);
      } else {
        LeftoverIncomplete(s, lines[1..]);
      }
    }
  }

  /** The input is its complete statements, each ending with ";\n", followed
      by unterminated text that does not end with ";\n". */
  lemma StatementsSplitInput(lines: seq<string>)
    ensures Concat(Statements(lines)) + Unterminated(lines) == Concat(lines)
    ensures forall i :: 0 <= i < |Statements(lines)| ==> IsComplete(Statements(lines)[i])
    ensures !IsComplete(Unterminated(lines))
  {
    ScanCovers("", lines);
    ScanComplete("", lines);
    LeftoverIncomplete("", lines);
  }

  /** Concatenating the first j lines after the first one. */
  lemma ConcatShift(lines: seq<string>, j: nat)
    requires 1 <= j <= |lines|
    ensures Concat(lines[..j]) == lines[0] + Concat(lines[1..][..j - 1])
  {
    assert lines[..j] == [lines[0]] + lines[1..][..j - 1];
    ConcatCons(lines[0], lines[1..][..j - 1]);
  }

  lemma {:induction false} ScanFirstDelimiter(pending: string, lines: seq<string>, k: nat)
    requires 1 <= k <= |lines|
    requires IsComplete(pending + Concat(lines[..k]))
    requires forall j :: 1 <= j < k ==> !IsComplete(pending + Concat(lines[..j]))
    ensures Scan(pending, lines) == [pending + Concat(lines[..k])] + Scan("", lines[k..])
    ensures Leftover(pending, lines) == Leftover("", lines[k..])
    decreases k
  {
    if k == 1 {
      ConcatShift(lines, 1);
      assert Concat(lines[1..][..0]) == "";
      assert pending + lines[0] == pending + Concat(lines[..1]);
      assert lines[1..] == lines[k..];
    } else {
      FirstDelimiterShift(pending, lines, k);
      ScanFirstDelimiter(pending + lines[0], lines[1..], k - 1);
      assert lines[1..][k - 1..] == lines[k..];
    }
  }

  /** The hypotheses of ScanFirstDelimiter, one line further on. */
  lemma FirstDelimiterShift(pending: string, lines: seq<string>, k: nat)
    requires 2 <= k <= |lines|
    requires IsComplete(pending + Concat(lines[..k]))
    requires forall j :: 1 <= j < k ==> !IsComplete(pending + Concat(lines[..j]))
    ensures !IsComplete(pending + lines[0])
    ensures pending + lines[0] + Concat(lines[1..][..k - 1]) == pending + Concat(lines[..k])
    ensures forall j :: 1 <= j < k - 1 ==> !IsComplete(pending + lines[0] + Concat(lines[1..][..j]))
  {
    var s := pending + lines[0];
    ConcatShift(lines, 1);
    assert Concat(lines[1..][..0]) == "";
    assert s == pending + Concat(lines[..1]);
    forall j | 1 <= j < k - 1
      ensures !IsComplete(s + Concat(lines[1..][..j]))
    {
      ConcatShift(lines, j + 1);
      assert s + Concat(lines[1..][..j]) == pending + Concat(lines[..j + 1]);
    }
    ConcatShift(lines, k);
  }

  /** A statement ends at the first line after which the accumulated text
      ends with ";\n", and not before. */
  lemma StatementEndsAtFirstDelimiter(lines: seq<string>, k: nat)
    requires 1 <= k <= |lines|
    requires IsComplete(Concat(lines[..k]))
    requires forall j :: 1 <= j < k ==> !IsComplete(Concat(lines[..j]))
    ensures Statements(lines) == [Concat(lines[..k])] + Statements(lines[k..])
    ensures Unterminated(lines) == Unterminated(lines[k..])
  {
    forall j | 1 <= j < k
      ensures !IsComplete("" + Concat(lines[..j]))
    {
      assert "" + Concat(lines[..j]) == Concat(lines[..j]);
    }
    assert "" + Concat(lines[..k]) == Concat(lines[..k]);
    ScanFirstDelimiter("", lines, k);
  }

  lemma {:induction false} ScanNoDelimiter(pending: string, lines: seq<string>)
    requires forall j :: 1 <= j <= |lines| ==> !IsComplete(pending + Concat(lines[..j]))
    ensures Scan(pending, lines) == []
    ensures Leftover(pending, lines) == pending + Concat(lines)
    decreases |lines|
  {
    if lines != [] {
      NoDelimiterShift(pending, lines);
      ScanNoDelimiter(pending + lines[0], lines[1..]);
      NoDelimiterStep(pending, lines);
    }
  }

  /** One line of ScanNoDelimiter: the first line does not complete the
      text, so the rest is read with it pending. */
  lemma NoDelimiterStep(pending: string, lines: seq<string>)
    requires |lines| > 0 && !IsComplete(pending + lines[0])
    requires Scan(pending + lines[0], lines[1..]) == []
    requires Leftover(pending + lines[0], lines[1..]) == pending + lines[0] + Concat(lines[1..])
    ensures Scan(pending, lines) == []
    ensures Leftover(pending, lines) == pending + Concat(lines)
  {
    var s := pending + lines[0];
    assert Scan(pending, lines) == Scan(s, lines[1..]);
    assert Leftover(pending, lines) == Leftover(s, lines[1..]);
    var rest := Concat(lines[1..]);
    assert Concat(lines) == lines[0] + rest by {
      ConcatShift(lines, |lines|);
      assert lines[..|lines|] == lines;
      assert lines[1..][..|lines| - 1] == lines[1..];
    }
    AppendAssoc(pending, lines[0], rest);
  }

  /** The hypothesis of ScanNoDelimiter, one line further on. */
  lemma NoDelimiterShift(pending: string, lines: seq<string>)
    requires |lines| > 0
    requires forall j :: 1 <= j <= |lines| ==> !IsComplete(pending + Concat(lines[..j]))
    ensures !IsComplete(pending + lines[0])
    ensures forall j :: 1 <= j <= |lines| - 1 ==> !IsComplete(pending + lines[0] + Concat(lines[1..][..j]))
  {
    ConcatShift(lines, 1);
    assert Concat(lines[1..][..0]) == "";
    assert pending + lines[0] == pending + Concat(lines[..1]);
    forall j | 1 <= j <= |lines| - 1
      ensures !IsComplete(pending + lines[0] + Concat(lines[1..][..j]))
    {
      ConcatShift(lines, j + 1);
      assert pending + lines[0] + Concat(lines[1..][..j]) == pending + Concat(lines[..j + 1]);
    }
  }

  /** Text in which the delimiter never closes a line yields no statement and
      stays unterminated, whole. */
  lemma NoDelimiterNoStatement(lines: seq<string>)
    requires forall j :: 1 <= j <= |lines| ==> !IsComplete(Concat(lines[..j]))
    ensures Statements(lines) == []
    ensures Unterminated(lines) == Concat(lines)
  {
    forall j | 1 <= j <= |lines|
      ensures !IsComplete("" + Concat(lines[..j]))
    {
      assert "" + Concat(lines[..j]) == Concat(lines[..j]);
    }
    ScanNoDelimiter("", lines);
    assert "" + Concat(lines) == Concat(lines);
  }

  // ---------------------------------------------------------------------
  // Properties of stage 2
  // ---------------------------------------------------------------------

  /** The flushed batches followed by the unflushed statements are exactly
      the statements read, in order. */
  lemma {:induction false} BatchCovers(held: seq<string>, stmts: seq<string>, byStatement: bool)
    ensures Flatten(Batch(held, stmts, byStatement)) + Unflushed(held, stmts, byStatement) == held + stmts
    decreases |stmts|
  {
    if stmts == [] {
      assert held + stmts == held;
    } else {
      var h := held + [stmts[0]];
      assert held + stmts == h + stmts[1..];
      if IsInsert(stmts[0]) || byStatement {
        BatchCovers([], stmts[1..], byStatement);
        var rest := Batch([], stmts[1..], byStatement);
        assert ([h] + rest)[1..] == rest;
        assert [] + stmts[1..] == stmts[1..];
      } else {
        BatchCovers(h, stmts[1..], byStatement);
      }
    }
  }

  /** Grouped mode flushes one batch per INSERT statement. */
  lemma {:induction false} BatchCount(held: seq<string>, stmts: seq<string>)
    ensures |Batch(held, stmts, false)| == InsertCount(stmts)
    decreases |stmts|
  {
    if stmts != [] {
      var h := held + [stmts[0]];
      if IsInsert(stmts[0]) {
        BatchCount([], stmts[1..]);
      } else {
        BatchCount(h, stmts[1..]);
      }
    }
  }

  /** Grouped mode: each batch closes with its only INSERT, and what is never
      flushed contains no INSERT. */
  lemma {:induction false} BatchShape(held: seq<string>, stmts: seq<string>)
    requires NoInsert(held)
    ensures forall i :: 0 <= i < |Batch(held, stmts, false)| ==> WellFormedBatch(Batch(held, stmts, false)[i])
    ensures NoInsert(Unflushed(held, stmts, false))
    decreases |stmts|
  {
    if stmts != [] {
      var h := held + [stmts[0]];
      if IsInsert(stmts[0]) {
        BatchShape([], stmts[1..]);
        assert h[..|h| - 1] == held;
      } else {
        assert NoInsert(h) by {
          forall j | 0 <= j < |h| ensures !IsInsert(h[j]) {
            if j < |held| { assert h[j] == held[j]; }
          }
        }
        BatchShape(h, stmts[1..]);
      }
    }
  }

  /** By-statement mode: every statement is a batch of its own, in order,
      and nothing is left unflushed. */
  lemma {:induction false} ByStatementBatches(stmts: seq<string>)
    ensures |Batch([], stmts, true)| == |stmts|
    ensures forall i :: 0 <= i < |stmts| ==> Batch([], stmts, true)[i] == [stmts[i]]
    ensures Unflushed([], stmts, true) == []
    decreases |stmts|
  {
    if stmts != [] {
      ByStatementBatches(stmts[1..]);
      assert [] + [stmts[0]] == [stmts[0]];
    }
  }

  lemma {:induction false} BatchOne(held: seq<string>, b: seq<string>, rest: seq<string>)
    requires NoInsert(held) && WellFormedBatch(b)
    ensures Batch(held, b + rest, false) == [held + b] + Batch([], rest, false)
    ensures Unflushed(held, b + rest, false) == Unflushed([], rest, false)
    decreases |b|
  {
    assert (b + rest)[0] == b[0];
    assert (b + rest)[1..] == b[1..] + rest;
    if |b| == 1 {
      assert b[1..] + rest == rest;
      assert held + [b[0]] == held + b;
    } else {
      assert b[..|b| - 1][0] == b[0];
      var h := held + [b[0]];
      assert NoInsert(h) by {
        forall j | 0 <= j < |h| ensures !IsInsert(h[j]) {
          if j < |held| { assert h[j] == held[j]; }
        }
      }
      var b' := b[1..];
      assert b'[|b'| - 1] == b[|b| - 1];
      assert b'[..|b'| - 1] == b[..|b| - 1][1..];
      BatchOne(h, b', rest);
      assert h + b' == held + b;
    }
  }

  /** Round trip: a stream written as well-formed batches (DELETEs, then
      their INSERT) is grouped back into exactly those batches. */
  lemma {:induction false} RegroupBatches(bss: seq<seq<string>>)
    requires forall i :: 0 <= i < |bss| ==> WellFormedBatch(bss[i])
    ensures Batch([], Flatten(bss), false) == bss
    ensures Unflushed([], Flatten(bss), false) == []
    decreases |bss|
  {
    if bss != [] {
      assert NoInsert([]);
      BatchOne([], bss[0], Flatten(bss[1..]));
      RegroupBatches(bss[1..]);
      assert [] + bss[0] == bss[0];
    }
  }

  lemma {:induction false} TextsAt(bss: seq<seq<string>>)
    ensures |Texts(bss)| == |bss|
    ensures forall i :: 0 <= i < |bss| ==> Texts(bss)[i] == Concat(bss[i])
    decreases |bss|
  {
    if bss != [] {
      TextsAt(bss[1..]);
    }
  }

  lemma {:induction false} ConcatTexts(bss: seq<seq<string>>)
    ensures Concat(Texts(bss)) == Concat(Flatten(bss))
    decreases |bss|
  {
    if bss != [] {
      ConcatTexts(bss[1..]);
      ConcatCons(Concat(bss[0]), Texts(bss[1..]));
      ConcatAppend(bss[0], Flatten(bss[1..]));
    }
  }

  /** A batch whose last statement is complete has complete text. */
  lemma BatchTextComplete(b: seq<string>)
    requires |b| > 0 && IsComplete(b[|b| - 1])
    ensures IsComplete(Concat(b))
  {
    EndsWithAppend(Concat(b[..|b| - 1]), b[|b| - 1], Terminator);
  }

  lemma {:induction false} FlattenAt(bss: seq<seq<string>>, i: nat)
    requires i < |bss|
    ensures FlatOffset(bss, i) + |bss[i]| <= |Flatten(bss)|
    ensures bss[i] <= Flatten(bss)[FlatOffset(bss, i)..]
    decreases i
  {
    if i > 0 {
      FlattenAt(bss[1..], i - 1);
      assert Flatten(bss)[|bss[0]|..] == Flatten(bss[1..]);
    }
  }

  /** Where batch i starts in Flatten(bss). */
  function FlatOffset(bss: seq<seq<string>>, i: nat): nat
    requires i < |bss|
  {
    if i == 0 then 0 else |bss[0]| + FlatOffset(bss[1..], i - 1)
  }

  // ---------------------------------------------------------------------
  // What the reader yields
  // ---------------------------------------------------------------------

  /** Every yielded chunk is non-empty and ends with ";\n". */
  lemma ChunksAreComplete(lines: seq<string>, byStatement: bool)
    ensures forall i :: 0 <= i < |Chunks(lines, byStatement)| ==>
      |Chunks(lines, byStatement)[i]| >= |Terminator| && IsComplete(Chunks(lines, byStatement)[i])
  {
    var stmts := Statements(lines);
    var bss := Batches(lines, byStatement);
    StatementsSplitInput(lines);
    BatchCovers([], stmts, byStatement);
    assert [] + stmts == stmts;
    assert (Flatten(bss) + Unflushed([], stmts, byStatement))[..|Flatten(bss)|] == Flatten(bss);
    assert Flatten(bss) <= stmts;
    TextsAt(bss);
    forall i | 0 <= i < |bss|
      ensures IsComplete(Texts(bss)[i])
    {
      Nonempty(bss, stmts, byStatement, i);
      FlattenAt(bss, i);
      var k := FlatOffset(bss, i) + |bss[i]| - 1;
      assert bss[i][|bss[i]| - 1] == Flatten(bss)[k] == stmts[k];
      BatchTextComplete(bss[i]);
    }
  }

  lemma {:induction false} Nonempty(bss: seq<seq<string>>, stmts: seq<string>, byStatement: bool, i: nat)
    requires bss == Batch([], stmts, byStatement) && i < |bss|
    ensures |bss[i]| > 0
  {
    NonemptyFrom([], stmts, byStatement);
  }

  lemma {:induction false} NonemptyFrom(held: seq<string>, stmts: seq<string>, byStatement: bool)
    ensures forall i :: 0 <= i < |Batch(held, stmts, byStatement)| ==> |Batch(held, stmts, byStatement)[i]| > 0
    decreases |stmts|
  {
    if stmts != [] {
      NonemptyFrom([], stmts[1..], byStatement);
      NonemptyFrom(held + [stmts[0]], stmts[1..], byStatement);
    }
  }

  /** The concatenation of the yielded chunks is a prefix of the input: the
      input is the chunks, then the statements never flushed, then the
      unterminated tail. In by-statement mode nothing complete is held back. */
  lemma ChunksArePrefix(lines: seq<string>, byStatement: bool)
    ensures Concat(Chunks(lines, byStatement)) + Concat(Unflushed([], Statements(lines), byStatement))
            + Unterminated(lines) == Concat(lines)
    ensures Concat(Chunks(lines, byStatement)) <= Concat(lines)
    ensures byStatement ==> Unflushed([], Statements(lines), byStatement) == []
  {
    var stmts := Statements(lines);
    var bss := Batches(lines, byStatement);
    StatementsSplitInput(lines);
    BatchCovers([], stmts, byStatement);
    assert [] + stmts == stmts;
    ConcatAppend(Flatten(bss), Unflushed([], stmts, byStatement));
    ConcatTexts(bss);
    if byStatement {
      ByStatementBatches(stmts);
    }
  }

  /** Grouped mode: one chunk per INSERT statement; each chunk is a batch of
      non-INSERT statements closed by one INSERT, so no DELETE is ever yielded
      alone; statements after the last INSERT are never yielded. */
  lemma GroupedChunks(lines: seq<string>)
    ensures |Chunks(lines, false)| == |Batches(lines, false)| == InsertCount(Statements(lines))
    ensures forall i :: 0 <= i < |Batches(lines, false)| ==>
      WellFormedBatch(Batches(lines, false)[i]) && Chunks(lines, false)[i] == Concat(Batches(lines, false)[i])
    ensures forall i :: 0 <= i < |Batches(lines, false)| && |Batches(lines, false)[i]| == 1 ==>
      IsInsert(Batches(lines, false)[i][0])
    ensures NoInsert(Unflushed([], Statements(lines), false))
  {
    var stmts := Statements(lines);
    BatchCount([], stmts);
    assert NoInsert([]);
    BatchShape([], stmts);
    TextsAt(Batches(lines, false));
  }

  /** By-statement mode: the chunks are the complete statements, one each,
      in input order. */
  lemma ByStatementChunks(lines: seq<string>)
    ensures Chunks(lines, true) == Statements(lines)
  {
    var stmts := Statements(lines);
    ByStatementBatches(stmts);
    TextsAt(Batches(lines, true));
    forall i | 0 <= i < |stmts| ensures Chunks(lines, true)[i] == stmts[i] {
      assert Concat([stmts[i]]) == Concat([stmts[i]][..0]) + stmts[i];
    }
  }

  // ---------------------------------------------------------------------
  // Scenario
  // ---------------------------------------------------------------------

  /** A DELETE written over two lines, its INSERT, and a trailing DELETE. */
  const ScenarioLines: seq<string> := ["DELETE {}\n", "WHERE {};\n", "INSERT {};\n", "DELETE {};\n"]

  /** The scenario holds three statements: the two-line DELETE, the INSERT
      and the trailing DELETE. */
  lemma ScenarioStatements()
    ensures Statements(ScenarioLines) == ["DELETE {}\nWHERE {};\n", "INSERT {};\n", "DELETE {};\n"]
  {
    var lines := ScenarioLines;
    var d, i, e := "DELETE {}\nWHERE {};\n", "INSERT {};\n", "DELETE {};\n";
    assert "" + lines[0] == lines[0] && lines[0][|lines[0]| - 2..] == "}\n";
    assert lines[0] + lines[1] == d && d[|d| - 2..] == ";\n";
    assert "" + i == i && i[|i| - 2..] == ";\n" && "" + e == e && e[|e| - 2..] == ";\n";
    assert lines[1..][1..] == [i, e] && [i, e][1..] == [e];
    var none: seq<string> := [];
    assert [e][1..] == none;
    assert Scan("", [e]) == [e];
    assert Scan("", [i, e]) == [i, e];
    assert Scan(lines[0], lines[1..]) == [d, i, e];
  }

  /** Grouped mode batches the first DELETE with the INSERT and holds the
      trailing DELETE back. */
  lemma ScenarioBatches()
    ensures Batches(ScenarioLines, false) == [["DELETE {}\nWHERE {};\n", "INSERT {};\n"]]
  {
    var d, i, e := "DELETE {}\nWHERE {};\n", "INSERT {};\n", "DELETE {};\n";
    ScenarioStatements();
    assert i[..6] == "INSERT" && d[..6][0] == 'D' && e[..6][0] == 'D';
    assert IsInsert(i) && !IsInsert(d) && !IsInsert(e);
    assert [d, i, e][1..] == [i, e] && [i, e][1..] == [e];
    var none: seq<string> := [];
    var nobatch: seq<seq<string>> := [];
    assert [e][1..] == none;
    assert [d] == [] + [d] && [e] == [] + [e] && [d] + [i] == [d, i];
    assert Batch([], [e], false) == nobatch;
    assert Batch([d], [i, e], false) == [[d, i]] + Batch([], [e], false);
    assert [[d, i]] + nobatch == [[d, i]];
    assert Batch([], [d, i, e], false) == Batch([d], [i, e], false);
  }

  /** Grouped mode yields the first DELETE and the INSERT as one chunk; the
      trailing DELETE is never yielded. */
  lemma GroupedScenario()
    ensures Chunks(ScenarioLines, false) == [ScenarioLines[0] + ScenarioLines[1] + ScenarioLines[2]]
  {
    var d, i := "DELETE {}\nWHERE {};\n", "INSERT {};\n";
    ScenarioBatches();
    var none: seq<string> := [];
    var nobatch: seq<seq<string>> := [];
    assert Concat([d, i]) == d + i by {
      assert [d][..0] == none && Concat(none) == "" && "" + d == d;
      assert Concat([d]) == d;
      assert [d, i][..1] == [d];
    }
    assert Texts([[d, i]]) == [d + i] by {
      assert [[d, i]][1..] == nobatch;
    }
    assert d == ScenarioLines[0] + ScenarioLines[1] && i == ScenarioLines[2];
  }

  /** By-statement mode yields all three statements, one chunk each. */
  lemma ByStatementScenario()
    ensures Chunks(ScenarioLines, true) == ["DELETE {}\nWHERE {};\n", "INSERT {};\n", "DELETE {};\n"]
  {
    ScenarioStatements();
    ByStatementChunks(ScenarioLines);
  }
}
