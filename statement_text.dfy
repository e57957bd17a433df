/** Text helpers shared by the SPARQL statement reader and its specification. */
module StatementText {

  /** The text at the end of a line that completes a SPARQL statement. */
  const Terminator: string := ";\n"

  /** The keyword that opens an insert statement. */
  const InsertKeyword: string := "INSERT"

  /** Ruby's `String#start_with?`. */
  predicate StartsWith(s: string, prefix: string) {
    |prefix| <= |s| && s[..|prefix|] == prefix
  }

  /** Ruby's `String#end_with?`. */
  predicate EndsWith(s: string, suffix: string) {
    |suffix| <= |s| && s[|s| - |suffix|..] == suffix
  }

  /** The accumulated text is a whole statement. */
  predicate IsComplete(s: string) {
    EndsWith(s, Terminator)
  }

  /** The statement is an INSERT. */
  predicate IsInsert(s: string) {
    StartsWith(s, InsertKeyword)
  }

  /** The texts one after the other, as repeated `<<` builds them. */
  function Concat(ss: seq<string>): string {
    if ss == [] then "" else Concat(ss[..|ss| - 1]) + ss[|ss| - 1]
  }

  lemma {:induction false} ConcatAppend(a: seq<string>, b: seq<string>)
    ensures Concat(a + b) == Concat(a) + Concat(b)
    decreases |b|
  {
    if b == [] {
      assert a + b == a;
    } else {
      var b' := b[..|b| - 1];
      assert (a + b)[..|a + b| - 1] == a + b';
      ConcatAppend(a, b');
    }
  }

  /** Joining texts is associative. */
  lemma AppendAssoc(a: string, b: string, c: string)
    ensures a + b + c == a + (b + c)
  {
  }

  /** Concatenating in front of a single text. */
  lemma ConcatCons(x: string, rest: seq<string>)
    ensures Concat([x] + rest) == x + Concat(rest)
  {
    ConcatAppend([x], rest);
    assert [x][..0] == [];
  }

  /** Appending text keeps a suffix of the appended part. */
  lemma EndsWithAppend(s: string, t: string, suffix: string)
    requires EndsWith(t, suffix)
    ensures EndsWith(s + t, suffix)
  {
    assert (s + t)[|s + t| - |suffix|..] == t[|t| - |suffix|..];
  }
}
