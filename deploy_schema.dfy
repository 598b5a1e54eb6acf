/**
 * The schema deployment scripts (prisma/deploy-schema.js and
 * prisma/deploy-schema.ts): the migration text is split on ';' into
 * trimmed, non-empty statements, and the statements are sent to the
 * database one at a time, a failure being logged and the next statement
 * tried. The database's answer to a statement is the parameter `accepts`.
 */
module DeploySchema {
  import opened Text
  import opened Lists

  // ---------------------------------------------------------------------
  // The statement splitter
  // ---------------------------------------------------------------------

  /** One piece, trimmed, if anything is left of it. */
  function Piece(p: string): (r: seq<string>)
    ensures |r| <= 1
  {
    if Trim(p) != "" then [Trim(p)] else []
  }

  /** `pieces.map(s => s.trim()).filter(s => s.length > 0)` */
  function Kept(pieces: seq<string>): (r: seq<string>)
    ensures |r| <= |pieces|
  {
    if pieces == [] then [] else Piece(pieces[0]) + Kept(pieces[1..])
  }

  /** `sql.split(';').map(s => s.trim()).filter(s => s.length > 0)` */
  function Statements(sql: string): seq<string> {
    Kept(Split(sql, ';'))
  }

  /** Well formed: non-empty, trimmed, and free of `c`. */
  predicate Clean(s: string, c: char) {
    s != "" && c !in s && Trim(s) == s
  }

  lemma PieceClean(p: string, c: char)
    requires c !in p
    ensures forall s :: s in Piece(p) ==> Clean(s, c)
  {
    TrimWithin(p);
    TrimIdempotent(p);
  }

  /** A kept piece is a non-empty, trimmed piece, with no character that was not in some piece. */
  lemma {:induction false} KeptClean(pieces: seq<string>, c: char)
    requires forall k :: 0 <= k < |pieces| ==> c !in pieces[k]
    ensures forall s :: s in Kept(pieces) ==> Clean(s, c)
  {
    if pieces != [] {
      KeptClean(pieces[1..], c);
      PieceClean(pieces[0], c);
    }
  }

  lemma {:induction false} KeptAppend(a: seq<string>, b: seq<string>)
    ensures Kept(a + b) == Kept(a) + Kept(b)
  {
    if a == [] {
      assert a + b == b;
    } else {
      assert (a + b)[0] == a[0] && (a + b)[1..] == a[1..] + b;
      KeptAppend(a[1..], b);
    }
  }

  /** Every statement is non-empty, trimmed, and free of ';'. */
  lemma StatementsWellFormed(sql: string)
    ensures forall s :: s in Statements(sql) ==> s != "" && ';' !in s && Trim(s) == s
  {
    KeptClean(Split(sql, ';'), ';');
  }

  /** The statements keep the order of the text: those of `a`, then those of `b`. */
  lemma StatementsInOrder(a: string, b: string)
    ensures Statements(a + ";" + b) == Statements(a) + Statements(b)
  {
    SplitConcat(a, ';', b);
    KeptAppend(Split(a, ';'), Split(b, ';'));
  }

  /** A text without ';' is one statement, or none when it is blank. */
  lemma SingleStatement(s: string)
    requires ';' !in s
    ensures Statements(s) == if Trim(s) == "" then [] else [Trim(s)]
  {
    SplitNoSeparator(s, ';');
  }

  // ---------------------------------------------------------------------
  // Running the statements
  // ---------------------------------------------------------------------

  /** One statement sent to the database, and whether it was accepted (a rejection is logged). */
  datatype Attempt = Attempt(statement: string, accepted: bool)

  /** The script's run: it found no migration file and sent nothing, or it sent these statements in this order. */
  datatype Run = NoFile | Ran(attempts: seq<Attempt>)

  /** Each statement sent in turn, whatever the answers to the earlier ones. */
  function Sent(statements: seq<string>, accepts: string -> bool): (r: seq<Attempt>)
    ensures |r| == |statements|
    ensures forall k :: 0 <= k < |statements| ==> r[k].statement == statements[k] && r[k].accepted == accepts(statements[k])
  {
    seq(|statements|, k requires 0 <= k < |statements| => Attempt(statements[k], accepts(statements[k])))
  }

  lemma SentAppend(a: seq<string>, b: seq<string>, accepts: string -> bool)
    ensures Sent(a + b, accepts) == Sent(a, accepts) + Sent(b, accepts)
  {
  }

  lemma SentStep(statements: seq<string>, i: nat, accepts: string -> bool)
    requires i < |statements|
    ensures Sent(statements[..i + 1], accepts) == Sent(statements[..i], accepts) + [Attempt(statements[i], accepts(statements[i]))]
  {
  }

  /** The statements a run sent. */
  function SentStatements(r: Run): seq<string> {
    match r
    case NoFile => []
    case Ran(attempts) => seq(|attempts|, k requires 0 <= k < |attempts| => attempts[k].statement)
  }

  /** Long enough to be sent by the `.js` script: at least 5 characters. */
  predicate LongEnough(s: string) {
    |s| >= 5
  }

  /** The `.js` script's filter over a prefix grows by one statement at a time. */
  lemma {:induction false} FilterStep(statements: seq<string>, i: nat)
    requires i < |statements|
    ensures Filter(statements[..i + 1], LongEnough)
            == Filter(statements[..i], LongEnough) + (if LongEnough(statements[i]) then [statements[i]] else [])
  {
    assert statements[..i + 1] == statements[..i] + [statements[i]];
    FilterAppend(statements[..i], [statements[i]], LongEnough);
  }

  /**
   * prisma/deploy-schema.js: with no migration file the script exits before
   * sending anything; otherwise each statement of at least 5 characters is
   * sent in order, and a rejected one is logged and passed over.
   */
  method DeployJs(fileExists: bool, sql: string, accepts: string -> bool) returns (r: Run)
    ensures !fileExists ==> r == NoFile
    ensures fileExists ==> r == Ran(Sent(Filter(Statements(sql), LongEnough), accepts))
  {
    if !fileExists {
      return NoFile;
    }
    var statements := Statements(sql);
    var attempts := [];
    for i := 0 to |statements|
      invariant attempts == Sent(Filter(statements[..i], LongEnough), accepts)
    {
      var stmt := statements[i];
      FilterStep(statements, i);
      if |stmt| < 5 {
        assert Filter(statements[..i + 1], LongEnough) == Filter(statements[..i], LongEnough) + [];
        continue;
      }
      SentAppend(Filter(statements[..i], LongEnough), [stmt], accepts);
      attempts := attempts + [Attempt(stmt, accepts(stmt))];
    }
    assert statements[..|statements|] == statements;
    r := Ran(attempts);
  }

  /** The fallback loop: every statement sent in turn, a rejection logged and passed over. */
  method SendEach(statements: seq<string>, accepts: string -> bool) returns (attempts: seq<Attempt>)
    ensures attempts == Sent(statements, accepts)
  {
    attempts := [];
    for i := 0 to |statements|
      invariant attempts == Sent(statements[..i], accepts)
    {
      var stmt := statements[i];
      SentStep(statements, i, accepts);
      attempts := attempts + [Attempt(stmt, accepts(stmt))];
    }
    assert statements[..|statements|] == statements;
  }

  /**
   * prisma/deploy-schema.ts: the whole text is sent first; only if it is
   * rejected is every statement sent in order, with no length check, each
   * rejection logged and passed over. A missing file makes the read throw
   * before anything is sent.
   */
  method DeployTs(fileExists: bool, sql: string, accepts: string -> bool) returns (r: Run)
    ensures !fileExists ==> r == NoFile
    ensures fileExists ==> r == Ran([Attempt(sql, accepts(sql))] + (if accepts(sql) then [] else Sent(Statements(sql), accepts)))
  {
    if !fileExists {
      return NoFile;
    }
    var attempts := [Attempt(sql, accepts(sql))];
    if !accepts(sql) {
      var fallback := SendEach(Statements(sql), accepts);
      attempts := attempts + fallback;
    }
    r := Ran(attempts);
  }

  /**
   * The `.js` script sends every long enough statement whatever the
   * database answers: a rejected one never stops the ones after it. No
   * statement it sends is shorter than 5 characters, empty, untrimmed, or
   * holds a ';'.
   */
  lemma JsSends(sql: string, accepts: string -> bool)
    ensures SentStatements(Ran(Sent(Filter(Statements(sql), LongEnough), accepts))) == Filter(Statements(sql), LongEnough)
    ensures forall s :: s in Filter(Statements(sql), LongEnough) ==> |s| >= 5 && ';' !in s && Trim(s) == s
  {
    SentStatementsOf(Sent(Filter(Statements(sql), LongEnough), accepts), [], Filter(Statements(sql), LongEnough), accepts);
    assert [] + Sent(Filter(Statements(sql), LongEnough), accepts) == Sent(Filter(Statements(sql), LongEnough), accepts);
    StatementsWellFormed(sql);
    forall s | s in Filter(Statements(sql), LongEnough)
      ensures |s| >= 5 && ';' !in s && Trim(s) == s
    {
      FilterMember(Statements(sql), LongEnough, s);
    }
  }

  /** The statements of a run, one per attempt. */
  lemma SentStatementsOf(attempts: seq<Attempt>, head: seq<Attempt>, statements: seq<string>, accepts: string -> bool)
    requires attempts == head + Sent(statements, accepts)
    ensures SentStatements(Ran(attempts)) == SentStatements(Ran(head)) + statements
  {
    assert |SentStatements(Ran(attempts))| == |head| + |statements|;
    forall k | 0 <= k < |attempts|
      ensures SentStatements(Ran(attempts))[k] == (SentStatements(Ran(head)) + statements)[k]
    {
      if k >= |head| {
        assert attempts[k] == Sent(statements, accepts)[k - |head|];
      }
    }
  }

  /**
   * The `.ts` script falls back to the statements exactly when the whole
   * text is rejected, and then sends every statement, short ones included.
   */
  lemma TsFallback(sql: string, accepts: string -> bool)
    ensures var sent := [Attempt(sql, accepts(sql))] + (if accepts(sql) then [] else Sent(Statements(sql), accepts));
            && (accepts(sql) ==> SentStatements(Ran(sent)) == [sql])
            && (!accepts(sql) ==> SentStatements(Ran(sent)) == [sql] + Statements(sql))
  {
    var head := [Attempt(sql, accepts(sql))];
    assert SentStatements(Ran(head)) == [sql];
    if accepts(sql) {
      assert head + [] == head;
    } else {
      SentStatementsOf(head + Sent(Statements(sql), accepts), head, Statements(sql), accepts);
    }
  }
}
