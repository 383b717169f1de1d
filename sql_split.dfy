/** The migration tool's handling of SQL text (cmd/migration/main.go,
    `splitSQLStatements` and the `USE` check of `executeStatement`): a
    migration file is cut into statements, and each statement is sent either
    to the transaction or, for `USE`, straight to the connection. */
module SqlScript {
  import opened Common

  // ---------------------------------------------------------------------------
  // The specification of the splitter

  /** A line kept by the splitter: trimmed, and neither blank nor a `--` comment. */
  predicate KeptLine(line: string)
  {
    line != "" && !HasPrefix(line, "--")
  }

  /** The trimmed lines that are neither blank nor comments, in order. */
  function CleanLines(lines: seq<string>): (r: seq<string>)
    ensures |r| <= |lines|
    ensures forall i :: 0 <= i < |r| ==> KeptLine(r[i]) && Trimmed(r[i])
  {
    if lines == [] then []
    else
      var line := TrimSpace(lines[|lines| - 1]);
      CleanLines(lines[..|lines| - 1]) + (if KeptLine(line) then [line] else [])
  }

  /** The trimmed pieces that are not empty, in order. */
  function NonEmptyStatements(pieces: seq<string>): (r: seq<string>)
    ensures |r| <= |pieces|
    ensures forall i :: 0 <= i < |r| ==> r[i] != "" && Trimmed(r[i])
  {
    if pieces == [] then []
    else
      var stmt := TrimSpace(pieces[|pieces| - 1]);
      NonEmptyStatements(pieces[..|pieces| - 1]) + (if stmt != "" then [stmt] else [])
  }

  /** `splitSQLStatements`: comment and blank lines dropped, the other lines
      trimmed and joined with single spaces, the result cut at every `;`, and
      the pieces trimmed with empty ones dropped. */
  function SplitSql(content: string): seq<string>
  {
    NonEmptyStatements(Split(Join(CleanLines(Split(content, '\n')), " "), ';'))
  }

  lemma CleanLinesStep(lines: seq<string>, i: nat)
    requires i < |lines|
    ensures var line := TrimSpace(lines[i]);
      CleanLines(lines[..i + 1]) == CleanLines(lines[..i]) + (if KeptLine(line) then [line] else [])
  {
    assert lines[..i + 1][..i] == lines[..i];
  }

  lemma NonEmptyStatementsStep(pieces: seq<string>, i: nat)
    requires i < |pieces|
    ensures var stmt := TrimSpace(pieces[i]);
      NonEmptyStatements(pieces[..i + 1]) == NonEmptyStatements(pieces[..i]) + (if stmt != "" then [stmt] else [])
  {
    assert pieces[..i + 1][..i] == pieces[..i];
  }

  /** The splitter, as the code runs it: two loops around `Split` and `Join`. */
  method SplitSqlStatements(content: string) returns (result: seq<string>)
    ensures result == SplitSql(content)
  {
    var lines := Split(content, '\n');
    var cleanLines: seq<string> := [];
    for i := 0 to |lines|
      invariant cleanLines == CleanLines(lines[..i])
    {
      var line := TrimSpace(lines[i]);
      CleanLinesStep(lines, i);
      if line == "" || HasPrefix(line, "--") {
        continue;
      }
      cleanLines := cleanLines + [line];
    }
    assert lines[..|lines|] == lines;
    var statements := Split(Join(cleanLines, " "), ';');
    result := [];
    for i := 0 to |statements|
      invariant result == NonEmptyStatements(statements[..i])
    {
      var stmt := TrimSpace(statements[i]);
      NonEmptyStatementsStep(statements, i);
      if stmt != "" {
        result := result + [stmt];
      }
    }
    assert statements[..|statements|] == statements;
  }

  // ---------------------------------------------------------------------------
  // Properties of the splitter

  lemma {:induction false} SplitAvoids(s: string, sep: char, c: char)
    requires c !in s
    ensures forall i :: 0 <= i < |Split(s, sep)| ==> c !in Split(s, sep)[i]
  {
    if s != [] {
      SplitAvoids(s[1..], sep, c);
    }
  }

  lemma {:induction false} SplitWithoutSeparator(s: string, sep: char)
    requires sep !in s
    ensures Split(s, sep) == [s]
  {
    if s != [] {
      SplitWithoutSeparator(s[1..], sep);
      assert [s[0]] + s[1..] == s;
    }
  }

  lemma {:induction false} JoinAvoids(parts: seq<string>, sep: string, c: char)
    requires c !in sep
    requires forall i :: 0 <= i < |parts| ==> c !in parts[i]
    ensures c !in Join(parts, sep)
  {
    if |parts| > 1 {
      JoinAvoids(parts[1..], sep, c);
    }
  }

  /** Joining non-empty trimmed lines with single spaces gives a non-empty
      trimmed text. */
  lemma {:induction false} JoinTrimmed(parts: seq<string>)
    requires |parts| >= 1
    requires forall i :: 0 <= i < |parts| ==> parts[i] != "" && Trimmed(parts[i])
    ensures Join(parts, " ") != "" && Trimmed(Join(parts, " "))
  {
    if |parts| > 1 {
      JoinTrimmed(parts[1..]);
      var rest := Join(parts[1..], " ");
      var j := parts[0] + " " + rest;
      assert Join(parts, " ") == j;
      assert j[0] == parts[0][0];
      assert j[|j| - 1] == rest[|rest| - 1];
    }
  }

  /** No statement is empty, every statement is trimmed, and none holds a `;`. */
  lemma StatementsShape(content: string)
    ensures forall i :: 0 <= i < |SplitSql(content)| ==>
      SplitSql(content)[i] != "" && Trimmed(SplitSql(content)[i]) && ';' !in SplitSql(content)[i]
  {
    var pieces := Split(Join(CleanLines(Split(content, '\n')), " "), ';');
    StatementsAvoid(pieces, ';');
  }

  lemma {:induction false} StatementsAvoid(pieces: seq<string>, c: char)
    requires forall i :: 0 <= i < |pieces| ==> c !in pieces[i]
    ensures forall i :: 0 <= i < |NonEmptyStatements(pieces)| ==> c !in NonEmptyStatements(pieces)[i]
  {
    if pieces != [] {
      StatementsAvoid(pieces[..|pieces| - 1], c);
      TrimSpaceAvoids(pieces[|pieces| - 1], c);
    }
  }

  /** A blank line or a `--` comment line contributes nothing. */
  lemma CommentLineIgnored(lines: seq<string>, line: string)
    requires !KeptLine(TrimSpace(line))
    ensures CleanLines(lines + [line]) == CleanLines(lines)
  {
    assert (lines + [line])[..|lines|] == lines;
  }

  /** Text without a `;` whose kept lines are not all blank or comments is one
      statement: its kept lines, trimmed and joined with single spaces. */
  lemma MultiLineStatement(content: string)
    requires ';' !in content
    requires CleanLines(Split(content, '\n')) != []
    ensures SplitSql(content) == [Join(CleanLines(Split(content, '\n')), " ")]
  {
    var lines := Split(content, '\n');
    var clean := CleanLines(lines);
    SplitAvoids(content, '\n', ';');
    LinesAvoid(lines, ';');
    JoinAvoids(clean, " ", ';');
    var joined := Join(clean, " ");
    JoinTrimmed(clean);
    SplitWithoutSeparator(joined, ';');
    assert [joined][..0] == [];
  }

  lemma {:induction false} LinesAvoid(lines: seq<string>, c: char)
    requires forall i :: 0 <= i < |lines| ==> c !in lines[i]
    ensures forall i :: 0 <= i < |CleanLines(lines)| ==> c !in CleanLines(lines)[i]
  {
    if lines != [] {
      LinesAvoid(lines[..|lines| - 1], c);
      TrimSpaceAvoids(lines[|lines| - 1], c);
    }
  }

  // ---------------------------------------------------------------------------
  // `executeStatement`'s classification

  /** Where a statement goes: nowhere (blank), to the connection (`USE`),
      or into the transaction. */
  datatype StatementKind = Skipped | OnConnection | InTransaction

  function Classify(statement: string): StatementKind
  {
    var s := TrimSpace(statement);
    if s == "" then Skipped
    else if HasPrefix(ToUpper(s), "USE ") then OnConnection
    else InTransaction
  }

  /** The statements of one kind, trimmed, in order. */
  function OfKind(statements: seq<string>, kind: StatementKind): seq<string>
  {
    if statements == [] then []
    else
      var last := statements[|statements| - 1];
      OfKind(statements[..|statements| - 1], kind) + (if Classify(last) == kind then [TrimSpace(last)] else [])
  }

  /** Every statement the splitter produces is executed somewhere. */
  lemma SplitNeverSkipped(content: string)
    ensures forall i :: 0 <= i < |SplitSql(content)| ==> Classify(SplitSql(content)[i]) != Skipped
  {
    StatementsShape(content);
  }

  /** `USE` is recognised in any letter case, followed by a space. */
  lemma UseAnyCase(u: char, s: char, e: char, name: string)
    requires u in "uU" && s in "sS" && e in "eE"
    requires name != "" && Trimmed(name)
    ensures Classify([u, s, e, ' '] + name) == OnConnection
  {
    var stmt := [u, s, e, ' '] + name;
    assert Trimmed(stmt);
    assert ToUpper(stmt)[..4] == "USE ";
  }

  /** `USE`, in any case, followed by a tab rather than a space is sent to
      the transaction, whatever follows. */
  lemma UseWithTabInTransaction(u: string, name: string)
    requires ToUpper(u) == "USE"
    ensures Classify(u + "\t" + name) == InTransaction
  {
    var stmt := u + "\t" + name;
    assert stmt[0] == u[0] && UpperChar(u[0]) == 'U';
    TrimmedPrefix(stmt);
    var t := TrimSpace(stmt);
    if |t| >= 4 {
      assert t[3] == stmt[3] == '\t';
    }
    NoUseSpace(t);
  }

  /** A statement that starts with a character other than white space keeps
      its start when trimmed. */
  lemma TrimmedPrefix(s: string)
    requires s != [] && !IsSpace(s[0])
    ensures TrimSpace(s) != [] && TrimSpace(s) == s[..|TrimSpace(s)|]
  {
    var t := TrimSpace(s);
    TrimSpaceSlice(s);
    var i, j :| Surrounds(s, i, j) && t == s[i..j];
    assert !(0 < i || j <= 0);
  }

  /** A string whose fourth character, if it has one, is a tab does not
      start with `USE ` once upper-cased. */
  lemma NoUseSpace(t: string)
    requires |t| >= 4 ==> t[3] == '\t'
    ensures !HasPrefix(ToUpper(t), "USE ")
  {
    if |t| >= 4 {
      assert ToUpper(t)[3] == '\t';
      assert ToUpper(t)[..4][3] != "USE "[3];
    }
  }
}
