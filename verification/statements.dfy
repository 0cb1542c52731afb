/**
 * Statement parsing and batching: how the user's free text becomes a list of
 * statements (`parse_statements`) and how that list is joined back into the
 * single query parameter sent to the classifier (`"|".join`).
 */
module Statements {

  /** Python's `str.isspace()` for one character: the characters `str.strip()` removes. */
  predicate IsSpace(c: char)
  {
    var n := c as int;
    (9 <= n <= 13) || (28 <= n <= 32) || n == 133 || n == 160 || n == 5760
    || (8192 <= n <= 8202) || n == 8232 || n == 8233 || n == 8239 || n == 8287 || n == 12288
  }

  predicate IsBlank(s: string)
  {
    forall i | 0 <= i < |s| :: IsSpace(s[i])
  }

  /** Neither starts nor ends with whitespace: what `strip()` returns. */
  predicate IsTrimmed(s: string)
  {
    s == [] || (!IsSpace(s[0]) && !IsSpace(s[|s| - 1]))
  }

  /** `lstrip()`: drops the longest all-whitespace prefix. */
  function TrimLeft(s: string): (r: string)
    ensures |r| <= |s|
  {
    if s != [] && IsSpace(s[0]) then TrimLeft(s[1..]) else s
  }

  lemma {:induction false} TrimLeftSpec(s: string)
    ensures TrimLeft(s) == s[|s| - |TrimLeft(s)|..] && IsBlank(s[..|s| - |TrimLeft(s)|])
    ensures TrimLeft(s) == [] || !IsSpace(TrimLeft(s)[0])
  {
    if s != [] && IsSpace(s[0]) {
      TrimLeftSpec(s[1..]);
      var r := TrimLeft(s[1..]);
      assert s[1..][..|s| - 1 - |r|] == s[1..|s| - |r|];
    }
  }

  /** `rstrip()`: drops the longest all-whitespace suffix. */
  function TrimRight(s: string): (r: string)
    ensures |r| <= |s|
  {
    if s != [] && IsSpace(s[|s| - 1]) then TrimRight(s[..|s| - 1]) else s
  }

  lemma {:induction false} TrimRightSpec(s: string)
    ensures TrimRight(s) == s[..|TrimRight(s)|] && IsBlank(s[|TrimRight(s)|..])
    ensures TrimRight(s) == [] || !IsSpace(TrimRight(s)[|TrimRight(s)| - 1])
  {
    if s != [] && IsSpace(s[|s| - 1]) {
      TrimRightSpec(s[..|s| - 1]);
      var r := TrimRight(s[..|s| - 1]);
      assert s[..|s| - 1][|r|..] == s[|r|..|s| - 1];
      assert forall i | |r| <= i < |s| - 1 :: s[i] == s[..|s| - 1][|r|..][i - |r|];
    }
  }

  /** `strip()`: removes whitespace at both ends; only an all-whitespace string strips to nothing. */
  function Strip(s: string): (r: string)
    ensures IsTrimmed(r)
    ensures r == [] <==> IsBlank(s)
  {
    var l := TrimLeft(s);
    var r := TrimRight(l);
    TrimLeftSpec(s);
    TrimRightSpec(l);
    if r == [] then
      assert l[0..] == l;
      assert l == [];
      assert s[..|s|] == s;
      r
    else
      assert r[0] == l[0] == s[|s| - |l|];
      r
  }

  /** `sep.join(parts)`. */
  function Join(parts: seq<string>, sep: char): string
  {
    if |parts| == 0 then ""
    else if |parts| == 1 then parts[0]
    else parts[0] + [sep] + Join(parts[1..], sep)
  }

  /** `s.split(sep)` for a one-character separator: the pieces between separators, empty ones included. */
  function Split(s: string, sep: char): (pieces: seq<string>)
    ensures |pieces| >= 1
    ensures forall k | 0 <= k < |pieces| :: sep !in pieces[k]
    ensures Join(pieces, sep) == s
  {
    if s == [] then [""]
    else
      var rest := Split(s[1..], sep);
      if s[0] == sep then
        [""] + rest
      else
        var pieces := [[s[0]] + rest[0]] + rest[1..];
        assert Join(pieces, sep) == [s[0]] + Join(rest, sep);
        pieces
  }

  /** A statement as `parse_statements` keeps it: not empty, and stripped. */
  predicate IsStatement(s: string)
  {
    s != "" && IsTrimmed(s)
  }

  predicate AllStatements(ss: seq<string>)
  {
    forall k | 0 <= k < |ss| :: IsStatement(ss[k])
  }

  /** `[p.strip() for p in pieces if p.strip()]`. */
  function Clean(pieces: seq<string>): (r: seq<string>)
    ensures |r| <= |pieces|
  {
    if pieces == [] then [] else Kept(pieces[0]) + Clean(pieces[1..])
  }

  /** What one piece contributes: its stripped self, unless that is empty. */
  function Kept(piece: string): (r: seq<string>)
    ensures |r| <= 1
  {
    var s := Strip(piece);
    if s != "" then [s] else []
  }

  /** Every cleaned piece is a statement. */
  lemma {:induction false} CleanStatements(pieces: seq<string>)
    ensures AllStatements(Clean(pieces))
  {
    if pieces != [] {
      CleanCons(pieces);
      CleanStatements(pieces[1..]);
      AllStatementsAppend(Kept(pieces[0]), Clean(pieces[1..]));
    }
  }

  lemma AllStatementsAppend(a: seq<string>, b: seq<string>)
    requires AllStatements(a) && AllStatements(b)
    ensures AllStatements(a + b)
  {
    assert forall k | |a| <= k < |a + b| :: (a + b)[k] == b[k - |a|];
  }

  /** The separator `parse_statements` splits on: `|` if the text has one, otherwise a newline. */
  function Separator(text: string): (sep: char)
    ensures forall k | 0 <= k < |Split(text, sep)| :: '|' !in Split(text, sep)[k]
  {
    var sep := if '|' in text then '|' else '\n';
    SplitAvoids(text, sep, '|');
    sep
  }

  /** A character that is the separator, or absent from the text, is absent from every piece. */
  lemma {:induction false} SplitAvoids(s: string, sep: char, c: char)
    requires c == sep || c !in s
    ensures forall k | 0 <= k < |Split(s, sep)| :: c !in Split(s, sep)[k]
  {
    if s != [] {
      SplitAvoids(s[1..], sep, c);
      var rest := Split(s[1..], sep);
      if s[0] != sep {
        assert c !in [s[0]] + rest[0];
      }
    }
  }

  /** `parse_statements(text)`. */
  function ParseStatements(text: string): (statements: seq<string>)
    ensures forall k | 0 <= k < |statements| :: statements[k] != "" && IsTrimmed(statements[k])
  {
    var statements := Clean(Split(text, Separator(text)));
    CleanStatements(Split(text, Separator(text)));
    statements
  }

  /** The query parameter `call_api` sends: `"|".join(statements)`. */
  function JoinStatements(statements: seq<string>): (query: string)
    ensures statements != [] && (forall k | 0 <= k < |statements| :: '|' !in statements[k]) ==>
      Split(query, '|') == statements
  {
    if statements != [] && forall k | 0 <= k < |statements| :: '|' !in statements[k] then
      SplitJoin(statements, '|');
      Join(statements, '|')
    else Join(statements, '|')
  }

  // ---------------------------------------------------------------------------
  // Properties
  // ---------------------------------------------------------------------------

  /** `strip()` leaves an already trimmed string alone. */
  lemma {:induction false} StripTrimmed(s: string)
    requires IsTrimmed(s)
    ensures Strip(s) == s
  {
    assert TrimLeft(s) == s;
    assert TrimRight(s) == s;
  }

  /** Cleaning keeps clean pieces as they are. */
  lemma {:induction false} CleanIdentity(pieces: seq<string>)
    requires forall k | 0 <= k < |pieces| :: pieces[k] != "" && IsTrimmed(pieces[k])
    ensures Clean(pieces) == pieces
  {
    if pieces != [] {
      StripTrimmed(pieces[0]);
      CleanIdentity(pieces[1..]);
    }
  }

  /** Cleaning works piece by piece, so the statements keep the input order. */
  lemma {:induction false} CleanAppend(a: seq<string>, b: seq<string>)
    ensures Clean(a + b) == Clean(a) + Clean(b)
  {
    if a == [] {
      assert a + b == b;
    } else {
      CleanAppend(a[1..], b);
      CleanAppendStep(a, b);
    }
  }

  /** One step of `CleanAppend`: the first piece of `a` is also the first piece of `a + b`. */
  lemma CleanAppendStep(a: seq<string>, b: seq<string>)
    requires a != []
    requires Clean(a[1..] + b) == Clean(a[1..]) + Clean(b)
    ensures Clean(a + b) == Clean(a) + Clean(b)
  {
    assert (a + b)[0] == a[0];
    assert (a + b)[1..] == a[1..] + b;
    CleanCons(a + b);
    CleanCons(a);
    AppendAssociative(Kept(a[0]), Clean(a[1..]), Clean(b));
  }

  lemma AppendAssociative<T>(x: seq<T>, y: seq<T>, z: seq<T>)
    ensures x + (y + z) == (x + y) + z
  {
  }

  /** Cleaning takes the first piece, stripped, unless it is blank, then cleans the rest. */
  lemma CleanCons(pieces: seq<string>)
    requires pieces != []
    ensures Clean(pieces) == Kept(pieces[0]) + Clean(pieces[1..])
  {
  }

  /** All pieces clean away exactly when they are all blank. */
  lemma {:induction false} CleanEmptyIff(pieces: seq<string>)
    ensures Clean(pieces) == [] <==> forall k | 0 <= k < |pieces| :: IsBlank(pieces[k])
  {
    if pieces != [] {
      CleanCons(pieces);
      CleanEmptyIff(pieces[1..]);
      assert forall k | 1 <= k < |pieces| :: pieces[k] == pieces[1..][k - 1];
    }
  }

  /** Every piece of the split is blank exactly when the text holds only whitespace and separators. */
  lemma {:induction false} SplitBlankIff(s: string, sep: char)
    ensures (forall k | 0 <= k < |Split(s, sep)| :: IsBlank(Split(s, sep)[k]))
        <==> (forall i | 0 <= i < |s| :: IsSpace(s[i]) || s[i] == sep)
  {
    if s != [] {
      SplitBlankIff(s[1..], sep);
      var rest := Split(s[1..], sep);
      assert forall i | 1 <= i < |s| :: s[i] == s[1..][i - 1];
      if s[0] == sep {
        assert Split(s, sep) == [""] + rest;
        assert forall k | 1 <= k < |Split(s, sep)| :: Split(s, sep)[k] == rest[k - 1];
      } else {
        var first := [s[0]] + rest[0];
        assert Split(s, sep) == [first] + rest[1..];
        assert IsBlank(first) <==> IsSpace(s[0]) && IsBlank(rest[0]) by {
          assert first[0] == s[0];
          assert forall i | 0 <= i < |rest[0]| :: rest[0][i] == first[i + 1];
        }
        assert forall k | 1 <= k < |Split(s, sep)| :: Split(s, sep)[k] == rest[k];
      }
    }
  }

  /** A text without the separator is one piece. */
  lemma {:induction false} SplitWithoutSeparator(s: string, sep: char)
    requires sep !in s
    ensures Split(s, sep) == [s]
  {
    if s != [] {
      SplitWithoutSeparator(s[1..], sep);
    }
  }

  /** Splitting a join of separator-free parts gives the parts back. */
  lemma {:induction false} SplitJoin(parts: seq<string>, sep: char)
    requires |parts| >= 1
    requires forall k | 0 <= k < |parts| :: sep !in parts[k]
    ensures Split(Join(parts, sep), sep) == parts
  {
    if |parts| == 1 {
      SplitWithoutSeparator(parts[0], sep);
    } else {
      SplitJoin(parts[1..], sep);
      SplitPrefix(parts[0], Join(parts[1..], sep), sep);
    }
  }

  /** Splitting `p + [sep] + t` for a separator-free `p` puts `p` in front of the pieces of `t`. */
  lemma {:induction false} SplitPrefix(p: string, t: string, sep: char)
    requires sep !in p
    ensures Split(p + [sep] + t, sep) == [p] + Split(t, sep)
  {
    if p == [] {
      assert ([sep] + t)[1..] == t;
    } else {
      assert (p + [sep] + t)[1..] == p[1..] + [sep] + t;
      SplitPrefix(p[1..], t, sep);
      assert [p[0]] + p[1..] == p;
    }
  }

  /** A join of two or more parts contains the separator. */
  lemma JoinHasSeparator(parts: seq<string>, sep: char)
    requires |parts| >= 2
    ensures sep in Join(parts, sep)
  {
    assert Join(parts, sep)[|parts[0]|] == sep;
  }

  /** Text made only of whitespace and `|` gives no statements, and only such text does. */
  lemma ParseEmptyIff(text: string)
    ensures ParseStatements(text) == [] <==> forall i | 0 <= i < |text| :: IsSpace(text[i]) || text[i] == '|'
  {
    var sep := Separator(text);
    assert ParseStatements(text) == Clean(Split(text, sep));
    CleanEmptyIff(Split(text, sep));
    SplitBlankIff(text, sep);
    if sep == '\n' {
      assert IsSpace('\n');
      assert forall i | 0 <= i < |text| :: text[i] != '|';
    }
  }

  /** Text without `|` and without a line break is a single statement, its stripped self. */
  lemma SingleStatement(text: string)
    requires '|' !in text && '\n' !in text
    requires Strip(text) != ""
    ensures ParseStatements(text) == [Strip(text)]
  {
    SplitWithoutSeparator(text, '\n');
  }

  /** Round trip of the batching: parsing the `|`-joined batch gives the statements back. */
  lemma ParseJoinRoundTrip(statements: seq<string>)
    requires forall k | 0 <= k < |statements| :: statements[k] != "" && IsTrimmed(statements[k]) && '|' !in statements[k]
    requires |statements| == 1 ==> '\n' !in statements[0]
    ensures ParseStatements(JoinStatements(statements)) == statements
  {
    var text := JoinStatements(statements);
    if |statements| == 0 {
      assert Split(text, '\n') == [""];
    } else if |statements| == 1 {
      SplitWithoutSeparator(statements[0], '\n');
      StripTrimmed(statements[0]);
    } else {
      JoinHasSeparator(statements, '|');
      SplitJoin(statements, '|');
      CleanIdentity(statements);
    }
  }
}
