/** What the statement splitter guarantees, and where it is blind. */
module UiAutomatorParserFacts {

  import opened Wrappers
  import opened Text
  import opened UiAutomatorParser

  /** Parsing succeeds with one selector per statement, each from that statement, in order. */
  lemma {:induction false} ParseAllEach<S>(p: SubParsers<S>, statements: seq<string>)
    requires ParseAll(p, statements).Ok?
    ensures |ParseAll(p, statements).value| == |statements|
    ensures forall i :: 0 <= i < |statements| ==>
      ParseOne(p, statements[i]).Ok? && ParseAll(p, statements).value[i] == ParseOne(p, statements[i]).value
  {
    if statements != [] {
      ParseAllEach(p, statements[1..]);
      forall i | 0 <= i < |statements|
        ensures ParseOne(p, statements[i]).Ok? && ParseAll(p, statements).value[i] == ParseOne(p, statements[i]).value
      {
        if i > 0 {
          assert statements[i] == statements[1..][i - 1];
        }
      }
    }
  }

  /** A failed parse reports the error of a statement's own parser. */
  lemma {:induction false} ParseAllError<S>(p: SubParsers<S>, statements: seq<string>)
    requires ParseAll(p, statements).Err?
    ensures exists i :: 0 <= i < |statements| && ParseOne(p, statements[i]) == Err(ParseAll(p, statements).error)
  {
    if ParseOne(p, statements[0]).Ok? {
      ParseAllError(p, statements[1..]);
      var i :| 0 <= i < |statements[1..]| && ParseOne(p, statements[1..][i]) == Err(ParseAll(p, statements).error);
      assert statements[1..][i] == statements[i + 1];
    }
  }

  /**
   * The only errors of parse are the empty input, the blank input, and the
   * errors of the sub-parsers: the ';' check between statements never fails.
   */
  lemma ParseErrors<S>(p: SubParsers<S>, input: string)
    requires ParseResult(p, input).Err?
    ensures var e := ParseResult(p, input).error;
      (input == [] && e == EMPTY_MESSAGE) ||
      (input != [] && Trim(JavaBlank, input) == [] && e == INDEX_OUT_OF_BOUNDS) ||
      (input != [] && Trim(JavaBlank, input) != [] &&
       exists st :: st in Split(Prepared(Trim(JavaBlank, input))) && ParseOne(p, st) == Err(e))
  {
    if input != [] && Trim(JavaBlank, input) != [] {
      var statements := Split(Prepared(Trim(JavaBlank, input)));
      ParseAllError(p, statements);
      var i :| 0 <= i < |statements| && ParseOne(p, statements[i]) == Err(ParseResult(p, input).error);
      assert statements[i] in statements;
    }
  }

  /** Input made only of blanks (but not empty) fails reading the last character, not with the syntax error. */
  lemma BlankInputIndexError<S>(p: SubParsers<S>, input: string)
    requires input != [] && forall k :: 0 <= k < |input| ==> IsBlank(JavaBlank, input[k])
    ensures ParseResult(p, input) == Err(INDEX_OUT_OF_BOUNDS)
  {
    TrimEmptyIff(JavaBlank, input);
  }

  /** Only one trailing ';' is dropped: of ";;" at the end, the first stays. */
  lemma OneSemicolonDropped(t: string)
    requires |t| >= 2 && t[|t| - 1] == ';' && t[|t| - 2] == ';'
    ensures Prepared(t) != [] && Prepared(t)[|Prepared(t)| - 1] == ';'
  {
    var u := t[..|t| - 1];
    TrimStrips(JavaBlank, u);
    var v := StripLeading(JavaBlank, u);
    assert v != [] && v[|v| - 1] == ';' by {
      StripLeadingBlanks(JavaBlank, u);
      assert u[|u| - 1] == ';';
    }
  }

  /** Before the first '(' the count is negative, so no ';' there ends a statement. */
  lemma {:induction false} NoSplitBeforeParen(s: string, i: nat)
    requires i <= |s| && forall j :: 0 <= j < i ==> s[j] != '('
    ensures Depth(s, i) < 0
    ensures forall j :: 0 <= j <= i && j < |s| ==> !SplitsAt(s, j)
  {
    if i > 0 {
      NoSplitBeforeParen(s, i - 1);
    }
  }

  /** The count at a position looks only at the characters before it. */
  lemma {:induction false} DepthPrefix(s: string, e: nat, i: nat)
    requires i <= e <= |s|
    ensures Depth(s[..e], i) == Depth(s, i)
  {
    if i > 0 {
      DepthPrefix(s, e, i - 1);
      assert s[..e][i - 1] == s[i - 1];
    }
  }

  /** The first statement of a text holds no split position of its own. */
  lemma FirstStatementWhole(t: string)
    ensures StatementEnd(t[..StatementEnd(t)]) == StatementEnd(t)
  {
    var e := StatementEnd(t);
    var st := t[..e];
    forall j | 0 <= j < e
      ensures !SplitsAt(st, j)
    {
      DepthPrefix(t, e, j);
      assert !SplitsAt(t, j);
    }
    FirstSplit(st, e);
  }

  /** Splitting any statement again gives that statement alone. */
  lemma {:induction false} StatementsWhole(t: string)
    ensures forall i :: 0 <= i < |Split(t)| ==> Split(Split(t)[i]) == [Split(t)[i]]
    decreases |t|, 1
  {
    var e := StatementEnd(t);
    var st := t[..e];
    FirstStatementWhole(t);
    assert StatementEnd(st) == |st| && st[..|st|] == st;
    assert Tail(st[|st|..]) == [];
    assert Split(st) == [st];
    TailWhole(t[e..]);
  }

  lemma {:induction false} TailWhole(text: string)
    ensures forall i :: 0 <= i < |Tail(text)| ==> Split(Tail(text)[i]) == [Tail(text)[i]]
    decreases |text|, 0
  {
    if text != [] {
      var r := Trim(JavaBlank, text);
      if r != [] && r[0] == ';' {
        StatementsWhole(Trim(JavaBlank, r[1..]));
      }
    }
  }

  /**
   * Parentheses inside string literals are counted like any other: in
   * `t(")");u` the quoted ')' closes the call early, the real ')' drives the
   * count below zero, and the ';' no longer separates two statements.
   */
  lemma QuotedParenCounts()
    ensures Split("t(\")\");u") == ["t(\")\");u"]
  {
    var s := "t(\")\");u";
    assert Depth(s, 6) == -1 by {
      assert Depth(s, 1) == -1;
      assert Depth(s, 2) == 1;
      assert Depth(s, 3) == 1;
      assert Depth(s, 4) == 0;
      assert Depth(s, 5) == 0;
    }
    assert Depth(s, 7) == -1;
    forall j | 0 <= j < |s|
      ensures !SplitsAt(s, j)
    {
      if j != 6 {
        assert s[j] != ';';
      }
    }
    FirstSplit(s, |s|);
    assert s[..|s|] == s;
  }
}
