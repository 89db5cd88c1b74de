/**
 * The splitter behind the "-android uiautomator" locator strategy: the locator
 * text is cut into statements at ';' where the parenthesis count is back at
 * zero, and each statement is handed to the scrollable or the selector parser.
 * Those two parsers are parameters here.
 */
module UiAutomatorParser {

  import opened Wrappers
  import opened Text

  const EMPTY_MESSAGE := "Tried to parse an empty string. Expected to see a string consisting of text to be interpreted as UiAutomator java code."
  const INDEX_OUT_OF_BOUNDS := "StringIndexOutOfBoundsException"

  function ExpectedSemicolon(saw: char): string {
    "Expected ';' but saw '" + [saw] + "'"
  }

  /** The two sub-parsers and the test that chooses between them. */
  datatype SubParsers<S> = SubParsers(
    isScrollable: string -> bool,
    scrollable: string -> Result<S, string>,
    selector: string -> Result<S, string>)

  /** One statement through the parser its kind calls for. */
  function ParseOne<S>(p: SubParsers<S>, statement: string): (r: Result<S, string>)
    ensures p.isScrollable(statement) ==> r == p.scrollable(statement)
    ensures !p.isScrollable(statement) ==> r == p.selector(statement)
  {
    if p.isScrollable(statement) then p.scrollable(statement) else p.selector(statement)
  }

  /** The statements parsed in order; the first failure is the result. */
  function ParseAll<S>(p: SubParsers<S>, statements: seq<string>): (r: Result<seq<S>, string>)
    ensures r.Ok? ==> |r.value| == |statements|
    ensures statements != [] && ParseOne(p, statements[0]).Err? ==> r == Err(ParseOne(p, statements[0]).error)
  {
    if statements == [] then Ok([])
    else
      match ParseOne(p, statements[0])
      case Err(e) => Err(e)
      case Ok(v) =>
        match ParseAll(p, statements[1..])
        case Err(e) => Err(e)
        case Ok(vs) => Ok([v] + vs)
  }

  /** The parenthesis count after one more character: the first '(' sets it to 1 while it is negative. */
  function Count(parenCount: int, c: char): int {
    if c == '(' then (if parenCount < 0 then 1 else parenCount + 1)
    else if c == ')' then parenCount - 1
    else parenCount
  }

  /** The parenthesis count after the first `i` characters, starting from -1. */
  function Depth(s: string, i: nat): int
    requires i <= |s|
  {
    if i == 0 then -1 else Count(Depth(s, i - 1), s[i - 1])
  }

  /** A ';' at which the count is zero ends the statement. */
  predicate SplitsAt(s: string, i: nat) {
    i < |s| && s[i] == ';' && Depth(s, i) == 0
  }

  /** The first split position from `i` on, or the end of the text. */
  function EndFrom(s: string, i: nat): (r: nat)
    requires i <= |s|
    ensures i <= r <= |s|
    ensures r == |s| || SplitsAt(s, r)
    ensures forall j :: i <= j < r ==> !SplitsAt(s, j)
    decreases |s| - i
  {
    if i == |s| || SplitsAt(s, i) then i else EndFrom(s, i + 1)
  }

  function StatementEnd(s: string): nat {
    EndFrom(s, 0)
  }

  /** The first statement of `t` and then those after the ';' ending it. */
  function Split(t: string): seq<string>
    decreases |t|, 1
  {
    var e := StatementEnd(t);
    [t[..e]] + Tail(t[e..])
  }

  /**
   * What follows a statement: nothing, or a ';' (blanks around it dropped)
   * and further statements.  A text that does not start with ';' cannot
   * follow a statement.
   */
  function Tail(text: string): seq<string>
    decreases |text|, 0
  {
    if text == [] then []
    else
      var r := Trim(JavaBlank, text);
      if r == [] || r[0] != ';' then []
      else Split(Trim(JavaBlank, r[1..]))
  }

  /** The text after trimming, dropping one trailing ';' and trimming again. */
  function Prepared(t: string): string
    requires t != []
  {
    Trim(JavaBlank, if t[|t| - 1] == ';' then t[..|t| - 1] else t)
  }

  /** What parse returns for a locator string. */
  function ParseResult<S>(p: SubParsers<S>, input: string): Result<seq<S>, string> {
    if input == [] then Err(EMPTY_MESSAGE)
    else
      var t := Trim(JavaBlank, input);
      if t == [] then Err(INDEX_OUT_OF_BOUNDS)
      else ParseAll(p, Split(Prepared(t)))
  }

  class UiAutomatorParser<S> {
    var text: string
    var selectors: seq<S>

    constructor()
      ensures text == [] && selectors == []
    {
      text := [];
      selectors := [];
    }

    method TrimWhitespace()
      modifies this
      ensures text == Trim(JavaBlank, old(text)) && selectors == old(selectors)
    {
      text := Trim(JavaBlank, text);
    }

    /** Drops one trailing ';'; reading the last character of an empty text throws. */
    method RemoveTailingSemicolon() returns (err: Option<string>)
      modifies this
      ensures err.Some? <==> old(text) == []
      ensures err.Some? ==> err.value == INDEX_OUT_OF_BOUNDS
      ensures err.None? ==>
        (if old(text)[|old(text)| - 1] == ';' then text == old(text)[..|old(text)| - 1] else text == old(text))
      ensures err.Some? ==> text == old(text)
      ensures selectors == old(selectors)
    {
      if |text| == 0 {
        return Some(INDEX_OUT_OF_BOUNDS);
      }
      if text[|text| - 1] == ';' {
        text := text[..|text| - 1];
      }
      return None;
    }

    /** Drops the ';' the text must start with. */
    method ConsumeSemicolon() returns (err: Option<string>)
      modifies this
      ensures old(text) == [] ==> err == Some(INDEX_OUT_OF_BOUNDS)
      ensures old(text) != [] && old(text)[0] != ';' ==> err == Some(ExpectedSemicolon(old(text)[0]))
      ensures old(text) != [] && old(text)[0] == ';' ==> err.None? && text == old(text)[1..]
      ensures err.Some? ==> text == old(text)
      ensures selectors == old(selectors)
    {
      if |text| == 0 {
        return Some(INDEX_OUT_OF_BOUNDS);
      }
      if text[0] != ';' {
        return Some(ExpectedSemicolon(text[0]));
      }
      text := text[1..];
      return None;
    }

    /**
     * Scans to the first ';' at parenthesis count zero (or the end), parses
     * the statement before it and keeps the rest, that ';' included.
     */
    method ConsumeStatement(p: SubParsers<S>) returns (err: Option<string>)
      modifies this
      ensures var statement := old(text)[..StatementEnd(old(text))];
        match ParseOne(p, statement)
        case Err(e) => err == Some(e) && text == old(text) && selectors == old(selectors)
        case Ok(v) => err.None? && text == old(text)[StatementEnd(old(text))..] && selectors == old(selectors) + [v]
    {
      var index := 0;
      var parenCount := -1;
      while index < |text|
        invariant index <= |text|
        invariant parenCount == Depth(text, index)
        invariant forall j :: 0 <= j < index ==> !SplitsAt(text, j)
      {
        if text[index] == ';' && parenCount == 0 {
          break;
        }
        if text[index] == '(' {
          if parenCount < 0 {
            parenCount := 1;
          } else {
            parenCount := parenCount + 1;
          }
        }
        if text[index] == ')' {
          parenCount := parenCount - 1;
        }
        index := index + 1;
      }
      FirstSplit(text, index);
      var statement := text[..index];
      var parsed := if p.isScrollable(statement) then p.scrollable(statement) else p.selector(statement);
      if parsed.Err? {
        return Some(parsed.error);
      }
      selectors := selectors + [parsed.value];
      text := text[index..];
      return None;
    }

    /**
     * The statements `done` of the prepared text `all` are parsed into the
     * selectors so far, and `text` holds the rest: nothing, or the ';' after
     * the last statement and what follows it.
     */
    ghost predicate Consumed(p: SubParsers<S>, all: string, done: seq<string>)
      reads this
    {
      (text == [] || text[0] == ';') && Split(all) == done + Tail(text) && ParseAll(p, done) == Ok(selectors)
    }

    /**
     * One round of parse's loop: blanks, the ';' that ended the previous
     * statement, blanks, then the next statement.
     */
    method NextStatement(p: SubParsers<S>, ghost all: string, ghost done: seq<string>)
      returns (err: Option<string>, ghost statement: string)
      requires text != [] && Consumed(p, all, done)
      modifies this
      ensures err.Some? ==> ParseAll(p, Split(all)) == Err(err.value)
      ensures err.None? ==> Consumed(p, all, done + [statement]) && |text| < |old(text)|
    {
      ghost var before := text;
      TrimWhitespace();
      LeadingSemicolonKept(before);
      err := ConsumeSemicolon();
      if err.Some? {
        assert false;
        return;
      }
      TrimWhitespace();
      ghost var start := text;
      assert Tail(before) == Split(start);
      statement := start[..StatementEnd(start)];
      err := ConsumeStatement(p);
      if err.Some? {
        ParseAllFails(p, done, Tail(before));
      } else {
        ParseAllAppend(p, done, statement);
        SplitAfterStatement(all, done, start);
      }
    }

    /**
     * The statement loop of parse, run on the prepared text: the first
     * statement, then further rounds while text is left.
     */
    method ConsumeAll(p: SubParsers<S>) returns (err: Option<string>)
      requires selectors == []
      modifies this
      ensures match ParseAll(p, Split(old(text)))
        case Err(e) => err == Some(e)
        case Ok(v) => err.None? && selectors == v
    {
      ghost var all := text;
      err := ConsumeStatement(p);
      ghost var first := all[..StatementEnd(all)];
      if err.Some? {
        ParseAllFails(p, [], Split(all));
        return;
      }
      ghost var done: seq<string> := [first];
      ParseAllAppend(p, [], first);
      while |text| > 0
        invariant Consumed(p, all, done) && err.None?
        decreases |text|
      {
        ghost var statement;
        err, statement := NextStatement(p, all, done);
        if err.Some? {
          return;
        }
        done := done + [statement];
      }
      assert Split(all) == done;
    }

    /** parse: the selectors of every statement in order, or the first error. */
    method Parse(p: SubParsers<S>, textToParse: string) returns (r: Result<seq<S>, string>)
      modifies this
      ensures r == ParseResult(p, textToParse)
      ensures r.Ok? ==> selectors == r.value
    {
      if |textToParse| == 0 {
        return Err(EMPTY_MESSAGE);
      }
      selectors := [];
      text := Trim(JavaBlank, textToParse);
      var err := RemoveTailingSemicolon();
      if err.Some? {
        return Err(err.value);
      }
      TrimWhitespace();
      ghost var parsed := ParseAll(p, Split(text));
      assert parsed == ParseResult(p, textToParse);
      err := ConsumeAll(p);
      if err.Some? {
        return Err(err.value);
      }
      return Ok(selectors);
    }
  }

  /** The scan stops at the first split position, or at the end when there is none. */
  lemma FirstSplit(s: string, i: nat)
    requires i <= |s| && (i == |s| || SplitsAt(s, i))
    requires forall j :: 0 <= j < i ==> !SplitsAt(s, j)
    ensures StatementEnd(s) == i
  {
  }

  /** Trimming a text that starts with ';' keeps that ';' in front. */
  lemma LeadingSemicolonKept(text: string)
    requires text != [] && text[0] == ';'
    ensures Trim(JavaBlank, text) != [] && Trim(JavaBlank, text)[0] == ';'
  {
    StripTrailingBlanks(JavaBlank, text);
  }

  /** Once the statements of `start` follow `done`, its first statement joins them and the rest of it follows. */
  lemma SplitAfterStatement(all: string, done: seq<string>, start: string)
    requires Split(all) == done + Split(start)
    ensures Split(all) == (done + [start[..StatementEnd(start)]]) + Tail(start[StatementEnd(start)..])
  {
    var statement := start[..StatementEnd(start)];
    assert done + ([statement] + Tail(start[StatementEnd(start)..]))
           == (done + [statement]) + Tail(start[StatementEnd(start)..]);
  }

  /** Parsing one more statement that succeeds extends the result by its selector. */
  lemma {:induction false} ParseAllAppend<S>(p: SubParsers<S>, done: seq<string>, statement: string)
    requires ParseAll(p, done).Ok? && ParseOne(p, statement).Ok?
    ensures ParseAll(p, done + [statement]) == Ok(ParseAll(p, done).value + [ParseOne(p, statement).value])
  {
    if done == [] {
      assert done + [statement] == [statement] && [statement][1..] == [];
      var v := ParseOne(p, statement).value;
      assert ParseAll(p, [statement]) == Ok([v] + ParseAll(p, []).value);
      assert [v] + [] == [] + [v];
    } else {
      assert (done + [statement])[0] == done[0];
      assert (done + [statement])[1..] == done[1..] + [statement];
      ParseAllAppend(p, done[1..], statement);
      var head := ParseOne(p, done[0]).value;
      var vs := ParseAll(p, done[1..]).value;
      var v := ParseOne(p, statement).value;
      assert ParseAll(p, done).value == [head] + vs;
      assert ParseAll(p, done + [statement]) == Ok([head] + (vs + [v]));
      assert [head] + (vs + [v]) == ([head] + vs) + [v];
    }
  }

  /** A statement that fails to parse after successful ones is the result, whatever follows it. */
  lemma {:induction false} ParseAllFails<S>(p: SubParsers<S>, done: seq<string>, rest: seq<string>)
    requires ParseAll(p, done).Ok? && rest != [] && ParseOne(p, rest[0]).Err?
    ensures ParseAll(p, done + rest) == Err(ParseOne(p, rest[0]).error)
  {
    if done != [] {
      assert (done + rest)[0] == done[0];
      assert (done + rest)[1..] == done[1..] + rest;
      ParseAllFails(p, done[1..], rest);
    } else {
      assert done + rest == rest;
    }
  }
}
