/** The pattern extractor: log lines in, (group 1, group 2) pairs out.
    The regular-expression engine is not modelled; it is a parameter. */
module Extraction {

  /** One match of a two-group pattern in a line, as the engine reports it:
      the whole matched text, then capture group 1, then capture group 2. */
  datatype Submatch = Submatch(whole: string, group1: string, group2: string)

  /** The pair kept from one match. All four patterns of the collector capture
      the authentication provider in group 1 and the user in group 2, whatever
      names the surrounding code gives them. */
  datatype Match = Match(group1: string, group2: string)

  /** The regular-expression engine: every non-overlapping match of a pattern
      (first argument) in a line (second argument), left to right. */
  type Matcher = (string, string) -> seq<Submatch>

  /** The pairs of a line's matches, in match order. */
  function Groups(ms: seq<Submatch>): (r: seq<Match>)
    ensures |r| == |ms|
    ensures forall i :: 0 <= i < |ms| ==> r[i] == Match(ms[i].group1, ms[i].group2)
  {
    if ms == [] then []
    else Groups(ms[..|ms| - 1]) + [Match(ms[|ms| - 1].group1, ms[|ms| - 1].group2)]
  }

  /** Specification of the extractor: the pairs of all matches of `pattern`,
      line after line. */
  function LoginMatches(matcher: Matcher, pattern: string, lines: seq<string>): seq<Match>
  {
    if lines == [] then []
    else LoginMatches(matcher, pattern, lines[..|lines| - 1]) + Groups(matcher(pattern, lines[|lines| - 1]))
  }

  /** Extraction distributes over concatenation of logs: line order is kept. */
  lemma {:induction false} LoginMatchesAppend(matcher: Matcher, pattern: string, a: seq<string>, b: seq<string>)
    ensures LoginMatches(matcher, pattern, a + b)
         == LoginMatches(matcher, pattern, a) + LoginMatches(matcher, pattern, b)
    decreases |b|
  {
    if b == [] {
      assert a + b == a;
    } else {
      var init, last := b[..|b| - 1], b[|b| - 1];
      var ab := a + b;
      assert ab[..|ab| - 1] == a + init;
      assert ab[|ab| - 1] == last;
      LoginMatchesAppend(matcher, pattern, a, init);
      var x, y, z := LoginMatches(matcher, pattern, a), LoginMatches(matcher, pattern, init), Groups(matcher(pattern, last));
      assert LoginMatches(matcher, pattern, ab) == x + y + z;
      assert LoginMatches(matcher, pattern, b) == y + z;
      assert x + y + z == x + (y + z);
    }
  }

  /** Line `i` contributes exactly the pairs of its own matches, in match order,
      between the pairs of the lines before it and those of the lines after it. */
  lemma LoginMatchesAtLine(matcher: Matcher, pattern: string, lines: seq<string>, i: nat)
    requires i < |lines|
    ensures LoginMatches(matcher, pattern, lines)
         == LoginMatches(matcher, pattern, lines[..i])
          + Groups(matcher(pattern, lines[i]))
          + LoginMatches(matcher, pattern, lines[i + 1..])
  {
    assert lines == lines[..i] + [lines[i]] + lines[i + 1..];
    LoginMatchesAppend(matcher, pattern, lines[..i] + [lines[i]], lines[i + 1..]);
    LoginMatchesAppend(matcher, pattern, lines[..i], [lines[i]]);
    assert ([] + [lines[i]])[..0] == [];
  }

  /** The lines in which the pattern matches at least once, in their order. */
  function MatchingLines(matcher: Matcher, pattern: string, lines: seq<string>): (r: seq<string>)
    ensures forall l :: l in r ==> l in lines && matcher(pattern, l) != []
    ensures forall l :: l in lines && matcher(pattern, l) != [] ==> l in r
  {
    if lines == [] then []
    else
      var last := lines[|lines| - 1];
      MatchingLines(matcher, pattern, lines[..|lines| - 1]) + (if matcher(pattern, last) == [] then [] else [last])
  }

  /** Lines without a match contribute nothing: dropping them changes no result. */
  lemma {:induction false} NonMatchingLinesContributeNothing(matcher: Matcher, pattern: string, lines: seq<string>)
    ensures LoginMatches(matcher, pattern, MatchingLines(matcher, pattern, lines))
         == LoginMatches(matcher, pattern, lines)
    decreases |lines|
  {
    if lines != [] {
      var init, last := lines[..|lines| - 1], lines[|lines| - 1];
      var kept := MatchingLines(matcher, pattern, init);
      NonMatchingLinesContributeNothing(matcher, pattern, init);
      if matcher(pattern, last) != [] {
        assert MatchingLines(matcher, pattern, lines) == kept + [last];
        LoginMatchesAppend(matcher, pattern, kept, [last]);
        assert [last][..0] == [];
      } else {
        assert MatchingLines(matcher, pattern, lines) == kept + [];
        assert kept + [] == kept;
      }
    }
  }

  /** `getLoginMatchesByRegex`: one pair per match, lines in order. */
  method GetLoginMatchesByRegex(matcher: Matcher, pattern: string, lines: seq<string>)
    returns (loginAttempts: seq<Match>)
    ensures loginAttempts == LoginMatches(matcher, pattern, lines)
  {
    loginAttempts := [];
    var li := 0;
    while li < |lines|
      invariant 0 <= li <= |lines|
      invariant loginAttempts == LoginMatches(matcher, pattern, lines[..li])
    {
      var matches := matcher(pattern, lines[li]);
      var i := 0;
      while i < |matches|
        invariant 0 <= i <= |matches|
        invariant loginAttempts == LoginMatches(matcher, pattern, lines[..li]) + Groups(matches[..i])
      {
        // the engine's group 1 and group 2, kept in that order
        var first := matches[i].group1;
        var second := matches[i].group2;
        loginAttempts := loginAttempts + [Match(first, second)];
        assert matches[..i + 1][..i] == matches[..i];
        i := i + 1;
      }
      assert matches[..i] == matches;
      assert lines[..li + 1][..li] == lines[..li];
      li := li + 1;
    }
    assert lines[..li] == lines;
  }

  /** `countLogsByRegex`: the number of matches over all lines, which is the
      number of pairs `getLoginMatchesByRegex` returns for the same input. */
  method CountLogsByRegex(matcher: Matcher, pattern: string, lines: seq<string>) returns (count: nat)
    ensures count == |LoginMatches(matcher, pattern, lines)|
  {
    count := 0;
    var li := 0;
    while li < |lines|
      invariant 0 <= li <= |lines|
      invariant count == |LoginMatches(matcher, pattern, lines[..li])|
    {
      var matches := matcher(pattern, lines[li]);
      count := count + |matches|;
      assert lines[..li + 1][..li] == lines[..li];
      li := li + 1;
    }
    assert lines[..li] == lines;
  }
}
