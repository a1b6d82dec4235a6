/**
 * The message tokenizer: all leftmost-first matches of the pattern
 * `(?:[^\s"]+|"[^"]*")+`, taken left to right, each with every `"` removed.
 * Strings are sequences of bytes here; the pattern's classes are ASCII, so a
 * scan over bytes finds the same matches as one over runes.
 */
module Tokenizer {

  /** RE2's `\s`: tab, newline, form feed, carriage return and space. */
  predicate IsSpace(c: char) {
    c == '\t' || c == '\n' || c == '\U{000C}' || c == '\r' || c == ' '
  }

  /** A character of the class `[^\s"]`. */
  predicate IsWordChar(c: char) { !IsSpace(c) && c != '"' }

  // ---------------------------------------------------------------------
  // The token pattern as a grammar

  /**
   * t is a concatenation of word characters and closed quote groups
   * `"[^"]*"` (possibly none of either).
   */
  predicate Units(t: string)
    decreases |t|
  {
    if t == [] then true
    else if IsWordChar(t[0]) then Units(t[1..])
    else t[0] == '"' && exists k :: 1 <= k < |t| && t[k] == '"' && '"' !in t[1..k] && Units(t[k + 1..])
  }

  /** t is matched, as a whole, by `(?:[^\s"]+|"[^"]*")+`. */
  predicate InRegex(t: string) { |t| > 0 && Units(t) }

  // ---------------------------------------------------------------------
  // The scanner

  /** The position of the first `"` at or after j, or |s| when there is none. */
  function NextQuote(s: string, j: nat): (k: nat)
    requires j <= |s|
    ensures j <= k <= |s|
    ensures k < |s| ==> s[k] == '"'
    decreases |s| - j
  {
    if j == |s| || s[j] == '"' then j else NextQuote(s, j + 1)
  }

  /** No quote lies between j and the next quote found from j. */
  lemma {:induction false} NextQuoteSkips(s: string, j: nat)
    requires j <= |s|
    ensures forall m :: j <= m < NextQuote(s, j) ==> s[m] != '"'
    decreases |s| - j
  {
    if j < |s| && s[j] != '"' {
      NextQuoteSkips(s, j + 1);
    }
  }

  /**
   * Where the greedy match that starts at j ends: word characters are taken
   * one by one, a `"` together with everything up to the next `"`; the match
   * stops at whitespace, at the end, or at a `"` that nothing closes. It is j
   * itself when no match starts at j.
   */
  function MatchEnd(s: string, j: nat): (e: nat)
    requires j <= |s|
    ensures j <= e <= |s|
    decreases |s| - j
  {
    if j == |s| then j
    else if IsWordChar(s[j]) then MatchEnd(s, j + 1)
    else if s[j] == '"' && NextQuote(s, j + 1) < |s| then MatchEnd(s, NextQuote(s, j + 1) + 1)
    else j
  }

  /** The matches found by scanning from position i on, left to right. */
  function RawTokensFrom(s: string, i: nat): seq<string>
    requires i <= |s|
    decreases |s| - i
  {
    if i == |s| then []
    else if MatchEnd(s, i) == i then RawTokensFrom(s, i + 1)
    else [s[i..MatchEnd(s, i)]] + RawTokensFrom(s, MatchEnd(s, i))
  }

  /** Every match of the token pattern in s (FindAllString with no limit). */
  function RawTokens(s: string): seq<string> {
    RawTokensFrom(s, 0)
  }

  /** t with every `"` removed (strings.Replace with no limit). */
  function RemoveQuotes(t: string): (r: string)
    ensures '"' !in r
    ensures |r| <= |t|
    ensures '"' !in t ==> r == t
  {
    if t == [] then [] else (if t[0] == '"' then [] else [t[0]]) + RemoveQuotes(t[1..])
  }

  /** Each token with its quote characters removed, positions kept. */
  function StripAll(ts: seq<string>): seq<string>
  {
    seq(|ts|, k requires 0 <= k < |ts| => RemoveQuotes(ts[k]))
  }

  /** The argument tokens of a message text. */
  function Tokenize(s: string): seq<string> {
    StripAll(RawTokens(s))
  }

  /** Tokens separated by single spaces: a text that tokenizes back to them. */
  function JoinSpaces(ts: seq<string>): string
  {
    if ts == [] then ""
    else if |ts| == 1 then ts[0]
    else ts[0] + " " + JoinSpaces(ts[1..])
  }

  // ---------------------------------------------------------------------
  // Properties

  /** Removing quotes distributes over concatenation. */
  lemma {:induction false} RemoveQuotesConcat(a: string, b: string)
    ensures RemoveQuotes(a + b) == RemoveQuotes(a) + RemoveQuotes(b)
    decreases |a|
  {
    if a == [] {
      assert a + b == b;
    } else {
      var h := if a[0] == '"' then "" else [a[0]];
      RemoveQuotesConcat(a[1..], b);
      RemoveQuotesStep(a, b);
      RegroupStripped(h, RemoveQuotes(a[1..]), RemoveQuotes(b));
    }
  }

  /** The stripped head, middle and tail of a + b may be grouped either way. */
  lemma RegroupStripped(head: string, middle: string, tail: string)
    ensures head + (middle + tail) == (head + middle) + tail
  {
  }

  /** Removing quotes from a + b handles a's first character, then goes on with the rest. */
  lemma RemoveQuotesStep(a: string, b: string)
    requires a != []
    ensures RemoveQuotes(a + b) == (if a[0] == '"' then [] else [a[0]]) + RemoveQuotes(a[1..] + b)
  {
    assert (a + b)[0] == a[0];
    assert (a + b)[1..] == a[1..] + b;
  }

  /** A quoted group loses exactly its two bounding quotes. */
  lemma RemoveQuotesOfGroup(x: string)
    requires '"' !in x
    ensures RemoveQuotes("\"" + x + "\"") == x
  {
    RemoveQuotesConcat("\"" + x, "\"");
    RemoveQuotesConcat("\"", x);
  }

  /** The first `"` found from j is the one at k when none lies in between. */
  lemma {:induction false} NextQuoteIs(s: string, j: nat, k: nat)
    requires j <= k < |s| && s[k] == '"'
    requires forall m :: j <= m < k ==> s[m] != '"'
    ensures NextQuote(s, j) == k
    decreases k - j
  {
    if j < k {
      NextQuoteIs(s, j + 1, k);
    }
  }

  /** Each match is a word of the token pattern (soundness of the scanner). */
  lemma {:induction false} MatchEndUnits(s: string, j: nat)
    requires j <= |s|
    ensures Units(s[j..MatchEnd(s, j)])
    decreases |s| - j
  {
    var e := MatchEnd(s, j);
    if j == |s| {
    } else if IsWordChar(s[j]) {
      MatchEndUnits(s, j + 1);
      WordThenUnits(s, j, e);
    } else if s[j] == '"' && NextQuote(s, j + 1) < |s| {
      var q := NextQuote(s, j + 1);
      MatchEndUnits(s, q + 1);
      NoQuoteBefore(s, j + 1);
      GroupThenUnits(s, j, q, e);
    }
  }

  /** A word character followed by an accepted stretch is accepted. */
  lemma WordThenUnits(s: string, j: nat, e: nat)
    requires j < e <= |s| && IsWordChar(s[j]) && Units(s[j + 1..e])
    ensures Units(s[j..e])
  {
    assert s[j..e][1..] == s[j + 1..e];
  }

  /** The stretch between j and the next quote holds no quote. */
  lemma NoQuoteBefore(s: string, j: nat)
    requires j <= |s|
    ensures '"' !in s[j..NextQuote(s, j)]
  {
    NextQuoteSkips(s, j);
  }

  /** A closed quote group followed by an accepted stretch is accepted. */
  lemma GroupThenUnits(s: string, j: nat, q: nat, e: nat)
    requires j < q < e <= |s| && s[j] == '"' && s[q] == '"'
    requires '"' !in s[j + 1..q] && Units(s[q + 1..e])
    ensures Units(s[j..e])
  {
    var t := s[j..e];
    var k := q - j;
    assert t[k] == '"';
    assert |t[1..k]| == |s[j + 1..q]|;
    assert forall i :: 0 <= i < k - 1 ==> t[1..k][i] == s[j + 1 + i];
    assert t[1..k] == s[j + 1..q];
    assert t[k + 1..] == s[q + 1..e];
  }

  /** A match cannot be extended: it ends at the end, at whitespace, or at a `"` that nothing closes. */
  lemma {:induction false} MatchEndIsMaximal(s: string, j: nat)
    requires j <= |s|
    ensures var e := MatchEnd(s, j);
            e == |s| || IsSpace(s[e]) || (s[e] == '"' && NextQuote(s, e + 1) == |s|)
    decreases |s| - j
  {
    if j < |s| {
      if IsWordChar(s[j]) {
        MatchEndIsMaximal(s, j + 1);
      } else if s[j] == '"' && NextQuote(s, j + 1) < |s| {
        MatchEndIsMaximal(s, NextQuote(s, j + 1) + 1);
      }
    }
  }

  /** Every token the scanner emits is matched by the token pattern. */
  lemma {:induction false} RawTokensInRegex(s: string, i: nat)
    requires i <= |s|
    ensures forall t :: t in RawTokensFrom(s, i) ==> InRegex(t)
    decreases |s| - i
  {
    if i < |s| {
      var e := MatchEnd(s, i);
      if e == i {
        RawTokensInRegex(s, i + 1);
      } else {
        MatchEndUnits(s, i);
        RawTokensInRegex(s, e);
      }
    }
  }

  /** No argument token contains a quote character. */
  lemma TokensHaveNoQuotes(s: string)
    ensures forall t :: t in Tokenize(s) ==> '"' !in t
  {
  }

  /**
   * A stretch that the grammar accepts, followed by whitespace or the end of
   * the text, is exactly the match that starts where it starts.
   */
  lemma {:induction false} MatchEndOfUnits(s: string, p: nat, q: nat)
    requires p <= q <= |s| && Units(s[p..q])
    requires q == |s| || IsSpace(s[q])
    ensures MatchEnd(s, p) == q
    decreases q - p
  {
    if p < q {
      var t := s[p..q];
      if IsWordChar(s[p]) {
        assert t[1..] == s[p + 1..q];
        MatchEndOfUnits(s, p + 1, q);
      } else {
        var k := QuoteGroupEnd(s, p, q);
        MatchEndOfUnits(s, k + 1, q);
      }
    }
  }

  /**
   * A stretch that starts with a quote group: the group closes at the first
   * quote after the opening one, and the rest is again accepted.
   */
  lemma QuoteGroupEnd(s: string, p: nat, q: nat) returns (k: nat)
    requires p < q <= |s| && Units(s[p..q]) && !IsWordChar(s[p])
    ensures p < k < q && NextQuote(s, p + 1) == k && Units(s[k + 1..q])
    ensures MatchEnd(s, p) == MatchEnd(s, k + 1)
  {
    var t := s[p..q];
    var i := GroupSplit(t);
    k := p + i;
    GroupInText(s, p, q, i);
    NextQuoteIs(s, p + 1, k);
    MatchEndAtGroup(s, p, k);
  }

  /** The grammar's view of a leading group, carried over from the stretch to the text. */
  lemma GroupInText(s: string, p: nat, q: nat, i: nat)
    requires p < q <= |s| && 1 <= i < q - p
    requires s[p..q][i] == '"' && Units(s[p..q][i + 1..])
    requires forall m :: 1 <= m < i ==> s[p..q][m] != '"'
    ensures s[p + i] == '"' && Units(s[p + i + 1..q])
    ensures forall m :: p + 1 <= m < p + i ==> s[m] != '"'
  {
    assert s[p..q][i + 1..] == s[p + i + 1..q];
    forall m | p + 1 <= m < p + i
      ensures s[m] != '"'
    {
      assert s[m] == s[p..q][m - p];
    }
  }

  /** A match that starts with a closed quote group goes on right after the group. */
  lemma MatchEndAtGroup(s: string, p: nat, k: nat)
    requires p < k < |s| && s[p] == '"' && NextQuote(s, p + 1) == k
    ensures MatchEnd(s, p) == MatchEnd(s, k + 1)
  {
  }

  /** The closing quote of a leading quote group, found in the grammar's existential. */
  lemma GroupSplit(t: string) returns (i: nat)
    requires |t| > 0 && Units(t) && !IsWordChar(t[0])
    ensures t[0] == '"'
    ensures 1 <= i < |t| && t[i] == '"' && Units(t[i + 1..])
    ensures forall m :: 1 <= m < i ==> t[m] != '"'
  {
    i :| 1 <= i < |t| && t[i] == '"' && '"' !in t[1..i] && Units(t[i + 1..]);
    assert forall m :: 1 <= m < i ==> t[m] == t[1..i][m - 1];
  }

  /** Where the first word of a space-joined text lies, and what follows it. */
  lemma JoinSpacesHead(s: string, j: nat, ts: seq<string>)
    requires j <= |s| && s[j..] == JoinSpaces(ts) && ts != []
    ensures j + |ts[0]| <= |s| && s[j..j + |ts[0]|] == ts[0]
    ensures |ts| == 1 ==> j + |ts[0]| == |s|
    ensures |ts| > 1 ==> j + |ts[0]| < |s| && s[j + |ts[0]|] == ' ' && s[j + |ts[0]| + 1..] == JoinSpaces(ts[1..])
  {
    var q := j + |ts[0]|;
    if |ts| > 1 {
      assert s[j..] == ts[0] + (" " + JoinSpaces(ts[1..]));
      assert s[j..][|ts[0]|] == ' ';
      assert s[q + 1..] == s[j..][|ts[0]| + 1..];
    }
  }

  /** The scan at a match emits it and goes on after it; at whitespace it moves on by one. */
  lemma RawTokensStep(s: string, j: nat)
    requires j < |s|
    ensures MatchEnd(s, j) > j ==> RawTokensFrom(s, j) == [s[j..MatchEnd(s, j)]] + RawTokensFrom(s, MatchEnd(s, j))
    ensures IsSpace(s[j]) ==> RawTokensFrom(s, j) == RawTokensFrom(s, j + 1)
  {
  }

  /** A pattern word followed by whitespace or the end is what the scan emits at its position. */
  lemma FirstTokenMatched(s: string, j: nat, t: string)
    requires j + |t| <= |s| && s[j..j + |t|] == t && InRegex(t)
    requires j + |t| == |s| || IsSpace(s[j + |t|])
    ensures RawTokensFrom(s, j) == [t] + RawTokensFrom(s, j + |t|)
  {
    MatchEndOfUnits(s, j, j + |t|);
    RawTokensStep(s, j);
  }

  /**
   * s holds the words of ts from position j on, a single space between each
   * two and nothing after the last: JoinSpaces laid out word by word.
   */
  predicate JoinedAt(s: string, j: nat, ts: seq<string>)
    decreases |ts|
  {
    if ts == [] then j == |s|
    else
      var q := j + |ts[0]|;
      && q <= |s| && s[j..q] == ts[0]
      && (if |ts| == 1 then q == |s| else q < |s| && s[q] == ' ' && JoinedAt(s, q + 1, ts[1..]))
  }

  lemma {:induction false} JoinedAtOfJoinSpaces(s: string, j: nat, ts: seq<string>)
    requires j <= |s| && s[j..] == JoinSpaces(ts)
    ensures JoinedAt(s, j, ts)
    decreases |ts|
  {
    if ts == [] {
      assert |s[j..]| == 0;
    } else {
      JoinSpacesHead(s, j, ts);
      if |ts| > 1 {
        JoinedAtOfJoinSpaces(s, j + |ts[0]| + 1, ts[1..]);
      }
    }
  }

  /** A pattern word followed by a space is emitted, and the scan resumes after the space. */
  lemma JoinStep(s: string, j: nat, t: string)
    requires j + |t| < |s| && s[j..j + |t|] == t && InRegex(t) && s[j + |t|] == ' '
    ensures RawTokensFrom(s, j) == [t] + RawTokensFrom(s, j + |t| + 1)
  {
    FirstTokenMatched(s, j, t);
    SpaceSkipped(s, j + |t|);
  }

  /** A pattern word that ends the text is the last thing emitted. */
  lemma JoinLast(s: string, j: nat, t: string)
    requires j + |t| == |s| && s[j..j + |t|] == t && InRegex(t)
    ensures RawTokensFrom(s, j) == [t]
  {
    FirstTokenMatched(s, j, t);
    AtEnd(s, j + |t|);
  }

  lemma AtEnd(s: string, q: nat)
    requires q == |s|
    ensures RawTokensFrom(s, q) == []
  {
  }

  lemma SpaceSkipped(s: string, q: nat)
    requires q < |s| && IsSpace(s[q])
    ensures RawTokensFrom(s, q) == RawTokensFrom(s, q + 1)
  {
    assert MatchEnd(s, q) == q;
  }

  /** Every token of ts is matched, as a whole, by the pattern. */
  predicate AllInRegex(ts: seq<string>)
  {
    ts == [] || (InRegex(ts[0]) && AllInRegex(ts[1..]))
  }

  lemma {:induction false} AllInRegexOf(ts: seq<string>)
    requires forall t :: t in ts ==> InRegex(t)
    ensures AllInRegex(ts)
    decreases |ts|
  {
    if ts != [] {
      assert ts[0] in ts;
      assert forall t :: t in ts[1..] ==> t in ts;
      AllInRegexOf(ts[1..]);
    }
  }

  /** Scanning a space-joined run of pattern words yields those words. */
  lemma {:induction false} RawTokensOfJoin(s: string, j: nat, ts: seq<string>)
    requires JoinedAt(s, j, ts) && AllInRegex(ts)
    ensures RawTokensFrom(s, j) == ts
    decreases |ts|
  {
    if ts == [] {
      AtEnd(s, j);
    } else if |ts| == 1 {
      JoinLast(s, j, ts[0]);
      LastWord(ts);
    } else {
      JoinStep(s, j, ts[0]);
      RawTokensOfJoin(s, j + |ts[0]| + 1, ts[1..]);
      FirstWordAndRest(ts);
    }
  }

  /** A joined run of one word is that word alone. */
  lemma LastWord(ts: seq<string>)
    requires |ts| == 1
    ensures ts == [ts[0]]
  {
  }

  /** A joined run of several words is its first word followed by the rest. */
  lemma FirstWordAndRest(ts: seq<string>)
    requires ts != []
    ensures ts == [ts[0]] + ts[1..]
  {
  }

  /**
   * Round trip: pattern words joined by spaces tokenize back to those words,
   * each with its quotes removed.
   */
  lemma TokenizeJoinSpaces(ts: seq<string>)
    requires forall t :: t in ts ==> InRegex(t)
    ensures Tokenize(JoinSpaces(ts)) == StripAll(ts)
  {
    var s := JoinSpaces(ts);
    assert s[0..] == s;
    JoinedAtOfJoinSpaces(s, 0, ts);
    AllInRegexOf(ts);
    RawTokensOfJoin(s, 0, ts);
  }

  /** A non-empty run of word characters is a pattern word. */
  lemma {:induction false} WordInRegex(w: string)
    requires |w| > 0 && forall c :: c in w ==> IsWordChar(c)
    ensures InRegex(w)
    decreases |w|
  {
    if |w| > 1 {
      WordInRegex(w[1..]);
    }
  }

  /** A quoted group is a pattern word, whatever whitespace it holds. */
  lemma QuotedInRegex(x: string)
    requires '"' !in x
    ensures InRegex("\"" + x + "\"")
  {
    var t := "\"" + x + "\"";
    var k := |x| + 1;
    assert t[k] == '"' && t[1..k] == x && t[k + 1..] == [];
  }

  /** The worked example: a quoted group with a space inside is one argument. */
  lemma TokenizeExample()
    ensures Tokenize("!ban \"John Doe\" 10") == ["!ban", "John Doe", "10"]
  {
    var ts := ["!ban", "\"John Doe\"", "10"];
    ExampleWords(ts);
    JoinExample();
    TokenizeJoinSpaces(ts);
    assert '"' !in "!ban" && '"' !in "10" && '"' !in "John Doe";
    assert "\"" + "John Doe" + "\"" == ts[1];
    StrippedWordsAndGroup(ts, "!ban", "John Doe", "10");
  }

  lemma ExampleWords(ts: seq<string>)
    requires ts == ["!ban", "\"John Doe\"", "10"]
    ensures forall t :: t in ts ==> InRegex(t)
  {
    WordInRegex("!ban");
    QuotedInRegex("John Doe");
    assert "\"" + "John Doe" + "\"" == ts[1];
    WordInRegex("10");
  }

  /** Two quote-free words around a quoted group lose only the group's quotes. */
  lemma StrippedWordsAndGroup(ts: seq<string>, a: string, x: string, b: string)
    requires '"' !in a && '"' !in x && '"' !in b
    requires ts == [a, "\"" + x + "\"", b]
    ensures StripAll(ts) == [a, x, b]
  {
    StrippedGroup(ts, 1, x);
  }

  lemma StrippedGroup(ts: seq<string>, k: nat, x: string)
    requires k < |ts| && '"' !in x && ts[k] == "\"" + x + "\""
    ensures StripAll(ts)[k] == x
  {
    RemoveQuotesOfGroup(x);
  }

  lemma JoinExample()
    ensures JoinSpaces(["!ban", "\"John Doe\"", "10"]) == "!ban \"John Doe\" 10"
  {
    assert JoinSpaces(["10"]) == "10";
    assert JoinSpaces(["\"John Doe\"", "10"]) == "\"John Doe\" 10";
  }
}
