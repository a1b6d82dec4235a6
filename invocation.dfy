/**
 * Splitting the argument tokens of a message into the command invoke and
 * the remaining arguments, in the two prefix modes, and the command lines
 * that parse back to a given invoke and arguments.
 */
module Invocation {
  import opened Wrappers
  import opened Tokenizer

  predicate StartsWith(s: string, p: string) {
    |p| <= |s| && s[..|p|] == p
  }

  /** The invoke (without the prefix) and the argument list handed to the command. */
  datatype Invocation = Invocation(invoke: string, args: seq<string>)

  /**
   * With a space after the prefix, the first token is dropped whatever it
   * is, the second is the invoke and the rest are the arguments; a single
   * token gives an empty invoke. Attached, the first token minus as many
   * leading characters as the used prefix has is the invoke. None is the
   * run-time panic of slicing past the end: no token at all, or an attached
   * first token shorter than the prefix.
   */
  function SplitInvocation(tokens: seq<string>, usedPrefix: string, spaceAfterPrefix: bool): Option<Invocation> {
    if spaceAfterPrefix then
      if |tokens| > 1 then Some(Invocation(tokens[1], tokens[2..]))
      else if |tokens| == 1 then Some(Invocation("", []))
      else None
    else if |tokens| == 0 || |tokens[0]| < |usedPrefix| then None
    else Some(Invocation(tokens[0][|usedPrefix|..], tokens[1..]))
  }

  /** A command line as a user types it: the tokens joined by single spaces. */
  function CommandLine(prefix: string, invoke: string, args: seq<string>, spaceAfterPrefix: bool): string {
    if spaceAfterPrefix then JoinSpaces([prefix, invoke] + args)
    else JoinSpaces([prefix + invoke] + args)
  }

  predicate IsWord(w: string) {
    forall c :: c in w ==> IsWordChar(c)
  }

  // ---------------------------------------------------------------------
  // Properties

  /**
   * The split panics exactly on no tokens or on a too short attached first
   * token; otherwise the tokens are rebuilt from its result: the dropped
   * first token, the invoke and the arguments (space mode), or the first
   * token's leading part, the invoke appended to it, and the arguments.
   */
  lemma SplitInvocationSpec(tokens: seq<string>, usedPrefix: string, spaceAfterPrefix: bool)
    ensures var r := SplitInvocation(tokens, usedPrefix, spaceAfterPrefix);
            && (r.None? <==> |tokens| == 0 || (!spaceAfterPrefix && |tokens[0]| < |usedPrefix|))
            && (r.Some? && spaceAfterPrefix && |tokens| > 1 ==> tokens == [tokens[0], r.value.invoke] + r.value.args)
            && (r.Some? && spaceAfterPrefix && |tokens| == 1 ==> r.value == Invocation("", []))
            && (r.Some? && !spaceAfterPrefix ==>
                  tokens == [tokens[0][..|usedPrefix|] + r.value.invoke] + r.value.args)
  {
    var r := SplitInvocation(tokens, usedPrefix, spaceAfterPrefix);
    if r.Some? && spaceAfterPrefix && |tokens| > 1 {
      assert tokens == [tokens[0], tokens[1]] + tokens[2..];
    }
    if r.Some? && !spaceAfterPrefix {
      assert tokens[0] == tokens[0][..|usedPrefix|] + tokens[0][|usedPrefix|..];
      assert tokens == [tokens[0]] + tokens[1..];
    }
  }

  /** A joined text starts with its first token. */
  lemma {:induction false} JoinSpacesStartsWith(ts: seq<string>)
    requires |ts| > 0
    ensures StartsWith(JoinSpaces(ts), ts[0])
  {
    if |ts| > 1 {
      assert JoinSpaces(ts) == ts[0] + (" " + JoinSpaces(ts[1..]));
    }
  }

  /** Quote-free tokens are left as they are by quote removal. */
  lemma StripAllQuoteFree(head: seq<string>, rest: seq<string>)
    requires forall t :: t in head ==> '"' !in t
    ensures StripAll(head + rest) == head + StripAll(rest)
  {
    var ts := head + rest;
    assert forall k :: 0 <= k < |head| ==> ts[k] == head[k] && head[k] in head;
    assert forall k :: |head| <= k < |ts| ==> ts[k] == rest[k - |head|];
  }

  /**
   * Round trip: a command line built from a word prefix, a word invoke and
   * pattern-word arguments starts with the prefix, and splitting its tokens
   * with that prefix gives back the invoke and the arguments with their
   * quotes removed. In space mode the invoke must be non-empty, or the
   * first argument would be taken for it.
   */
  lemma ParseCommandLine(prefix: string, invoke: string, args: seq<string>, spaceAfterPrefix: bool)
    requires |prefix| > 0 && IsWord(prefix) && IsWord(invoke)
    requires spaceAfterPrefix ==> |invoke| > 0
    requires forall t :: t in args ==> InRegex(t)
    ensures var line := CommandLine(prefix, invoke, args, spaceAfterPrefix);
            && StartsWith(line, prefix)
            && SplitInvocation(Tokenize(line), prefix, spaceAfterPrefix) == Some(Invocation(invoke, StripAll(args)))
  {
    var line := CommandLine(prefix, invoke, args, spaceAfterPrefix);
    if spaceAfterPrefix {
      var head := [prefix, invoke];
      WordInRegex(prefix);
      WordInRegex(invoke);
      TokenizeJoinSpaces(head + args);
      StripAllQuoteFree(head, args);
      JoinSpacesStartsWith(head + args);
    } else {
      var w := prefix + invoke;
      assert IsWord(w) by {
        forall c | c in w ensures IsWordChar(c) {
          assert c in prefix || c in invoke;
        }
      }
      WordInRegex(w);
      TokenizeJoinSpaces([w] + args);
      StripAllQuoteFree([w], args);
      JoinSpacesStartsWith([w] + args);
      assert w[..|prefix|] == prefix && w[|prefix|..] == invoke;
    }
  }

  /** A run of n word characters at j is all taken by the match that starts at j. */
  lemma {:induction false} WordRunMatched(s: string, j: nat, n: nat)
    requires j + n <= |s|
    requires forall m :: j <= m < j + n ==> IsWordChar(s[m])
    ensures MatchEnd(s, j) >= j + n
    decreases n
  {
    if n > 0 {
      WordRunMatched(s, j + 1, n - 1);
    }
  }

  /**
   * With a non-empty prefix free of whitespace and quotes, a text that
   * starts with it never makes the split panic: its first token starts
   * with the whole prefix, and keeps it when quotes are removed.
   */
  lemma WordPrefixNeverPanics(content: string, prefix: string, spaceAfterPrefix: bool)
    requires |prefix| > 0 && IsWord(prefix) && StartsWith(content, prefix)
    ensures SplitInvocation(Tokenize(content), prefix, spaceAfterPrefix).Some?
  {
    forall m | 0 <= m < |prefix|
      ensures IsWordChar(content[m])
    {
      assert content[m] == prefix[m] && prefix[m] in prefix;
    }
    WordRunMatched(content, 0, |prefix|);
    var e := MatchEnd(content, 0);
    var t := content[0..e];
    assert RawTokens(content) == [t] + RawTokensFrom(content, e);
    assert t == prefix + t[|prefix|..];
    RemoveQuotesConcat(prefix, t[|prefix|..]);
    assert '"' !in prefix by {
      forall c | c in prefix ensures c != '"' { assert IsWordChar(c); }
    }
    assert Tokenize(content)[0] == RemoveQuotes(t);
  }

  /** In space mode a message that is the prefix alone has an empty invoke and no arguments. */
  lemma PrefixAloneInSpaceMode(prefix: string)
    requires |prefix| > 0 && IsWord(prefix)
    ensures SplitInvocation(Tokenize(prefix), prefix, true) == Some(Invocation("", []))
  {
    WordInRegex(prefix);
    TokenizeJoinSpaces([prefix]);
  }

  /**
   * In space mode the first token is not compared with the prefix: "!ping x"
   * with prefix "!" runs the command "x", and "!ping" alone has an empty invoke.
   */
  lemma SpaceModeDropsFirstToken()
    ensures SplitInvocation(["!ping", "x"], "!", true) == Some(Invocation("x", []))
    ensures SplitInvocation(["!ping"], "!", true) == Some(Invocation("", []))
  {
    var ts := ["!ping", "x"];
    assert ts[2..] == [];
  }

  /**
   * A prefix ending in a space, used attached, panics: "hey ping" with
   * prefix "hey " splits into "hey" and "ping", and "hey" is shorter than
   * the prefix.
   */
  lemma AttachedPrefixWithSpacePanics(tokens: seq<string>)
    requires tokens == ["hey", "ping"]
    ensures Tokenize("hey ping") == tokens
    ensures SplitInvocation(tokens, "hey ", false).None?
  {
    WordInRegex("hey");
    WordInRegex("ping");
    assert JoinSpaces(tokens) == "hey ping" by {
      assert JoinSpaces(["ping"]) == "ping";
    }
    TokenizeJoinSpaces(tokens);
  }

  /** Whitespace alone has no tokens, and both modes panic on it. */
  lemma BlankContentPanics()
    ensures Tokenize("  ") == []
    ensures SplitInvocation(Tokenize("  "), " ", false).None?
    ensures SplitInvocation(Tokenize("  "), " ", true).None?
  {
    var s := "  ";
    assert MatchEnd(s, 1) == 1 by { assert IsSpace(s[1]); }
    assert MatchEnd(s, 0) == 0 by { assert IsSpace(s[0]); }
  }
}
