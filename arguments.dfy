/**
 * Command arguments: a single token with typed, fallible coercions, and the
 * positional list of tokens with bounds-checked access.
 */
module Arguments {
  import opened Wrappers
  import opened Strconv

  /** One argument token. */
  type Argument = string

  /** The argument tokens of one dispatch, in message order. */
  type ArgumentList = seq<string>

  /** The token as plain text. */
  function AsString(a: Argument): (r: string)
    ensures r == a
  {
    a
  }

  /**
   * The token as a Go `int`: defined exactly on an optional sign followed by
   * decimal digits whose value fits in 64 bits.
   */
  function AsInt(a: Argument): (r: Result<int, NumError>)
    ensures r.Success? <==> IsIntSyntax(a) && MinInt <= SignedValue(a) <= MaxInt
    ensures r.Success? ==> IsIntSyntax(a) && r.value == SignedValue(a)
    ensures IsIntSyntax(a) && !(MinInt <= SignedValue(a) <= MaxInt) ==> r == Failure(ErrRange)
  {
    AtoiSpec(AsString(a));
    Atoi(AsString(a))
  }

  /** The token as a truth value, from a fixed set of spellings. */
  function AsBool(a: Argument): (r: Result<bool, NumError>)
    ensures r == Success(true) <==> a in {"1", "t", "T", "TRUE", "true", "True"}
    ensures r == Success(false) <==> a in {"0", "f", "F", "FALSE", "false", "False"}
    ensures r.Failure? ==> r.error == ErrSyntax
  {
    ParseBool(AsString(a))
  }

  /** The argument at position i, or the empty argument when there is none. */
  function Get(al: ArgumentList, i: int): (r: Argument)
    ensures 0 <= i < |al| ==> r == al[i]
    ensures !(0 <= i < |al|) ==> r == ""
  {
    if i < 0 || i >= |al| then "" else al[i]
  }

  /** The position of the first occurrence of v, or -1. */
  method IndexOf(al: ArgumentList, v: string) returns (k: int)
    ensures -1 <= k < |al|
    ensures k == -1 <==> v !in al
    ensures 0 <= k ==> al[k] == v && v !in al[..k]
  {
    for i := 0 to |al|
      invariant v !in al[..i]
    {
      if al[i] == v {
        return i;
      }
    }
    return -1;
  }

  /** Whether v occurs in the list. */
  method Contains(al: ArgumentList, v: string) returns (b: bool)
    ensures b <==> v in al
  {
    var k := IndexOf(al, v);
    b := k > -1;
  }

  /**
   * The arguments for which Splice's slice expressions stay in bounds: both
   * are Go ints, `arr[:i]` needs i >= 0, and when the tail is kept,
   * `arr[i+r:]` needs i + r >= 0 without wrapping around.
   */
  predicate SpliceDefined(n: nat, i: int, r: int) {
    && MinInt <= i <= MaxInt && MinInt <= r <= MaxInt
    && 0 <= i
    && (i < n ==> 0 <= i + r <= MaxInt)
  }

  /**
   * The list Splice(i, r) returns: r elements removed from position i on
   * (fewer when the list ends first, none when i is past its end).
   */
  function Spliced(al: ArgumentList, i: int, r: int): (s: ArgumentList)
    requires SpliceDefined(|al|, i, r)
    ensures |s| == if i >= |al| then |al| else if i + r >= |al| then i else |al| - r
    ensures forall j :: 0 <= j < |s| && j < i ==> s[j] == al[j]
    ensures forall j :: 0 <= j < |s| && j >= i ==> s[j] == al[j + r]
  {
    if i >= |al| then al
    else if i + r >= |al| then al[..i]
    else al[..i] + al[i + r..]
  }

  /**
   * Splice as it runs on a slice of length n over the backing array a, whose
   * length is the slice's capacity. The result (b, m) is the slice b[..m].
   * Appending the tail to `arr[:i]` writes into a itself when the result fits
   * in its capacity (always so when r >= 0): the kept tail moves to position
   * i and the cells from n - r on keep their old contents. Otherwise append
   * copies into a fresh array and a is left alone.
   */
  method Splice(a: array<string>, n: nat, i: int, r: int) returns (b: array<string>, m: nat)
    requires n <= a.Length && SpliceDefined(n, i, r)
    modifies a
    ensures m <= b.Length && b[..m] == Spliced(old(a[..n]), i, r)
    ensures i >= n || i + r >= n ==> b == a && a[..] == old(a[..])
    ensures i < n && i + r < n && n - r <= a.Length ==>
              b == a && forall k :: 0 <= k < a.Length ==> a[k] == if i <= k < n - r then old(a[k + r]) else old(a[k])
    ensures i < n && i + r < n && n - r > a.Length ==> fresh(b) && a[..] == old(a[..])
  {
    if i >= n {
      return a, n;
    }
    if i + r >= n {
      return a, i;
    }
    ghost var al := a[..n];
    m := n - r;
    if m > a.Length {
      b := new string[m];
      for k := 0 to m
        modifies b
        invariant forall j :: 0 <= j < k && j < i ==> b[j] == al[j]
        invariant forall j :: i <= j < k ==> b[j] == al[j + r]
      {
        b[k] := if k < i then a[k] else a[k + r];
      }
    } else {
      b := a;
      MoveTail(a, i, r, m);
    }
    SplicedFromElements(al, i, r, b[..m]);
  }

  /** A list of the right length that agrees with Splice element by element is its result. */
  lemma SplicedFromElements(al: ArgumentList, i: int, r: int, s: ArgumentList)
    requires SpliceDefined(|al|, i, r) && i < |al| && i + r < |al|
    requires |s| == |al| - r
    requires forall j :: 0 <= j < i ==> s[j] == al[j]
    requires forall j :: i <= j < |s| ==> s[j] == al[j + r]
    ensures s == Spliced(al, i, r)
  {
    var t := Spliced(al, i, r);
    assert forall j :: 0 <= j < |s| ==> s[j] == t[j];
  }

  /** Copies a[k + r] to a[k] for every k in [i, m), as Go's overlapping copy does. */
  method MoveTail(a: array<string>, i: nat, r: int, m: nat)
    requires i <= m <= a.Length && 0 <= i + r && m + r <= a.Length
    modifies a
    ensures forall k :: 0 <= k < a.Length ==> a[k] == if i <= k < m then old(a[k + r]) else old(a[k])
  {
    if r >= 0 {
      // moving down: each source lies at or after its target
      for j := i to m
        invariant forall k :: 0 <= k < a.Length ==> a[k] == if i <= k < j then old(a[k + r]) else old(a[k])
      {
        a[j] := a[j + r];
      }
    } else {
      // moving up: walking backwards reads each source before it is overwritten
      var j := m;
      while j > i
        invariant i <= j <= m
        invariant forall k :: 0 <= k < a.Length ==> a[k] == if j <= k < m then old(a[k + r]) else old(a[k])
      {
        j := j - 1;
        a[j] := a[j + r];
      }
    }
  }

  /**
   * Reading the spliced list at j is reading the original at j before the
   * splice point and r places further on after it, sentinel included.
   */
  lemma GetSpliced(al: ArgumentList, i: int, r: int, j: int)
    requires SpliceDefined(|al|, i, r) && r >= 0
    ensures Get(Spliced(al, i, r), j) == if j < i then Get(al, j) else Get(al, j + r)
  {
  }

  /** Removing r elements at once is removing one element r times. */
  lemma {:induction false} SplicedStepwise(al: ArgumentList, i: int, r: int)
    requires SpliceDefined(|al|, i, r) && r >= 1
    ensures SpliceDefined(|Spliced(al, i, 1)|, i, r - 1)
    ensures Spliced(Spliced(al, i, 1), i, r - 1) == Spliced(al, i, r)
  {
    var s1 := Spliced(al, i, 1);
    var s := Spliced(s1, i, r - 1);
    var t := Spliced(al, i, r);
    assert |s| == |t|;
    forall j | 0 <= j < |s|
      ensures s[j] == t[j]
    {
    }
  }

  /** The worked examples of splicing a five-element list. */
  lemma SplicedExamples()
    ensures Spliced(["a", "b", "c", "d", "e"], 1, 2) == ["a", "d", "e"]
    ensures Spliced(["a", "b", "c", "d", "e"], 4, 2) == ["a", "b", "c", "d"]
    ensures Spliced(["a", "b", "c", "d", "e"], 5, 1) == ["a", "b", "c", "d", "e"]
  {
  }

  /** Numeric and boolean coercion on sample tokens. */
  lemma CoercionExamples()
    ensures AsBool("TRUE") == Success(true)
    ensures AsBool("yes").Failure?
    ensures AsInt("42") == Success(42)
    ensures AsInt("4.2").Failure?
  {
    assert Unsigned("42") == "42";
    assert DigitsValue("42"[..1]) == 4;
    assert !IsDigit("4.2"[1]);
  }
}
