/**
 * `Parser.extract_complete_objects` (promptify/parser/parser.py:125-170).
 *
 * The regular expression `(?<!\\)(\[[^][]*?(?<!\\)\]|\{[^{}]*\})` and
 * `re.finditer` are replaced by a left-to-right scanner: at a position not
 * preceded by a backslash, a `[` matches up to the first following `[` or `]`
 * if that is a `]` not preceded by a backslash, and a `{` matches up to the
 * first following `{` or `}` if that is a `}`; scanning resumes after a match.
 * `ast.literal_eval` is an arbitrary `literalEval: string -> Result<PyValue>`
 * that returns the value or the exception it raises; a ValueError or a
 * SyntaxError (subclasses reported under these names) is caught and the string
 * skipped, any other exception (a TypeError for an unhashable key, say) leaves
 * the function.
 */
module ObjectExtraction {
  import opened PyValues

  /** The character just before position `p` is a backslash. */
  predicate AfterBackslash(s: string, p: nat)
  {
    0 < p <= |s| && s[p - 1] == '\\'
  }

  /** The first index at or after `k` holding `a` or `b`, or `|s|` if there is none. */
  function FirstOf(s: string, k: nat, a: char, b: char): (q: nat)
    requires k <= |s|
    ensures k <= q <= |s|
    ensures forall j :: k <= j < q ==> s[j] != a && s[j] != b
    ensures q < |s| ==> s[q] == a || s[q] == b
    decreases |s| - k
  {
    if k == |s| || s[k] == a || s[k] == b then k else FirstOf(s, k + 1, a, b)
  }

  /** Where the regular expression's match starting at `p` ends (exclusive), if it matches there. */
  function MatchEnd(s: string, p: nat): Option<nat>
    requires p < |s|
  {
    if AfterBackslash(s, p) then None
    else if s[p] == '[' then
      var q := FirstOf(s, p + 1, '[', ']');
      if q < |s| && s[q] == ']' && s[q - 1] != '\\' then Some(q + 1) else None
    else if s[p] == '{' then
      var q := FirstOf(s, p + 1, '{', '}');
      if q < |s| && s[q] == '}' then Some(q + 1) else None
    else None
  }

  /** Reference reading of the pattern: `s[p..e]` is a match of one of its two alternatives. */
  predicate IsObjectAt(s: string, p: nat, e: nat)
  {
    && p + 2 <= e <= |s|
    && !AfterBackslash(s, p)
    && (|| (s[p] == '[' && s[e - 1] == ']' && s[e - 2] != '\\'
            && forall k :: p < k < e - 1 ==> s[k] != '[' && s[k] != ']')
        || (s[p] == '{' && s[e - 1] == '}'
            && forall k :: p < k < e - 1 ==> s[k] != '{' && s[k] != '}'))
  }

  /** The scanner finds a match at `p` ending at `e` exactly when the pattern matches `s[p..e]`. */
  lemma MatchEndIsObject(s: string, p: nat, e: nat)
    requires p < |s|
    ensures MatchEnd(s, p) == Some(e) <==> IsObjectAt(s, p, e)
  {
    if IsObjectAt(s, p, e) {
      if s[p] == '[' {
        assert FirstOf(s, p + 1, '[', ']') == e - 1;
      } else {
        assert FirstOf(s, p + 1, '{', '}') == e - 1;
      }
    }
  }

  /** `re.finditer` from position `p`: the spans `(start, end)` of the matches, left to right. */
  function Matches(s: string, p: nat): seq<(nat, nat)>
    requires p <= |s|
    decreases |s| - p
  {
    if p == |s| then []
    else
      match MatchEnd(s, p)
      case Some(e) => [(p, e)] + Matches(s, e)
      case None => Matches(s, p + 1)
  }

  /** Each span is a match, the spans lie after `p`, and they follow one another without overlap. */
  lemma {:induction false} MatchesSound(s: string, p: nat)
    requires p <= |s|
    ensures forall j :: 0 <= j < |Matches(s, p)| ==>
      p <= Matches(s, p)[j].0 && IsObjectAt(s, Matches(s, p)[j].0, Matches(s, p)[j].1)
    ensures forall j :: 0 <= j < |Matches(s, p)| - 1 ==> Matches(s, p)[j].1 <= Matches(s, p)[j + 1].0
    decreases |s| - p
  {
    if p < |s| {
      match MatchEnd(s, p)
      case Some(e) =>
        MatchEndIsObject(s, p, e);
        MatchesSound(s, e);
        assert Matches(s, p) == [(p, e)] + Matches(s, e);
      case None =>
        MatchesSound(s, p + 1);
        assert Matches(s, p) == Matches(s, p + 1);
    }
  }

  /** No match is skipped: every position at or after `p` where the pattern matches lies inside a span. */
  lemma {:induction false} MatchesLeftmost(s: string, p: nat, q: nat)
    requires p <= q < |s| && MatchEnd(s, q).Some?
    ensures exists j :: 0 <= j < |Matches(s, p)| && Matches(s, p)[j].0 <= q < Matches(s, p)[j].1
    decreases |s| - p
  {
    var found := Matches(s, p);
    match MatchEnd(s, p)
    case Some(e) =>
      MatchEndIsObject(s, p, e);
      if q < e {
        assert found[0] == (p, e);
      } else {
        MatchesLeftmost(s, e, q);
        var j :| 0 <= j < |Matches(s, e)| && Matches(s, e)[j].0 <= q < Matches(s, e)[j].1;
        assert found[j + 1] == Matches(s, e)[j];
      }
    case None =>
      MatchesLeftmost(s, p + 1, q);
  }

  /** The spans are within `s`. */
  predicate Spans(s: string, spans: seq<(nat, nat)>)
  {
    forall j :: 0 <= j < |spans| ==> spans[j].0 <= spans[j].1 <= |s|
  }

  /** The text of each span. */
  function Texts(s: string, spans: seq<(nat, nat)>): (r: seq<string>)
    requires Spans(s, spans)
    ensures |r| == |spans|
    ensures forall j :: 0 <= j < |spans| ==> r[j] == s[spans[j].0..spans[j].1]
  {
    if spans == [] then []
    else
      var last := spans[|spans| - 1];
      Texts(s, spans[..|spans| - 1]) + [s[last.0..last.1]]
  }

  /** Every span lies within `s`, is at least two characters long and ends in a closing bracket. */
  lemma MatchesClosed(s: string)
    ensures Spans(s, Matches(s, 0))
    ensures forall j :: 0 <= j < |Matches(s, 0)| ==>
      Matches(s, 0)[j].0 + 2 <= Matches(s, 0)[j].1 && (s[Matches(s, 0)[j].1 - 1] == '}' || s[Matches(s, 0)[j].1 - 1] == ']')
  {
    MatchesSound(s, 0);
  }

  /** The strings `extract_complete_objects` collects: the text of every match, in order. */
  function ObjectStrings(s: string): seq<string>
  {
    MatchesClosed(s);
    Texts(s, Matches(s, 0))
  }

  /** The exceptions the `except (ValueError, SyntaxError)` clause catches. */
  predicate Caught(e: Exception)
  {
    e.ValueError? || e == Raised("SyntaxError")
  }

  /** One `literal_eval` that the loop gets past: a value, or a caught exception. */
  predicate Tolerated(r: Result<PyValue>)
  {
    r.Success? || Caught(r.error)
  }

  /**
   * The loop over the collected strings: the values of the ones `literal_eval`
   * accepts, in order, or the first exception the `except` clause does not catch.
   */
  function Evaluated(literalEval: string -> Result<PyValue>, xs: seq<string>): Result<seq<PyValue>>
  {
    if xs == [] then Success([])
    else
      match Evaluated(literalEval, xs[..|xs| - 1])
      case Failure(e) => Failure(e)
      case Success(prev) =>
        match literalEval(xs[|xs| - 1])
        case Success(v) => Success(prev + [v])
        case Failure(e) => if Caught(e) then Success(prev) else Failure(e)
  }

  /**
   * The loop finishes exactly when every string evaluates or raises a caught
   * exception; then a value is extracted exactly when some collected string
   * evaluates to it, and there are never more values than strings.
   */
  lemma {:induction false} EvaluatedMembers(literalEval: string -> Result<PyValue>, xs: seq<string>, v: PyValue)
    ensures Evaluated(literalEval, xs).Success? <==> forall i :: 0 <= i < |xs| ==> Tolerated(literalEval(xs[i]))
    ensures Evaluated(literalEval, xs).Success? ==>
      && (v in Evaluated(literalEval, xs).value <==> exists i :: 0 <= i < |xs| && literalEval(xs[i]) == Success(v))
      && |Evaluated(literalEval, xs).value| <= |xs|
  {
    if xs != [] {
      var init := xs[..|xs| - 1];
      EvaluatedMembers(literalEval, init, v);
      assert forall i :: 0 <= i < |init| ==> init[i] == xs[i];
      if exists i :: 0 <= i < |xs| && literalEval(xs[i]) == Success(v) {
        var i :| 0 <= i < |xs| && literalEval(xs[i]) == Success(v);
        if i < |init| {
          assert init[i] == xs[i];
        }
      }
      if exists i :: 0 <= i < |init| && literalEval(init[i]) == Success(v) {
        var i :| 0 <= i < |init| && literalEval(init[i]) == Success(v);
        assert xs[i] == init[i];
      }
    }
  }

  /**
   * Otherwise the exception that leaves the function is the one raised for the
   * first string whose exception is not caught; the values gathered before it
   * are lost.
   */
  lemma {:induction false} EvaluatedFailure(literalEval: string -> Result<PyValue>, xs: seq<string>)
    requires Evaluated(literalEval, xs).Failure?
    ensures exists i :: && 0 <= i < |xs|
                        && literalEval(xs[i]) == Failure(Evaluated(literalEval, xs).error)
                        && !Caught(Evaluated(literalEval, xs).error)
                        && forall j :: 0 <= j < i ==> Tolerated(literalEval(xs[j]))
  {
    var init := xs[..|xs| - 1];
    assert forall j :: 0 <= j < |init| ==> init[j] == xs[j];
    if Evaluated(literalEval, init).Failure? {
      EvaluatedFailure(literalEval, init);
      var i :| && 0 <= i < |init|
               && literalEval(init[i]) == Failure(Evaluated(literalEval, init).error)
               && !Caught(Evaluated(literalEval, init).error)
               && forall j :: 0 <= j < i ==> Tolerated(literalEval(init[j]));
      assert literalEval(xs[i]) == literalEval(init[i]);
    } else {
      EvaluatedMembers(literalEval, init, PyNone);
      assert literalEval(xs[|xs| - 1]) == Failure(Evaluated(literalEval, xs).error);
    }
  }

  /** Once an exception has escaped for a prefix, nothing after it is evaluated. */
  lemma {:induction false} EvaluatedStops(literalEval: string -> Result<PyValue>, xs: seq<string>, n: nat)
    requires n <= |xs| && Evaluated(literalEval, xs[..n]).Failure?
    ensures Evaluated(literalEval, xs) == Evaluated(literalEval, xs[..n])
    decreases |xs| - n
  {
    if n < |xs| {
      assert xs[..n + 1][..n] == xs[..n];
      EvaluatedStops(literalEval, xs, n + 1);
    } else {
      assert xs[..n] == xs;
    }
  }

  /**
   * `{[1]: 2}` is a single match of the pattern, and the TypeError
   * `literal_eval` raises for its unhashable key leaves
   * `extract_complete_objects`.
   */
  lemma UnhashableKeyEscapes(literalEval: string -> Result<PyValue>)
    requires literalEval("{[1]: 2}") == Failure(Raised("TypeError"))
    ensures ObjectStrings("{[1]: 2}") == ["{[1]: 2}"]
    ensures Evaluated(literalEval, ObjectStrings("{[1]: 2}")) == Failure(Raised("TypeError"))
  {
    var s := "{[1]: 2}";
    assert FirstOf(s, 1, '{', '}') == 7;
    assert MatchEnd(s, 0) == Some(8);
    assert Matches(s, 0) == [(0, 8)] + Matches(s, 8);
    assert s[0..8] == s;
    var none: seq<string> := [];
    assert [s][..0] == none;
  }

  /** `len([b for b in opening.values() if b != 0])` for the two counters. */
  function NonZeroCount(opening: map<char, int>): nat
    requires '{' in opening && '[' in opening
  {
    (if opening['{'] != 0 then 1 else 0) + (if opening['['] != 0 then 1 else 0)
  }

  /**
   * `extract_complete_objects(string)`. After every reset the bumped counter is
   * 1 and it is the only nonzero one, so every match is emitted on its own, the
   * stack is empty after each match and the "incomplete object" report at the
   * end never happens.
   */
  method ExtractCompleteObjects(literalEval: string -> Result<PyValue>, str: string) returns (r: Result<seq<PyValue>>)
    ensures r == Evaluated(literalEval, ObjectStrings(str))
  {
    var found := Matches(str, 0);
    MatchesClosed(str);
    var objectStrings: seq<string> := [];
    var opening := map['{' := 0, '[' := 0];
    var closing := map['}' := '{', ']' := '['];
    var stack: seq<string> := [];
    var start := 0;
    for i := 0 to |found|
      invariant stack == [] && opening == map['{' := 0, '[' := 0] && closing == map['}' := '{', ']' := '[']
      invariant objectStrings == Texts(str, found[..i])
    {
      var (matchStart, matchEnd) := found[i];
      var group := str[matchStart..matchEnd];
      if |stack| == 0 {
        start := matchStart;
      }
      stack := stack + [group];
      if group[|group| - 1] in closing {
        var openingBracket := closing[group[|group| - 1]];
        opening := opening[openingBracket := opening[openingBracket] + 1];
        if opening[openingBracket] == NonZeroCount(opening) {
          objectStrings := objectStrings + [str[start..matchEnd]];
          stack := [];
          opening := map['{' := 0, '[' := 0];
          closing := map['}' := '{', ']' := '['];
        }
      }
      assert found[..i + 1][..i] == found[..i];
    }
    assert found[..|found|] == found;
    assert stack == [];
    var objects := [];
    for i := 0 to |objectStrings|
      invariant Evaluated(literalEval, objectStrings[..i]) == Success(objects)
    {
      var obj := literalEval(objectStrings[i]);
      assert objectStrings[..i + 1][..i] == objectStrings[..i];
      if obj.Success? {
        objects := objects + [obj.value];
      } else if !Caught(obj.error) {
        EvaluatedStops(literalEval, objectStrings, i + 1);
        return Failure(obj.error);
      }
    }
    assert objectStrings[..|objectStrings|] == objectStrings;
    r := Success(objects);
  }
}
