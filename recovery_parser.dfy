/**
 * The incomplete-JSON recovery search of `Parser` (promptify/parser/parser.py):
 * `complete_json_object`, `get_possible_completions`, `fit` and `is_valid_json`.
 *
 * Python's `eval` is an arbitrary evaluator `eval: string -> Option<PyValue>`
 * (`None` when it raises), and `len(str(x))` an arbitrary `size: PyValue -> nat`;
 * every property below holds for all of them.
 */
module RecoveryParser {
  import opened PyValues
  import opened Suffixes
  import opened Ranking

  /** `eval(s[:k] + suffix)` succeeds. */
  predicate Fixes(eval: string -> Option<PyValue>, s: string, suffix: string, k: nat)
    requires k <= |s|
  {
    eval(s[..k] + suffix).Some?
  }

  /**
   * What `complete_json_object(s, suffix)` returns: drop the last character of
   * `s` until `s + suffix` evaluates; raise once `s` is empty.
   */
  function CompleteObject(eval: string -> Option<PyValue>, s: string, suffix: string): Result<PyValue>
    decreases |s|
  {
    if s == "" then Failure(ValueError("Couldn't fix JSON"))
    else if eval(s + suffix).Some? then Success(eval(s + suffix).value)
    else CompleteObject(eval, s[..|s| - 1], suffix)
  }

  /** The search raises exactly when no nonempty prefix of `s` evaluates with the suffix. */
  lemma {:induction false} CompleteObjectFails(eval: string -> Option<PyValue>, s: string, suffix: string)
    ensures CompleteObject(eval, s, suffix).Failure? <==> forall k :: 1 <= k <= |s| ==> !Fixes(eval, s, suffix, k)
    ensures CompleteObject(eval, s, suffix).Failure? ==> CompleteObject(eval, s, suffix).error == ValueError("Couldn't fix JSON")
    decreases |s|
  {
    if s != "" {
      var t := s[..|s| - 1];
      assert s[..|s|] == s;
      CompleteObjectFails(eval, t, suffix);
      forall k | 1 <= k <= |t| ensures Fixes(eval, t, suffix, k) == Fixes(eval, s, suffix, k) {
        assert t[..k] == s[..k];
      }
      assert Fixes(eval, s, suffix, |s|) == eval(s + suffix).Some?;
    }
  }

  /** Otherwise it returns the value of the longest nonempty prefix that evaluates with the suffix. */
  lemma {:induction false} CompleteObjectLongest(eval: string -> Option<PyValue>, s: string, suffix: string, k: nat)
    requires 1 <= k <= |s| && Fixes(eval, s, suffix, k)
    requires forall k' :: k < k' <= |s| ==> !Fixes(eval, s, suffix, k')
    ensures CompleteObject(eval, s, suffix) == Success(eval(s[..k] + suffix).value)
    decreases |s|
  {
    assert s[..|s|] == s;
    if k < |s| {
      var t := s[..|s| - 1];
      assert !Fixes(eval, s, suffix, |s|);
      forall k' | 1 <= k' <= |t| ensures Fixes(eval, t, suffix, k') == Fixes(eval, s, suffix, k') {
        assert t[..k'] == s[..k'];
      }
      CompleteObjectLongest(eval, t, suffix, k);
      assert t[..k] == s[..k];
    }
  }

  /** `complete_json_object`: the `while True` loop that trims `json_str` one character at a time. */
  method CompleteJsonObject(eval: string -> Option<PyValue>, jsonStr: string, completionStr: string)
    returns (r: Result<PyValue>)
    ensures r == CompleteObject(eval, jsonStr, completionStr)
  {
    var s := jsonStr;
    while true
      invariant CompleteObject(eval, s, completionStr) == CompleteObject(eval, jsonStr, completionStr)
      decreases |s|
    {
      if s == "" {
        return Failure(ValueError("Couldn't fix JSON"));
      }
      var attempt := eval(s + completionStr);
      if attempt.Some? {
        return Success(attempt.value);
      }
      s := s[..|s| - 1];
    }
  }

  /** The successful completions, in suffix order, duplicates kept, failures dropped. */
  function Completions(eval: string -> Option<PyValue>, s: string, suffixes: seq<string>): seq<PyValue>
  {
    if suffixes == [] then []
    else
      (match CompleteObject(eval, s, suffixes[0])
       case Success(v) => [v]
       case Failure(_) => [])
      + Completions(eval, s, suffixes[1..])
  }

  /** Collecting over consecutive runs of suffixes concatenates the results. */
  lemma {:induction false} CompletionsAppend(eval: string -> Option<PyValue>, s: string, a: seq<string>, b: seq<string>)
    ensures Completions(eval, s, a + b) == Completions(eval, s, a) + Completions(eval, s, b)
  {
    if a == [] {
      assert a + b == b;
    } else {
      CompletionsAppend(eval, s, a[1..], b);
      assert (a + b)[1..] == a[1..] + b;
      assert (a + b)[0] == a[0];
    }
  }

  /** A value is a candidate exactly when some tried suffix completes `s` to it. */
  lemma {:induction false} CompletionsMembers(eval: string -> Option<PyValue>, s: string, suffixes: seq<string>, v: PyValue)
    ensures v in Completions(eval, s, suffixes) <==>
      exists i :: 0 <= i < |suffixes| && CompleteObject(eval, s, suffixes[i]) == Success(v)
  {
    if suffixes != [] {
      CompletionsMembers(eval, s, suffixes[1..], v);
      if CompleteObject(eval, s, suffixes[0]) != Success(v) {
        if exists i :: 0 <= i < |suffixes| && CompleteObject(eval, s, suffixes[i]) == Success(v) {
          var i :| 0 <= i < |suffixes| && CompleteObject(eval, s, suffixes[i]) == Success(v);
          assert suffixes[1..][i - 1] == suffixes[i];
        }
      }
    }
  }

  /** The candidates `get_possible_completions(s, n)` collects. */
  function Candidates(eval: string -> Option<PyValue>, s: string, n: int): seq<PyValue>
  {
    Completions(eval, s, Combinations(n))
  }

  /** Raising the completion length never loses a candidate: the old list is a prefix of the new. */
  lemma CandidatesGrow(eval: string -> Option<PyValue>, s: string, n: int)
    ensures n >= 1 ==> Candidates(eval, s, n + 1) == Candidates(eval, s, n) + Completions(eval, s, Product(n))
    ensures Candidates(eval, s, n) <= Candidates(eval, s, n + 1)
  {
    if n >= 1 {
      CompletionsAppend(eval, s, Combinations(n), Product(n));
    }
  }

  /** What `get_possible_completions(s, n)` returns: the ranked candidates, or IndexError if there are none. */
  function PossibleCompletions(eval: string -> Option<PyValue>, size: PyValue -> nat, s: string, n: int): Result<Ranked<PyValue>>
  {
    FindMaxLength(size, Candidates(eval, s, n))
  }

  /** `get_possible_completions`: try every suffix in order, keep the successes, rank them. */
  method GetPossibleCompletions(eval: string -> Option<PyValue>, size: PyValue -> nat, jsonStr: string, maxCompletionLength: int)
    returns (r: Result<Ranked<PyValue>>)
    ensures r.Failure? <==> Candidates(eval, jsonStr, maxCompletionLength) == []
    ensures r.Failure? ==> r.error == IndexError("list index out of range")
    ensures r.Success? ==> IsRanking(size, Candidates(eval, jsonStr, maxCompletionLength), r.value.completion, r.value.suggestions)
    ensures r == PossibleCompletions(eval, size, jsonStr, maxCompletionLength)
  {
    var suffixes := GetCombinations(maxCompletionLength);
    var completions: seq<PyValue> := [];
    for i := 0 to |suffixes|
      invariant completions == Completions(eval, jsonStr, suffixes[..i])
    {
      var completed := CompleteJsonObject(eval, jsonStr, suffixes[i]);
      CompletionsAppend(eval, jsonStr, suffixes[..i], [suffixes[i]]);
      assert suffixes[..i + 1] == suffixes[..i] + [suffixes[i]];
      if completed.Success? {
        completions := completions + [completed.value];
      }
    }
    assert suffixes[..|suffixes|] == suffixes;
    r := FindMaxLength(size, completions);
  }

  datatype Status = Completed | Failed

  /** The `data` entry of the dictionary `fit` returns. */
  datatype FitData =
    | Found(completion: PyValue, suggestions: seq<PyValue>)
    | ErrorMessage(errorMessage: string)

  /** The dictionary `fit` returns: `status`, `object_type` (None when failed) and `data`. */
  datatype FitResult = FitResult(status: Status, objectType: Option<TypeTag>, data: FitData)

  /**
   * `fit(s, n)`: the whole text as it evaluates, else the ranked search, else
   * a failure carrying the exception's message. It never raises.
   */
  function Fit(eval: string -> Option<PyValue>, size: PyValue -> nat, s: string, n: int): (r: FitResult)
    ensures r.status == Completed <==> eval(s).Some? || Candidates(eval, s, n) != []
    ensures r.status == Completed ==> r.data.Found? && r.objectType == Some(TypeOf(r.data.completion))
    ensures eval(s).Some? ==> r.data == Found(eval(s).value, [])
    ensures eval(s).None? && r.status == Completed ==>
      IsRanking(size, Candidates(eval, s, n), r.data.completion, r.data.suggestions)
    ensures r.status == Failed ==> r.objectType == None && r.data == ErrorMessage("list index out of range")
  {
    match eval(s)
    case Some(v) => FitResult(Completed, Some(TypeOf(v)), Found(v, []))
    case None =>
      match PossibleCompletions(eval, size, s, n)
      case Success(ranked) =>
        FitResult(Completed, Some(TypeOf(ranked.completion)), Found(ranked.completion, ranked.suggestions))
      case Failure(e) =>
        // `str(e)`: only the IndexError of an empty candidate list can reach here
        match e
        case IndexError(message) => FitResult(Failed, None, ErrorMessage(message))
        case _ => assert false; FitResult(Failed, None, ErrorMessage(""))
  }

  /** With no suffix to try (n <= 1), text that does not evaluate as a whole fails. */
  lemma FitWithoutSuffixes(eval: string -> Option<PyValue>, size: PyValue -> nat, s: string, n: int)
    requires n <= 1 && eval(s).None?
    ensures Fit(eval, size, s, n).status == Failed
  {
    CombinationsCount(n);
  }

  /** The text `fit` reports as completed is one evaluation of the text, or of a prefix of it plus a suffix. */
  lemma FitCompletionOrigin(eval: string -> Option<PyValue>, size: PyValue -> nat, s: string, n: int)
    requires Fit(eval, size, s, n).status == Completed && eval(s).None?
    ensures exists i :: (0 <= i < |Combinations(n)| &&
                         CompleteObject(eval, s, Combinations(n)[i]) == Success(Fit(eval, size, s, n).data.completion))
  {
    var r := Fit(eval, size, s, n);
    var cands := Candidates(eval, s, n);
    assert r.data.completion == cands[FirstLongest(size, cands)];
    CompletionsMembers(eval, s, Combinations(n), r.data.completion);
  }

  /** `is_valid_json(s)`: `eval` succeeds and yields a dict or a list; never raises. */
  function IsValidJson(eval: string -> Option<PyValue>, s: string): (r: bool)
    ensures r <==> eval(s).Some? && TypeOf(eval(s).value) in {DictType, ListType}
  {
    match eval(s)
    case Some(v) => v.PyDict? || v.PyList?
    case None => false
  }

  /** Text `is_valid_json` accepts is returned by `fit` as it is, typed dict or list, without suggestions. */
  lemma ValidJsonFitsDirectly(eval: string -> Option<PyValue>, size: PyValue -> nat, s: string, n: int)
    requires IsValidJson(eval, s)
    ensures var r := Fit(eval, size, s, n);
      && r.status == Completed
      && r.data == Found(eval(s).value, [])
      && r.objectType in {Some(DictType), Some(ListType)}
  {
  }
}
