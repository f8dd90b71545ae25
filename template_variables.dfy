/**
 * The missing-variable rule both prompters apply before rendering: the
 * template's undeclared variables that nothing supplies, in the order the
 * template lists them.
 */
module TemplateVariables {

  /** The elements of `variables` not in `covered`, in order, duplicates included. */
  function Uncovered(variables: seq<string>, covered: set<string>): seq<string>
  {
    if variables == [] then []
    else
      var last := variables[|variables| - 1];
      Uncovered(variables[..|variables| - 1], covered) + (if last in covered then [] else [last])
  }

  /** A variable is reported exactly when the template has it and nothing covers it; nothing else is. */
  lemma {:induction false} UncoveredMembers(variables: seq<string>, covered: set<string>)
    ensures forall v :: v in Uncovered(variables, covered) <==> v in variables && v !in covered
    ensures |Uncovered(variables, covered)| <= |variables|
  {
    if variables != [] {
      var init := variables[..|variables| - 1];
      UncoveredMembers(init, covered);
      assert variables == init + [variables[|variables| - 1]];
    }
  }

  /** Nothing is missing exactly when every template variable is covered. */
  lemma NoneUncovered(variables: seq<string>, covered: set<string>)
    ensures Uncovered(variables, covered) == [] <==> forall i :: 0 <= i < |variables| ==> variables[i] in covered
  {
    UncoveredMembers(variables, covered);
    if Uncovered(variables, covered) != [] {
      assert Uncovered(variables, covered)[0] in Uncovered(variables, covered);
    }
  }

  /** Covering more can only shrink what is reported. */
  lemma {:induction false} UncoveredAntitone(variables: seq<string>, covered: set<string>, more: set<string>)
    requires covered <= more
    ensures |Uncovered(variables, more)| <= |Uncovered(variables, covered)|
  {
    if variables != [] {
      UncoveredAntitone(variables[..|variables| - 1], covered, more);
    }
  }

  /** The names of a list, for `x in some_list` tests. */
  function Names(xs: seq<string>): (r: set<string>)
    ensures forall x :: x in r <==> x in xs
  {
    set x | x in xs
  }

  /** `for variable in variables: if variable not in covered: missing.append(variable)`. */
  method CollectUncovered(variables: seq<string>, covered: set<string>) returns (missing: seq<string>)
    ensures missing == Uncovered(variables, covered)
  {
    missing := [];
    for i := 0 to |variables|
      invariant missing == Uncovered(variables[..i], covered)
    {
      assert variables[..i + 1][..i] == variables[..i];
      if variables[i] !in covered {
        missing := missing + [variables[i]];
      }
    }
    assert variables[..|variables|] == variables;
  }
}
