/**
 * Pieces the prompt-template builders (classification, NER, question
 * answering) share: the optional description line, the closing input block and
 * the example lines appended one by one with `template += ...`.
 */
module PromptText {
  import opened Text

  /** `f"{description}\n{template}"` when `description` is truthy (non-empty), else `template`. */
  function WithDescription(description: string, template: string): string
  {
    if description != "" then description + "\n" + template else template
  }

  /** `f"\nInput: {text_input}\nOutput:"`, the block every classification and NER prompt ends with. */
  function InputTail(textInput: string): string
  {
    "\nInput: " + textInput + "\nOutput:"
  }

  /** The lines `line(x)` for the elements of `xs`, in order, as a loop of `template += line(x)` builds them. */
  function Lines<E>(line: E -> string, xs: seq<E>): string
  {
    if xs == [] then "" else Lines(line, xs[..|xs| - 1]) + line(xs[|xs| - 1])
  }

  /** Rendering two runs of elements one after the other concatenates their lines. */
  lemma {:induction false} LinesAppend<E>(line: E -> string, xs: seq<E>, ys: seq<E>)
    ensures Lines(line, xs + ys) == Lines(line, xs) + Lines(line, ys)
    decreases |ys|
  {
    if ys == [] {
      assert xs + ys == xs;
    } else {
      var init := ys[..|ys| - 1];
      LinesAppend(line, xs, init);
      assert (xs + ys)[..|xs + ys| - 1] == xs + init;
      assert (xs + ys)[|xs + ys| - 1] == ys[|ys| - 1];
    }
  }

  /** The i-th element's line sits right after the lines of the elements before it. */
  lemma LinesAt<E>(line: E -> string, xs: seq<E>, i: nat)
    requires i < |xs|
    ensures OccursAt(Lines(line, xs), line(xs[i]), |Lines(line, xs[..i])|)
  {
    var before, after := xs[..i], xs[i + 1..];
    assert xs == before + [xs[i]] + after;
    LinesAppend(line, before + [xs[i]], after);
    LinesAppend(line, before, [xs[i]]);
    assert [xs[i]][..0] == [];
    var whole := Lines(line, before) + line(xs[i]) + Lines(line, after);
    assert whole[|Lines(line, before)|..|Lines(line, before)| + |line(xs[i])|] == line(xs[i]);
  }

  /** `whole` is `base` with `insertion` put after its first `k` characters. */
  predicate Inserted(whole: string, base: string, k: nat, insertion: string)
  {
    k <= |base| && whole == base[..k] + insertion + base[k..]
  }

  lemma AppendEmpty(a: string)
    ensures a + "" == a
  {
  }

  lemma Regroup(a: string, b: string, c: string)
    ensures a + b + c == a + (b + c)
  {
  }

  lemma Regroup4(a: string, b: string, c: string, d: string)
    ensures a + b + c + d == a + (b + c + d)
  {
  }

  /** Putting `x` between `a` and `t` is inserting it at `|a|`. */
  lemma InsertedBefore(a: string, x: string, t: string)
    ensures Inserted(a + x + t, a + "" + t, |a|, x)
  {
    assert (a + "" + t)[..|a|] == a && (a + "" + t)[|a|..] == t;
  }

  /** `header + sep + middle + tail` starts with the header, then the separator, and ends with `tail`. */
  lemma Framed(header: string, sep: string, middle: string, tail: string)
    ensures StartsWith(header + sep + middle + tail, header)
    ensures StartsWith(header + sep + middle + tail, header + sep)
    ensures EndsWith(header + sep + middle + tail, tail)
  {
    PrefixOfAppend(header, sep);
    PrefixExtend(header + sep, header, middle);
    PrefixExtend(header + sep + middle, header, tail);
    PrefixOfAppend(header + sep, middle);
    PrefixExtend(header + sep + middle, header + sep, tail);
    SuffixOfAppend(header + sep + middle, tail);
  }

  /**
   * The shape of the NER, multi-label and question-answering prompts: the
   * header, a separator, a fixed example (`shot`, possibly empty), one line
   * per caller example, and the closing block.
   */
  function ExamplePrompt<E>(header: string, sep: string, shot: string, line: E -> string, examples: seq<E>,
                            tail: string): (r: string)
    ensures StartsWith(r, header) && StartsWith(r, header + sep) && EndsWith(r, tail)
  {
    Framed(header, sep, shot + Lines(line, examples), tail);
    header + sep + (shot + Lines(line, examples)) + tail
  }

  /** The fixed example sits right after the separator; leaving it out changes nothing else. */
  lemma ShotInserted<E>(header: string, sep: string, shot: string, line: E -> string, examples: seq<E>, tail: string)
    ensures Inserted(ExamplePrompt(header, sep, shot, line, examples, tail),
                     ExamplePrompt(header, sep, "", line, examples, tail), |header| + |sep|, shot)
  {
    var l := Lines(line, examples);
    assert "" + l == l;
    Regroup(header + sep, shot + l, tail);
    Regroup(shot, l, tail);
    Regroup(header + sep, shot, l + tail);
    Regroup(header + sep, l, tail);
    InsertedBefore(header + sep, shot, l + tail);
  }

  /** The fixed example sits right after the header and the separator. */
  lemma ShotAt<E>(header: string, sep: string, shot: string, line: E -> string, examples: seq<E>, tail: string)
    ensures OccursAt(ExamplePrompt(header, sep, shot, line, examples, tail), shot, |header| + |sep|)
  {
    var l := Lines(line, examples);
    Regroup(header + sep, shot + l, tail);
    Regroup(shot, l, tail);
    Regroup(header + sep, shot, l + tail);
    InfixOfAppend(header + sep, shot, l + tail);
  }

  /** The caller examples' lines sit right before the closing block; with none, nothing is there. */
  lemma LinesInserted<E>(header: string, sep: string, shot: string, line: E -> string, examples: seq<E>, tail: string)
    ensures var without := ExamplePrompt(header, sep, shot, line, [], tail);
      Inserted(ExamplePrompt(header, sep, shot, line, examples, tail), without,
               |without| - |tail|, Lines(line, examples))
  {
    var a := header + sep + shot;
    Regroup(header + sep, shot, Lines(line, examples));
    Regroup(header + sep, shot, "");
    InsertedBefore(a, Lines(line, examples), tail);
  }

  /** `for example in examples: template += line(example)`. */
  method AppendLines<E>(template: string, line: E -> string, examples: seq<E>) returns (r: string)
    ensures r == template + Lines(line, examples)
  {
    r := template;
    for i := 0 to |examples|
      invariant r == template + Lines(line, examples[..i])
    {
      assert examples[..i + 1][..i] == examples[..i];
      Regroup(template, Lines(line, examples[..i]), line(examples[i]));
      r := r + line(examples[i]);
    }
    assert examples[..|examples|] == examples;
  }
}
