/**
 * The two decisions of the `config` commands that are not glue: the text that
 * shows how an imported configuration differs from the current one, and the
 * yes/no answer read from the terminal before overwriting.
 */
module ConfigCli {
  import opened Wrappers
  import opened Text
  import opened Sorting
  import opened Config

  /** Whether `k` gives different values, once trimmed, in `a` and `b`. */
  predicate Differs(a: Config, b: Config, k: string) {
    TrimSpace(Get(a, k).0) != TrimSpace(Get(b, k).0)
  }

  /** One line of the diff, with the values as stored. */
  function DiffLine(k: string, oldV: string, newV: string): string {
    "- " + k + ": " + oldV + " -> " + newV
  }

  /** The members of `ks` that satisfy `p`, in order. */
  function Filter(ks: seq<string>, p: string -> bool): seq<string> {
    if ks == [] then []
    else
      var n := |ks| - 1;
      Filter(ks[..n], p) + (if p(ks[n]) then [ks[n]] else [])
  }

  /** The line for key `k`: its value in `a`, then its value in `b`. */
  function LineOf(a: Config, b: Config, k: string): string {
    DiffLine(k, Get(a, k).0, Get(b, k).0)
  }

  /** One line for each member of `ks` that satisfies `p`, in order. */
  function Lines(ks: seq<string>, p: string -> bool, a: Config, b: Config): seq<string> {
    if ks == [] then []
    else
      var n := |ks| - 1;
      Lines(ks[..n], p, a, b) + (if p(ks[n]) then [LineOf(a, b, ks[n])] else [])
  }

  /** The keys of `ks` that differ, in the order of `ks`. */
  function Differing(a: Config, b: Config, ks: seq<string>): seq<string> {
    Filter(ks, k => Differs(a, b, k))
  }

  /** The lines `formatConfigDiff` collects over `ks`. */
  function DiffLines(a: Config, b: Config, ks: seq<string>): seq<string> {
    Lines(ks, k => Differs(a, b, k), a, b)
  }

  /**
   * `formatConfigDiff`: one line per key whose trimmed values differ, over the
   * sorted keys, joined by newlines. `Keys` is already sorted, so the second
   * `sort.Strings` of the source leaves it as it is (`KeysSorted`).
   */
  method FormatConfigDiff(oldCfg: Config, newCfg: Config) returns (s: string)
    ensures s == Join(DiffLines(oldCfg, newCfg, Keys()), "\n")
  {
    var keys := Keys();
    var lines := CollectLines(oldCfg, newCfg, keys);
    s := Join(lines, "\n");
  }

  /** The loop of `formatConfigDiff` over the keys. */
  method CollectLines(oldCfg: Config, newCfg: Config, keys: seq<string>) returns (lines: seq<string>)
    ensures lines == DiffLines(oldCfg, newCfg, keys)
  {
    lines := [];
    ghost var p := k => Differs(oldCfg, newCfg, k);
    for i := 0 to |keys|
      invariant lines == Lines(keys[..i], p, oldCfg, newCfg)
    {
      LinesSnoc(keys, p, oldCfg, newCfg, i);
      var k := keys[i];
      var oldV := Get(oldCfg, k).0;
      var newV := Get(newCfg, k).0;
      if TrimSpace(oldV) == TrimSpace(newV) {
        continue;
      }
      lines := lines + [DiffLine(k, oldV, newV)];
    }
    assert keys[..|keys|] == keys;
  }

  lemma LinesSnoc(ks: seq<string>, p: string -> bool, a: Config, b: Config, i: nat)
    requires i < |ks|
    ensures Lines(ks[..i + 1], p, a, b) ==
      Lines(ks[..i], p, a, b) + (if p(ks[i]) then [LineOf(a, b, ks[i])] else [])
  {
    assert ks[..i + 1][..i] == ks[..i];
  }

  /** A key is kept exactly when it is listed and satisfies `p`. */
  lemma {:induction false} FilterMembers(ks: seq<string>, p: string -> bool, k: string)
    ensures k in Filter(ks, p) <==> k in ks && p(k)
    decreases |ks|
  {
    if ks != [] {
      var n := |ks| - 1;
      FilterMembers(ks[..n], p, k);
      assert ks == ks[..n] + [ks[n]];
    }
  }

  /** Filtering a strictly sorted sequence keeps it strictly sorted. */
  lemma {:induction false} FilterSorted(ks: seq<string>, p: string -> bool)
    requires StrictlySorted(ks)
    ensures StrictlySorted(Filter(ks, p))
    decreases |ks|
  {
    if ks != [] {
      var n := |ks| - 1;
      var d := Filter(ks[..n], p);
      assert StrictlySorted(ks[..n]);
      FilterSorted(ks[..n], p);
      if p(ks[n]) {
        forall i | 0 <= i < |d|
          ensures Less(d[i], ks[n])
        {
          FilterMembers(ks[..n], p, d[i]);
          var j :| 0 <= j < n && ks[..n][j] == d[i];
        }
      }
    }
  }

  /** The lines are `line` of the kept keys, one each, in the same order. */
  lemma {:induction false} LinesOfFilter(ks: seq<string>, p: string -> bool, a: Config, b: Config)
    ensures |Lines(ks, p, a, b)| == |Filter(ks, p)|
    ensures forall i :: 0 <= i < |Lines(ks, p, a, b)| ==> Lines(ks, p, a, b)[i] == LineOf(a, b, Filter(ks, p)[i])
    decreases |ks|
  {
    if ks != [] {
      LinesOfFilter(ks[..|ks| - 1], p, a, b);
    }
  }

  /** No member of `ls` is the empty text. */
  predicate NoEmptyLine(ls: seq<string>) {
    forall i :: 0 <= i < |ls| ==> ls[i] != ""
  }

  /** The lines are never empty, since each starts with a dash. */
  lemma LinesNonEmpty(ks: seq<string>, p: string -> bool, a: Config, b: Config)
    ensures NoEmptyLine(Lines(ks, p, a, b))
  {
    var ls := Lines(ks, p, a, b);
    LinesOfFilter(ks, p, a, b);
    forall i | 0 <= i < |ls| ensures ls[i] != "" {
      LineOfNonEmpty(a, b, Filter(ks, p)[i]);
    }
  }

  lemma LineOfNonEmpty(a: Config, b: Config, k: string)
    ensures |LineOf(a, b, k)| >= 2
  {
  }

  /** The diff lines are the differing keys, each with its two stored values, in the same order. */
  lemma DiffLinesOfDiffering(a: Config, b: Config, ks: seq<string>)
    ensures |DiffLines(a, b, ks)| == |Differing(a, b, ks)|
    ensures forall i :: 0 <= i < |DiffLines(a, b, ks)| ==>
      var k := Differing(a, b, ks)[i];
      DiffLines(a, b, ks)[i] == DiffLine(k, Get(a, k).0, Get(b, k).0)
  {
    LinesOfFilter(ks, k => Differs(a, b, k), a, b);
  }

  /** A key is among the differing ones exactly when it is listed and differs. */
  lemma DifferingMembers(a: Config, b: Config, ks: seq<string>, k: string)
    ensures k in Differing(a, b, ks) <==> k in ks && Differs(a, b, k)
  {
    FilterMembers(ks, k => Differs(a, b, k), k);
  }

  /** Joining lines none of which is empty gives the empty text only for no lines. */
  lemma JoinEmpty(ls: seq<string>, sep: string)
    requires NoEmptyLine(ls)
    ensures Join(ls, sep) == "" <==> ls == []
  {
    if |ls| >= 1 {
      assert |Join(ls, sep)| >= |ls[0]|;
    }
  }

  /**
   * The diff is empty exactly when every key has the same value in both
   * configurations once trimmed.
   */
  lemma DiffEmptyIff(a: Config, b: Config)
    ensures Join(DiffLines(a, b, Keys()), "\n") == "" <==> forall k :: k in Keys() ==> !Differs(a, b, k)
  {
    LinesNonEmpty(Keys(), k => Differs(a, b, k), a, b);
    JoinEmpty(DiffLines(a, b, Keys()), "\n");
    DiffLinesOfDiffering(a, b, Keys());
    if exists k :: k in Keys() && Differs(a, b, k) {
      var k :| k in Keys() && Differs(a, b, k);
      DifferingMembers(a, b, Keys(), k);
    } else if Differing(a, b, Keys()) != [] {
      var k := Differing(a, b, Keys())[0];
      DifferingMembers(a, b, Keys(), k);
    }
  }

  /** The differing keys of the diff come in strictly increasing order, so each at most once. */
  lemma DiffKeysSorted(a: Config, b: Config)
    ensures StrictlySorted(Differing(a, b, Keys()))
  {
    KeysSorted();
    FilterSorted(Keys(), k => Differs(a, b, k));
  }

  // ---------------------------------------------------------------------------
  // confirm

  const AnswerY: string := "y"
  const AnswerYes: string := "yes"

  /** The answer `confirm` accepts as yes. */
  predicate IsYes(s: string) {
    var v := ToLower(TrimSpace(s));
    v == AnswerY || v == AnswerYes
  }

  /** What `ReadString('\n')` gives: the text read, and whether it stopped on an error other than end of input. */
  datatype Input = Input(text: string, failed: bool)

  datatype PromptError = InputFailed

  /** `confirm`, after the prompt is shown: an input error fails, anything else answers. */
  function Confirm(input: Input): (r: Result<bool, PromptError>) {
    if input.failed then Err(InputFailed) else Ok(IsYes(input.text))
  }

  /**
   * Yes exactly when the trimmed answer is `y` or `yes` in any mix of case;
   * everything else, a blank answer included, is no.
   */
  lemma YesForms(s: string)
    ensures IsYes(s) <==>
      var t := TrimSpace(s);
      (|t| == 1 && LowerChar(t[0]) == 'y') ||
      (|t| == 3 && LowerChar(t[0]) == 'y' && LowerChar(t[1]) == 'e' && LowerChar(t[2]) == 's')
  {
    var t := TrimSpace(s);
    var v := ToLower(t);
    if |t| == 1 && LowerChar(t[0]) == 'y' {
      assert v == AnswerY;
    }
    if |t| == 3 && LowerChar(t[0]) == 'y' && LowerChar(t[1]) == 'e' && LowerChar(t[2]) == 's' {
      assert v == AnswerYes;
    }
    if v == AnswerY {
      assert v[0] == 'y';
    }
    if v == AnswerYes {
      assert v[0] == 'y' && v[1] == 'e' && v[2] == 's';
    }
  }

  /** Surrounding white space and letter case do not change the answer. */
  lemma YesCaseBlind(s: string)
    ensures IsYes(s) <==> IsYes(ToLower(TrimSpace(s)))
  {
    var t := TrimSpace(s);
    var v := ToLower(t);
    assert TrimSpace(v) == v by {
      LowerOfTrimmed(t);
      TrimSpaceOfTrimmed(v);
    }
    assert ToLower(v) == v by {
      ToLowerIdempotent(t);
    }
  }

  lemma LowerOfTrimmed(t: string)
    requires t == [] || (!IsSpace(t[0]) && !IsSpace(t[|t| - 1]))
    ensures var v := ToLower(t); v == [] || (!IsSpace(v[0]) && !IsSpace(v[|v| - 1]))
  {
  }
}
