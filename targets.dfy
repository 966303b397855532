/** The compile-target list the plugin hands to the bundler: the baseline
    "es2020" (needed for native BigInt literals) followed by what the user
    asked for. */
module Targets {
  import opened Ascii

  const Baseline: string := "es2020"

  /** What the user wrote for a `target` key: nothing (or no enclosing
      options object at all), one string, an array of strings, or a value of
      any other shape. */
  datatype Target = Absent | Str(name: string) | Arr(names: seq<string>) | Other

  /** The targets the user asked for, in the order given. */
  function UserTargets(t: Target): seq<string> {
    match t
    case Str(name) => [name]
    case Arr(names) => names
    case _ => []
  }

  /** The merged target list. */
  function MergeTarget(t: Target): (r: seq<string>)
    ensures |r| >= 1 && r[0] == Baseline
    ensures forall i :: 1 <= i < |r| ==> r[i] in UserTargets(t)
  {
    match t
    case Arr(names) => [Baseline] + names
    case Str(name) => if ToLower(name) != Baseline then [Baseline, name] else [Baseline]
    case _ => [Baseline]
  }

  /** Builds the list the way the plugin does: start from the baseline and
      push the user's target(s) onto it. */
  method CollectTargets(t: Target) returns (list: seq<string>)
    ensures list == MergeTarget(t)
  {
    list := [Baseline];
    if t.Arr? {
      list := list + t.names;
    }
    if t.Str? {
      if ToLower(t.name) != Baseline {
        list := list + [t.name];
      }
    }
  }

  lemma BaselineIsLowerCase()
    ensures ToLower(Baseline) == Baseline
  {
    ToLowerOfLower(Baseline);
  }

  /** With no user target, or one of an unusable shape, the list is the baseline alone. */
  lemma MergeWithoutUsableTarget(t: Target)
    requires !t.Str? && !t.Arr?
    ensures MergeTarget(t) == [Baseline]
  {
  }

  /** A single string that is the baseline in any letter case adds nothing. */
  lemma MergeScalarBaseline(name: string)
    requires EqualsIgnoreCase(name, Baseline)
    ensures MergeTarget(Str(name)) == [Baseline]
  {
    BaselineIsLowerCase();
  }

  /** Any other single string comes after the baseline, in the user's own letter case. */
  lemma MergeScalarOther(name: string)
    requires !EqualsIgnoreCase(name, Baseline)
    ensures MergeTarget(Str(name)) == [Baseline, name]
  {
    BaselineIsLowerCase();
  }

  /** An array is appended whole and in order, even when it already holds the baseline. */
  lemma MergeArray(names: seq<string>)
    ensures MergeTarget(Arr(names)) == [Baseline] + names
    ensures |MergeTarget(Arr(names))| == 1 + |names|
  {
  }

  /** Every user target is kept, except a single string that is the baseline
      in another letter case, which the baseline entry already stands for. */
  lemma MergeKeepsUserTargets(t: Target)
    ensures forall u :: u in UserTargets(t) ==> u in MergeTarget(t) || (t.Str? && EqualsIgnoreCase(u, Baseline))
  {
    BaselineIsLowerCase();
    if t.Arr? {
      assert MergeTarget(t)[1..] == t.names;
    }
  }

  /** Number of entries of `s` equal to the baseline in some letter case. */
  function BaselineCount(s: seq<string>): nat {
    if s == [] then 0
    else (if EqualsIgnoreCase(s[0], Baseline) then 1 else 0) + BaselineCount(s[1..])
  }

  lemma {:induction false} BaselineCountAppend(a: seq<string>, b: seq<string>)
    ensures BaselineCount(a + b) == BaselineCount(a) + BaselineCount(b)
  {
    if a == [] {
      assert a + b == b;
    } else {
      assert (a + b)[1..] == a[1..] + b;
      BaselineCountAppend(a[1..], b);
    }
  }

  /** The baseline occurs exactly once for a scalar or missing target; an
      array target keeps every copy of the baseline it already holds. */
  lemma MergeBaselineCount(t: Target)
    ensures BaselineCount(MergeTarget(t)) == 1 + (if t.Arr? then BaselineCount(t.names) else 0)
  {
    BaselineIsLowerCase();
    assert EqualsIgnoreCase(Baseline, Baseline);
    assert BaselineCount([Baseline]) == 1;
    match t
    case Arr(names) =>
      BaselineCountAppend([Baseline], names);
    case Str(name) =>
      if ToLower(name) != Baseline {
        assert !EqualsIgnoreCase(name, Baseline);
        assert [Baseline, name][1..] == [name];
        assert BaselineCount([name]) == 0;
      }
    case _ =>
  }
}
