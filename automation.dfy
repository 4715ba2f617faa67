/**
 * The automation stack of a plan: five stock workflow entries followed by
 * every automation of every selected platform, prefixed with the platform's
 * label, with repeats dropped the way an insertion-ordered set drops them.
 */
module Automation {
  import opened Knowledge
  import opened Text

  /** The five stock entries; the last one names the brand. */
  function BaseTools(brand: string): (base: seq<string>)
    ensures |base| == 5
    ensures forall i :: 0 <= i < 5 ==> |base[i]| > 0 && base[i][0] in {'N', 'F', 'A', 'Z', 'G'}
    ensures NoDuplicates(base)
    ensures EndsWith(base[4], brand)
  {
    var base := [
      "Notion HQ board to…",
      "Figma template kit for…",
      "Airtable sprint tracker…",
      "Zapier workflow piping…",
      "Gong or Fathom clips… for " + brand];
    assert base[0][0] == 'N' && base[1][0] == 'F' && base[2][0] == 'A' && base[3][0] == 'Z';
    assert base[4][0] == 'G';
    assert base[4][|base[4]| - |brand|..] == brand;
    base
  }

  /** `${label}: ${tool}`, for a platform shown as `name`. */
  function Qualify(name: string, tool: string): (entry: string)
    ensures name <= entry
    ensures |entry| == |name| + 2 + |tool|
    ensures entry[|name|] == ':'
    ensures entry[|name|..] == ": " + tool
  {
    name + ": " + tool
  }

  /** Every automation of one platform, qualified with the platform's label. */
  function Qualified(name: string, tools: seq<string>): (entries: seq<string>)
    ensures |entries| == |tools|
    ensures forall i :: 0 <= i < |tools| ==> entries[i] == Qualify(name, tools[i])
  {
    seq(|tools|, i requires 0 <= i < |tools| => Qualify(name, tools[i]))
  }

  /** The qualified automations of all platforms, platform by platform, in order. */
  function PlatformTools(platforms: seq<PlatformBlueprint>): seq<string>
    decreases |platforms|
  {
    if platforms == [] then []
    else
      var last := platforms[|platforms| - 1];
      PlatformTools(platforms[..|platforms| - 1]) + Qualified(last.displayName, last.automation)
  }

  /**
   * `Array.from(set)` after adding `xs` one by one to an empty insertion-ordered
   * set: the first occurrence of each value, in order of first occurrence.
   */
  function Dedup<T(==)>(xs: seq<T>): seq<T>
    decreases |xs|
  {
    if xs == [] then []
    else
      var init := Dedup(xs[..|xs| - 1]);
      if xs[|xs| - 1] in init then init else init + [xs[|xs| - 1]]
  }

  /** Adding one more value: kept at the end when new, dropped when already present. */
  lemma DedupSnoc<T>(xs: seq<T>, x: T)
    ensures Dedup(xs + [x]) == if x in Dedup(xs) then Dedup(xs) else Dedup(xs) + [x]
  {
    assert (xs + [x])[..|xs + [x]| - 1] == xs;
  }

  /** No value occurs twice in the result, and it holds exactly the values of the input. */
  lemma {:induction false} DedupLaws<T>(xs: seq<T>)
    ensures NoDuplicates(Dedup(xs))
    ensures forall x :: x in Dedup(xs) <==> x in xs
    decreases |xs|
  {
    if xs != [] {
      var init := xs[..|xs| - 1];
      DedupLaws(init);
      DedupSnoc(init, xs[|xs| - 1]);
      assert xs == init + [xs[|xs| - 1]];
    }
  }

  /** A list without repeats comes through unchanged. */
  lemma {:induction false} DedupOfDistinct<T>(xs: seq<T>)
    requires NoDuplicates(xs)
    ensures Dedup(xs) == xs
    decreases |xs|
  {
    if xs != [] {
      var init := xs[..|xs| - 1];
      DedupOfDistinct(init);
      assert xs[|xs| - 1] !in init by {
        forall i | 0 <= i < |init| ensures init[i] != xs[|xs| - 1] {
          assert init[i] == xs[i];
        }
      }
      DedupSnoc(init, xs[|xs| - 1]);
      assert xs == init + [xs[|xs| - 1]];
    }
  }

  /** Adding one value never reorders or removes what is already in the set. */
  lemma DedupGrows<T>(xs: seq<T>, x: T)
    ensures Dedup(xs) <= Dedup(xs + [x])
  {
    DedupSnoc(xs, x);
  }

  /** Being a prefix is transitive. */
  lemma PrefixTransitive<T>(a: seq<T>, b: seq<T>, c: seq<T>)
    requires a <= b && b <= c
    ensures a <= c
  {
    assert c[..|a|] == b[..|a|];
  }

  /** Concatenation is associative at the last element. */
  lemma AppendSnoc<T>(xs: seq<T>, init: seq<T>, last: T)
    ensures xs + (init + [last]) == (xs + init) + [last]
  {
  }

  /** Adding more values never reorders or removes what is already in the set. */
  lemma {:induction false} DedupPrefix<T>(xs: seq<T>, ys: seq<T>)
    ensures Dedup(xs) <= Dedup(xs + ys)
    decreases |ys|
  {
    if ys == [] {
      assert xs + ys == xs;
    } else {
      var init, last := ys[..|ys| - 1], ys[|ys| - 1];
      DedupPrefix(xs, init);
      DedupGrows(xs + init, last);
      AppendSnoc(xs, init, last);
      assert ys == init + [last];
      PrefixTransitive(Dedup(xs), Dedup(xs + init), Dedup(xs + ys));
    }
  }

  /** buildAutomationStack, as a value: the stock entries then the platform entries, without repeats. */
  function AutomationStack(platforms: seq<PlatformBlueprint>, brand: string): seq<string>
  {
    Dedup(BaseTools(brand) + PlatformTools(platforms))
  }

  /**
   * Adding `base` (itself without repeats) and then `more` to an empty set:
   * no repeats, `base` first, and every value of `more` somewhere after.
   */
  lemma SetAfterBase<T>(base: seq<T>, more: seq<T>)
    requires NoDuplicates(base)
    ensures NoDuplicates(Dedup(base + more))
    ensures |Dedup(base + more)| >= |base| && Dedup(base + more)[..|base|] == base
    ensures forall x :: x in more ==> x in Dedup(base + more)
  {
    DedupLaws(base + more);
    DedupOfDistinct(base);
    DedupPrefix(base, more);
  }

  /**
   * The stack has no repeats, starts with the five stock entries, and holds
   * every qualified automation of every platform.
   */
  lemma AutomationStackLaws(platforms: seq<PlatformBlueprint>, brand: string)
    ensures NoDuplicates(AutomationStack(platforms, brand))
    ensures |AutomationStack(platforms, brand)| >= 5
    ensures AutomationStack(platforms, brand)[..5] == BaseTools(brand)
    ensures forall entry :: entry in PlatformTools(platforms) ==> entry in AutomationStack(platforms, brand)
    ensures forall p, tool :: p in platforms && tool in p.automation ==>
              Qualify(p.displayName, tool) in AutomationStack(platforms, brand)
  {
    SetAfterBase(BaseTools(brand), PlatformTools(platforms));
    PlatformToolsComplete(platforms);
  }

  /** Every automation of every platform is among the platform entries, under the platform's label. */
  lemma {:induction false} PlatformToolsComplete(platforms: seq<PlatformBlueprint>)
    ensures forall p, tool :: p in platforms && tool in p.automation ==>
              Qualify(p.displayName, tool) in PlatformTools(platforms)
    decreases |platforms|
  {
    if platforms != [] {
      var init := platforms[..|platforms| - 1];
      var last := platforms[|platforms| - 1];
      assert platforms == init + [last];
      PlatformToolsComplete(init);
      forall p, tool | p in platforms && tool in p.automation
        ensures Qualify(p.displayName, tool) in PlatformTools(platforms)
      {
        if p !in init {
          var k :| 0 <= k < |last.automation| && last.automation[k] == tool;
          assert Qualified(last.displayName, last.automation)[k] == Qualify(p.displayName, tool);
        }
      }
    }
  }

  /** The entries of the first `p + 1` platforms: those of the first `p`, then those of platform `p`. */
  lemma PlatformToolsSnoc(base: seq<string>, platforms: seq<PlatformBlueprint>, p: nat)
    requires p < |platforms|
    ensures base + PlatformTools(platforms[..p + 1]) ==
            (base + PlatformTools(platforms[..p])) + Qualified(platforms[p].displayName, platforms[p].automation)
  {
    assert platforms[..p + 1][..p] == platforms[..p];
  }

  /**
   * Adds `entries`, one at a time, to the insertion-ordered set `stack` that
   * holds what adding `added` left.
   */
  method AddAll(stack: seq<string>, ghost added: seq<string>, entries: seq<string>) returns (result: seq<string>)
    requires stack == Dedup(added)
    ensures result == Dedup(added + entries)
  {
    result := stack;
    assert added + entries[..0] == added;
    for t := 0 to |entries|
      invariant result == Dedup(added + entries[..t])
    {
      DedupSnoc(added + entries[..t], entries[t]);
      assert added + entries[..t + 1] == (added + entries[..t]) + [entries[t]];
      if entries[t] !in result {
        result := result + [entries[t]];
      }
    }
    assert entries[..|entries|] == entries;
  }

  /**
   * buildAutomationStack: adds the stock entries, then each platform's
   * qualified automations, to an insertion-ordered set.
   */
  method BuildAutomationStack(platforms: seq<PlatformBlueprint>, brand: string) returns (stack: seq<string>)
    ensures stack == AutomationStack(platforms, brand)
    ensures NoDuplicates(stack)
  {
    var base := BaseTools(brand);
    stack := AddAll([], [], base);
    assert [] + base == base;
    assert platforms[..0] == [];
    assert base == base + PlatformTools(platforms[..0]);
    for p := 0 to |platforms|
      invariant stack == Dedup(base + PlatformTools(platforms[..p]))
    {
      var platform := platforms[p];
      ghost var added := base + PlatformTools(platforms[..p]);
      stack := AddAll(stack, added, Qualified(platform.displayName, platform.automation));
      PlatformToolsSnoc(base, platforms, p);
    }
    assert platforms[..|platforms|] == platforms;
    AutomationStackLaws(platforms, brand);
  }

  // ------------------------------------------------- stacks of library platforms

  /** The labels of the platforms, in order. */
  function Labels(platforms: seq<PlatformBlueprint>): (labels: seq<string>)
    ensures |labels| == |platforms|
    ensures forall i :: 0 <= i < |platforms| ==> labels[i] == platforms[i].displayName
  {
    seq(|platforms|, i requires 0 <= i < |platforms| => platforms[i].displayName)
  }

  /** A platform whose label has no colon and whose automations are distinct and three. */
  ghost predicate WellLabelled(platform: PlatformBlueprint)
  {
    && |platform.displayName| > 0
    && platform.displayName[0] in {'I', 'T', 'L', 'X', 'Y'}
    && ':' !in platform.displayName
    && NoDuplicates(platform.automation)
    && |platform.automation| == 3
  }

  /** `entry` reads `name:` followed by something. */
  ghost predicate LabelledBy(entry: string, name: string)
  {
    |name| < |entry| && entry[..|name|] == name && entry[|name|] == ':'
  }

  /** An entry is labelled by at most one colon-free name. */
  lemma LabelUnique(entry: string, name1: string, name2: string)
    requires ':' !in name1 && ':' !in name2
    requires LabelledBy(entry, name1) && LabelledBy(entry, name2)
    ensures name1 == name2
  {
  }

  /** One platform's entries are distinct when its tools are, and each is labelled by the platform. */
  lemma QualifiedLaws(name: string, tools: seq<string>)
    requires NoDuplicates(tools)
    ensures NoDuplicates(Qualified(name, tools))
    ensures forall entry :: entry in Qualified(name, tools) ==> LabelledBy(entry, name)
  {
    var entries := Qualified(name, tools);
    forall i, j | 0 <= i < j < |entries| ensures entries[i] != entries[j] {
      assert entries[i][|name| + 2..] == tools[i];
      assert entries[j][|name| + 2..] == tools[j];
    }
  }

  lemma NoDuplicatesAppend<T>(a: seq<T>, b: seq<T>)
    requires NoDuplicates(a) && NoDuplicates(b)
    requires forall x :: x in a ==> x !in b
    ensures NoDuplicates(a + b)
  {
    forall i, j | 0 <= i < j < |a + b| ensures (a + b)[i] != (a + b)[j] {
      if j >= |a| && i < |a| {
        assert (a + b)[i] in a;
        assert (a + b)[j] == b[j - |a|];
      }
    }
  }

  /** Three entries per platform. */
  lemma {:induction false} PlatformToolsLength(platforms: seq<PlatformBlueprint>)
    requires forall p :: p in platforms ==> |p.automation| == 3
    ensures |PlatformTools(platforms)| == 3 * |platforms|
    decreases |platforms|
  {
    if platforms != [] {
      PlatformToolsLength(platforms[..|platforms| - 1]);
    }
  }

  /** Every platform entry is labelled by one of the platforms. */
  lemma {:induction false} PlatformToolsLabelled(platforms: seq<PlatformBlueprint>)
    ensures forall entry :: entry in PlatformTools(platforms) ==>
              exists i :: 0 <= i < |platforms| && LabelledBy(entry, platforms[i].displayName)
    decreases |platforms|
  {
    if platforms != [] {
      var init := platforms[..|platforms| - 1];
      var last := platforms[|platforms| - 1];
      PlatformToolsLabelled(init);
      forall entry | entry in PlatformTools(platforms)
        ensures exists i :: 0 <= i < |platforms| && LabelledBy(entry, platforms[i].displayName)
      {
        if entry in PlatformTools(init) {
          var i :| 0 <= i < |init| && LabelledBy(entry, init[i].displayName);
          assert platforms[i] == init[i];
        } else {
          var k :| 0 <= k < |last.automation| && Qualified(last.displayName, last.automation)[k] == entry;
          assert LabelledBy(entry, platforms[|platforms| - 1].displayName);
        }
      }
    }
  }

  /** For well-labelled platforms under distinct labels, the platform entries are all distinct. */
  lemma {:induction false} PlatformToolsDistinct(platforms: seq<PlatformBlueprint>)
    requires forall p :: p in platforms ==> WellLabelled(p)
    requires NoDuplicates(Labels(platforms))
    ensures NoDuplicates(PlatformTools(platforms))
    decreases |platforms|
  {
    if platforms != [] {
      var init := platforms[..|platforms| - 1];
      var last := platforms[|platforms| - 1];
      assert NoDuplicates(Labels(init)) by {
        forall i, j | 0 <= i < j < |init| ensures Labels(init)[i] != Labels(init)[j] {
          assert Labels(platforms)[i] != Labels(platforms)[j];
        }
      }
      PlatformToolsDistinct(init);
      PlatformToolsLabelled(init);
      assert last in platforms;
      QualifiedLaws(last.displayName, last.automation);
      forall x | x in PlatformTools(init) ensures x !in Qualified(last.displayName, last.automation) {
        var i :| 0 <= i < |init| && LabelledBy(x, init[i].displayName);
        assert init[i] in platforms;
        if x in Qualified(last.displayName, last.automation) {
          LabelUnique(x, init[i].displayName, last.displayName);
          assert false;
        }
      }
      NoDuplicatesAppend(PlatformTools(init), Qualified(last.displayName, last.automation));
    }
  }

  /** No platform entry starts like a stock entry: their first letters differ. */
  lemma PlatformToolsAfterBase(platforms: seq<PlatformBlueprint>, brand: string)
    requires forall p :: p in platforms ==> WellLabelled(p)
    ensures forall x :: x in BaseTools(brand) ==> x !in PlatformTools(platforms)
  {
    PlatformToolsLabelled(platforms);
    forall x | x in PlatformTools(platforms) ensures x[0] in {'I', 'T', 'L', 'X', 'Y'} {
      var i :| 0 <= i < |platforms| && LabelledBy(x, platforms[i].displayName);
      assert platforms[i] in platforms;
      assert x[0] == x[..|platforms[i].displayName|][0];
    }
  }

  /**
   * For platforms under distinct colon-free labels, each with three distinct
   * automations, nothing is dropped: the stack is the five stock entries then
   * three entries per platform.
   */
  lemma LibraryStackIsComplete(platforms: seq<PlatformBlueprint>, brand: string)
    requires forall p :: p in platforms ==> WellLabelled(p)
    requires NoDuplicates(Labels(platforms))
    ensures AutomationStack(platforms, brand) == BaseTools(brand) + PlatformTools(platforms)
    ensures |AutomationStack(platforms, brand)| == 5 + 3 * |platforms|
  {
    PlatformToolsDistinct(platforms);
    PlatformToolsLength(platforms);
    PlatformToolsAfterBase(platforms, brand);
    NoDuplicatesAppend(BaseTools(brand), PlatformTools(platforms));
    DedupOfDistinct(BaseTools(brand) + PlatformTools(platforms));
  }
}
