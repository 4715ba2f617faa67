/**
 * The platform buttons of the planner form: a click selects a platform that
 * is not selected and deselects one that is, except that the last selected
 * platform stays selected.
 */
module ChannelToggle {
  import opened Knowledge

  /** `filter((item) => item !== key)`: the list without `key`, in its order. */
  function Without(s: seq<PlatformKey>, key: PlatformKey): (r: seq<PlatformKey>)
    ensures forall x :: x in r <==> x in s && x != key
    ensures |r| <= |s|
    ensures key !in s ==> r == s
  {
    if s == [] then []
    else if s[0] == key then Without(s[1..], key)
    else [s[0]] + Without(s[1..], key)
  }

  /** Removing an element that occurs once, at `i`, closes the gap it leaves. */
  lemma {:induction false} WithoutRemovesOne(s: seq<PlatformKey>, key: PlatformKey, i: nat)
    requires NoDuplicates(s)
    requires i < |s| && s[i] == key
    ensures Without(s, key) == s[..i] + s[i + 1..]
    ensures |Without(s, key)| == |s| - 1
    decreases i
  {
    var tail := s[1..];
    assert NoDuplicates(tail) by {
      forall a, b | 0 <= a < b < |tail| ensures tail[a] != tail[b] {
        assert s[a + 1] != s[b + 1];
      }
    }
    if i == 0 {
      assert key !in tail by {
        forall b | 0 <= b < |tail| ensures tail[b] != key {
          assert s[0] != s[b + 1];
        }
      }
    } else {
      assert s[0] != key by { assert s[0] != s[i]; }
      WithoutRemovesOne(tail, key, i - 1);
      assert s[..i] == [s[0]] + tail[..i - 1];
      assert s[i + 1..] == tail[i..];
    }
  }

  /** Removing an element keeps a list free of repeats. */
  lemma {:induction false} WithoutNoDuplicates(s: seq<PlatformKey>, key: PlatformKey)
    requires NoDuplicates(s)
    ensures NoDuplicates(Without(s, key))
    decreases |s|
  {
    if s != [] {
      var tail := s[1..];
      assert NoDuplicates(tail) by {
        forall a, b | 0 <= a < b < |tail| ensures tail[a] != tail[b] {
          assert s[a + 1] != s[b + 1];
        }
      }
      WithoutNoDuplicates(tail, key);
      if s[0] != key {
        var rest := Without(tail, key);
        assert s[0] !in tail by {
          forall b | 0 <= b < |tail| ensures tail[b] != s[0] {
            assert s[b + 1] != s[0];
          }
        }
        var r := [s[0]] + rest;
        forall a, b | 0 <= a < b < |r| ensures r[a] != r[b] {
          if a == 0 {
            assert r[b] == rest[b - 1] && rest[b - 1] in rest;
          } else {
            assert r[a] == rest[a - 1] && r[b] == rest[b - 1];
          }
        }
      }
    }
  }

  /** Appending an element that is absent keeps a list free of repeats. */
  lemma AppendFresh(s: seq<PlatformKey>, key: PlatformKey)
    requires NoDuplicates(s) && key !in s
    ensures NoDuplicates(s + [key])
  {
    var r := s + [key];
    forall a, b | 0 <= a < b < |r| ensures r[a] != r[b] {
      if b == |s| {
        assert r[a] == s[a] && s[a] in s;
      } else {
        assert r[a] == s[a] && r[b] == s[b];
      }
    }
  }

  /**
   * The click handler of a platform button: the sole selected platform stays;
   * a selected platform is removed; any other platform is added at the end.
   * Every other input is left as it was.
   */
  function TogglePlatform(inputs: CampaignInputs, key: PlatformKey): (next: CampaignInputs)
    ensures next == inputs.(selectedPlatforms := next.selectedPlatforms)
    ensures inputs.selectedPlatforms == [key] ==> next == inputs
    ensures key in inputs.selectedPlatforms && |inputs.selectedPlatforms| != 1 ==>
              key !in next.selectedPlatforms &&
              forall other :: other != key ==> (other in next.selectedPlatforms <==> other in inputs.selectedPlatforms)
    ensures key !in inputs.selectedPlatforms ==> next.selectedPlatforms == inputs.selectedPlatforms + [key]
  {
    var selected := inputs.selectedPlatforms;
    if key in selected && |selected| == 1 then inputs
    else if key in selected then inputs.(selectedPlatforms := Without(selected, key))
    else inputs.(selectedPlatforms := selected + [key])
  }

  /**
   * Whatever is clicked, the form keeps at least one platform selected, each
   * once; inputs within the form's ranges stay within them.
   */
  lemma ToggleKeepsValid(inputs: CampaignInputs, key: PlatformKey)
    requires ValidSelection(inputs.selectedPlatforms)
    ensures ValidSelection(TogglePlatform(inputs, key).selectedPlatforms)
    ensures ValidInputs(inputs) ==> ValidInputs(TogglePlatform(inputs, key))
  {
    var selected := inputs.selectedPlatforms;
    if key in selected && |selected| != 1 {
      var i :| 0 <= i < |selected| && selected[i] == key;
      WithoutRemovesOne(selected, key, i);
      WithoutNoDuplicates(selected, key);
    } else if key !in selected {
      AppendFresh(selected, key);
    }
  }

  /** Deselecting a platform keeps the others in the order they were chosen. */
  lemma DeselectKeepsOrder(inputs: CampaignInputs, key: PlatformKey, i: nat)
    requires NoDuplicates(inputs.selectedPlatforms)
    requires i < |inputs.selectedPlatforms| && inputs.selectedPlatforms[i] == key
    requires |inputs.selectedPlatforms| > 1
    ensures TogglePlatform(inputs, key).selectedPlatforms ==
            inputs.selectedPlatforms[..i] + inputs.selectedPlatforms[i + 1..]
  {
    WithoutRemovesOne(inputs.selectedPlatforms, key, i);
  }

  /** Filtering distributes over concatenation. */
  lemma {:induction false} WithoutAppend(s: seq<PlatformKey>, t: seq<PlatformKey>, key: PlatformKey)
    ensures Without(s + t, key) == Without(s, key) + Without(t, key)
    decreases |s|
  {
    if s != [] {
      assert (s + t)[0] == s[0];
      assert (s + t)[1..] == s[1..] + t;
      WithoutAppend(s[1..], t, key);
    } else {
      assert s + t == t;
    }
  }

  /**
   * Two clicks on a platform that is not selected give back the form as it
   * was, as long as another platform is selected.
   */
  lemma ToggleTwice(inputs: CampaignInputs, key: PlatformKey)
    requires key !in inputs.selectedPlatforms
    requires |inputs.selectedPlatforms| > 0
    ensures TogglePlatform(TogglePlatform(inputs, key), key) == inputs
  {
    var selected := inputs.selectedPlatforms;
    WithoutAppend(selected, [key], key);
    assert Without([key], key) == [];
  }

  /** With nothing selected, the first click selects and the second cannot undo it. */
  lemma ToggleTwiceFromNone(inputs: CampaignInputs, key: PlatformKey)
    requires inputs.selectedPlatforms == []
    ensures TogglePlatform(inputs, key).selectedPlatforms == [key]
    ensures TogglePlatform(TogglePlatform(inputs, key), key) == TogglePlatform(inputs, key)
  {
  }
}
