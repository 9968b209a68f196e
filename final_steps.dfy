/**
 * The last three steps of the demo: app selection (a checkbox list whose
 * toggle builds a new selection) and the two steps that complete
 * unconditionally.
 */
module FinalSteps {

  /** The three step components defined alongside each other. */
  datatype FinalStep = SelectApps | CreateCustomApp | RevenuePotential

  /** `list.filter(id => id !== x)` */
  function Without(list: seq<string>, x: string): (r: seq<string>)
    ensures x !in r
    ensures forall y :: y != x ==> (y in r <==> y in list)
    ensures forall y :: y != x ==> multiset(r)[y] == multiset(list)[y]
    ensures |r| == |list| - multiset(list)[x]
  {
    if list == [] then []
    else
      assert list == [list[0]] + list[1..];
      if list[0] == x then Without(list[1..], x)
      else [list[0]] + Without(list[1..], x)
  }

  /**
   * `handleAppToggle`: remove every occurrence of an id already present,
   * append an absent id at the end.
   */
  function Toggle(selected: seq<string>, appId: string): (r: seq<string>)
    ensures appId in r <==> appId !in selected
    ensures forall y :: y != appId ==> (y in r <==> y in selected)
    ensures appId !in selected ==> r == selected + [appId]
  {
    if appId in selected then Without(selected, appId) else selected + [appId]
  }

  /** `filter` keeps the order of the elements it keeps. */
  predicate Subsequence(s: seq<string>, t: seq<string>)
  {
    if s == [] then true
    else if t == [] then false
    else if s[0] == t[0] then Subsequence(s[1..], t[1..])
    else Subsequence(s, t[1..])
  }

  /** Removing an id keeps the other ids in their relative order. */
  lemma {:induction false} WithoutKeepsOrder(list: seq<string>, x: string)
    ensures Subsequence(Without(list, x), list)
  {
    if list != [] {
      WithoutKeepsOrder(list[1..], x);
      if list[0] != x {
        assert ([list[0]] + Without(list[1..], x))[1..] == Without(list[1..], x);
      } else {
        SubsequenceDropHead(Without(list[1..], x), list);
      }
    }
  }

  lemma {:induction false} SubsequenceDropHead(s: seq<string>, t: seq<string>)
    requires t != [] && Subsequence(s, t[1..])
    ensures Subsequence(s, t)
  {
    if s != [] && s[0] == t[0] {
      SubsequenceDropFirst(s, t[1..]);
    }
  }

  lemma {:induction false} SubsequenceDropFirst(s: seq<string>, t: seq<string>)
    requires s != [] && Subsequence(s, t)
    ensures Subsequence(s[1..], t)
  {
    if t != [] {
      if s[0] == t[0] {
        if s[1..] != [] {
          SubsequenceDropFirst(s[1..], t[1..]);
        }
        SubsequenceDropHead(s[1..], t);
      } else {
        SubsequenceDropFirst(s, t[1..]);
        SubsequenceDropHead(s[1..], t);
      }
    }
  }

  /** Toggling keeps every other id in its relative order. */
  lemma ToggleKeepsOrder(selected: seq<string>, appId: string)
    ensures appId in selected ==> Subsequence(Toggle(selected, appId), selected)
    ensures appId !in selected ==> Toggle(selected, appId)[..|selected|] == selected
  {
    if appId in selected {
      WithoutKeepsOrder(selected, appId);
    }
  }

  /** Removing an absent id changes nothing. */
  lemma {:induction false} WithoutAbsent(list: seq<string>, x: string)
    requires x !in list
    ensures Without(list, x) == list
  {
    if list != [] {
      WithoutAbsent(list[1..], x);
      assert list == [list[0]] + list[1..];
    }
  }

  /** Toggling an absent id twice gives back the original selection. */
  lemma ToggleTwiceAbsent(selected: seq<string>, appId: string)
    requires appId !in selected
    ensures Toggle(Toggle(selected, appId), appId) == selected
  {
    WithoutAppended(selected, appId);
  }

  lemma {:induction false} WithoutAppended(list: seq<string>, x: string)
    requires x !in list
    ensures Without(list + [x], x) == list
  {
    if list == [] {
      assert [] + [x] == [x];
    } else {
      assert (list + [x])[1..] == list[1..] + [x];
      WithoutAppended(list[1..], x);
      assert list == [list[0]] + list[1..];
    }
  }

  predicate NoDuplicates(s: seq<string>)
  {
    forall i, j :: 0 <= i < j < |s| ==> s[i] != s[j]
  }

  lemma {:induction false} WithoutNoDuplicates(list: seq<string>, x: string)
    requires NoDuplicates(list)
    ensures NoDuplicates(Without(list, x))
  {
    if list != [] {
      assert NoDuplicates(list[1..]) by {
        forall i, j | 0 <= i < j < |list[1..]| ensures list[1..][i] != list[1..][j] {
          assert list[1..][i] == list[i + 1] && list[1..][j] == list[j + 1];
        }
      }
      WithoutNoDuplicates(list[1..], x);
      if list[0] != x {
        var rest := Without(list[1..], x);
        assert list[0] !in list[1..] by {
          forall k | 0 <= k < |list[1..]| ensures list[1..][k] != list[0] {
            assert list[1..][k] == list[k + 1];
          }
        }
        assert list[0] !in rest;
        var r := [list[0]] + rest;
        forall i, j | 0 <= i < j < |r| ensures r[i] != r[j] {
          if i == 0 {
            assert r[j] == rest[j - 1];
          } else {
            assert r[i] == rest[i - 1] && r[j] == rest[j - 1];
          }
        }
      }
    }
  }

  /** A duplicate-free selection stays duplicate-free under toggling. */
  lemma ToggleNoDuplicates(selected: seq<string>, appId: string)
    requires NoDuplicates(selected)
    ensures NoDuplicates(Toggle(selected, appId))
  {
    if appId in selected {
      WithoutNoDuplicates(selected, appId);
    } else {
      var r := selected + [appId];
      forall i, j | 0 <= i < j < |r| ensures r[i] != r[j] {
        if j == |selected| {
          assert r[i] == selected[i];
        } else {
          assert r[i] == selected[i] && r[j] == selected[j];
        }
      }
    }
  }

  /**
   * Whether the step's completing button can be pressed: Continue in the
   * selection step is disabled exactly while nothing is selected; the custom
   * app and revenue steps call `onComplete` from an always enabled button.
   */
  function CompleteEnabled(step: FinalStep, selectedApps: seq<string>): (r: bool)
    ensures step == SelectApps ==> (r <==> |selectedApps| != 0)
    ensures step != SelectApps ==> r
  {
    match step
    case SelectApps => !(|selectedApps| == 0)
    case CreateCustomApp => true
    case RevenuePotential => true
  }

  /** Selecting an app that was not selected always enables Continue. */
  lemma ToggleOnEnablesContinue(selected: seq<string>, appId: string)
    requires appId !in selected
    ensures CompleteEnabled(SelectApps, Toggle(selected, appId))
  {
  }
}
