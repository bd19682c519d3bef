/**
 * The multi-select control: a list of labelled options, the selected values
 * in the order they were picked, the toggle a click performs, and the labels
 * shown on the trigger.
 */
module MultiSelect {
  import opened Wrappers

  datatype Choice = Choice(text: string, value: string)

  /** Removes every occurrence of `value`, keeping the others in order. */
  function Without(selected: seq<string>, value: string): (r: seq<string>)
    ensures forall x :: x in r <==> x in selected && x != value
    ensures |r| <= |selected|
    decreases |selected|
  {
    if |selected| == 0 then []
    else (if selected[0] == value then [] else [selected[0]]) + Without(selected[1..], value)
  }

  /** `handleSelect(value)`: a selected value is removed, any other is appended. */
  function HandleSelect(selected: seq<string>, value: string): seq<string>
  {
    if value in selected then Without(selected, value) else selected + [value]
  }

  /** A click flips the clicked value's membership and leaves every other value's alone. */
  lemma HandleSelectToggles(selected: seq<string>, value: string)
    ensures value in HandleSelect(selected, value) <==> value !in selected
    ensures forall x :: x != value ==> (x in HandleSelect(selected, value) <==> x in selected)
    ensures value !in selected ==> HandleSelect(selected, value) == selected + [value]
  {
  }

  predicate NoDuplicates(s: seq<string>)
  {
    forall i, j :: 0 <= i < j < |s| ==> s[i] != s[j]
  }

  lemma {:induction false} WithoutKeepsDistinct(selected: seq<string>, value: string)
    requires NoDuplicates(selected)
    ensures NoDuplicates(Without(selected, value))
    decreases |selected|
  {
    if |selected| > 0 {
      WithoutKeepsDistinct(selected[1..], value);
      var rest := Without(selected[1..], value);
      assert selected[0] !in selected[1..] by {
        forall k | 0 <= k < |selected[1..]| ensures selected[1..][k] != selected[0] {
          assert selected[1..][k] == selected[k + 1];
        }
      }
    }
  }

  /** Clicks never select a value twice. */
  lemma HandleSelectKeepsDistinct(selected: seq<string>, value: string)
    requires NoDuplicates(selected)
    ensures NoDuplicates(HandleSelect(selected, value))
  {
    if value in selected {
      WithoutKeepsDistinct(selected, value);
    }
  }

  lemma {:induction false} WithoutAbsent(selected: seq<string>, value: string)
    requires value !in selected
    ensures Without(selected, value) == selected
    decreases |selected|
  {
    if |selected| > 0 {
      WithoutAbsent(selected[1..], value);
    }
  }

  lemma {:induction false} WithoutAppended(selected: seq<string>, value: string)
    requires value !in selected
    ensures Without(selected + [value], value) == selected
    decreases |selected|
  {
    if |selected| == 0 {
      assert selected + [value] == [value];
    } else {
      assert (selected + [value])[1..] == selected[1..] + [value];
      WithoutAppended(selected[1..], value);
    }
  }

  /** Clicking an unselected value twice restores the selection exactly. */
  lemma HandleSelectTwice(selected: seq<string>, value: string)
    requires value !in selected
    ensures HandleSelect(HandleSelect(selected, value), value) == selected
  {
    WithoutAppended(selected, value);
  }

  /** Clicking a selected value twice restores the same set of values, the value moving to the end. */
  lemma HandleSelectTwiceSelected(selected: seq<string>, value: string)
    requires value in selected
    ensures HandleSelect(HandleSelect(selected, value), value) == Without(selected, value) + [value]
    ensures forall x :: x in HandleSelect(HandleSelect(selected, value), value) <==> x in selected
  {
  }

  /** The label of the first option with that value, if any: `options.find(o => o.value === value)?.label`. */
  function LabelOf(options: seq<Choice>, value: string): (shown: Option<string>)
    ensures shown.Some? ==>
      exists k :: 0 <= k < |options| && options[k].value == value &&
          options[k].text == shown.value && forall j :: 0 <= j < k ==> options[j].value != value
    ensures shown.None? <==> forall k :: 0 <= k < |options| ==> options[k].value != value
    decreases |options|
  {
    if |options| == 0 then None
    else if options[0].value == value then Some(options[0].text)
    else
      var shown := LabelOf(options[1..], value);
      assert shown.Some? ==>
        exists k :: 0 <= k < |options| && options[k].value == value &&
            options[k].text == shown.value && forall j :: 0 <= j < k ==> options[j].value != value
      by {
        if shown.Some? {
          var k :| 0 <= k < |options[1..]| && options[1..][k].value == value &&
            options[1..][k].text == shown.value && forall j :: 0 <= j < k ==> options[1..][j].value != value;
          assert options[k + 1] == options[1..][k];
          forall j | 0 <= j < k + 1 ensures options[j].value != value {
            if j > 0 {
              assert options[j] == options[1..][j - 1];
            }
          }
        }
      }
      assert shown.None? ==> forall k :: 0 <= k < |options| ==> options[k].value != value by {
        if shown.None? {
          forall k | 0 < k < |options| ensures options[k].value != value {
            assert options[k] == options[1..][k - 1];
          }
        }
      }
      shown
  }

  /**
   * `selectedLabels`: the label of each selected value, skipping unknown values
   * and empty labels; every badge is the label of one of the selected values.
   */
  function SelectedLabels(options: seq<Choice>, selected: seq<string>): (shownLabels: seq<string>)
    ensures |shownLabels| <= |selected|
    ensures forall l :: l in shownLabels ==>
      l != "" && exists i :: 0 <= i < |selected| && LabelOf(options, selected[i]) == Some(l)
    decreases |selected|
  {
    if |selected| == 0 then []
    else
      var shown := LabelOf(options, selected[0]);
      var rest := SelectedLabels(options, selected[1..]);
      assert forall l :: l in rest ==> exists i :: 0 <= i < |selected| && LabelOf(options, selected[i]) == Some(l) by {
        forall l | l in rest ensures exists i :: 0 <= i < |selected| && LabelOf(options, selected[i]) == Some(l) {
          var i :| 0 <= i < |selected[1..]| && LabelOf(options, selected[1..][i]) == Some(l);
          assert selected[i + 1] == selected[1..][i];
        }
      }
      (if shown.Some? && shown.value != "" then [shown.value] else []) + rest
  }

  /** The badge a newly picked value adds, if any. */
  function BadgeOf(options: seq<Choice>, value: string): (badge: seq<string>)
    ensures |badge| <= 1
  {
    var shown := LabelOf(options, value);
    if shown.Some? && shown.value != "" then [shown.value] else []
  }

  /**
   * The badges follow the selection order: picking one more value appends its
   * badge, when it has one, after those of the values picked before.
   */
  lemma {:induction false} SelectedLabelsSnoc(options: seq<Choice>, selected: seq<string>, value: string)
    ensures SelectedLabels(options, selected + [value]) == SelectedLabels(options, selected) + BadgeOf(options, value)
    decreases |selected|
  {
    if |selected| == 0 {
      assert ([] + [value])[1..] == [];
    } else {
      assert (selected + [value])[0] == selected[0];
      assert (selected + [value])[1..] == selected[1..] + [value];
      SelectedLabelsSnoc(options, selected[1..], value);
    }
  }

  /** Every selected value naming an option with a non-empty label shows that label. */
  lemma {:induction false} KnownSelectionShown(options: seq<Choice>, selected: seq<string>, i: nat)
    requires i < |selected| && LabelOf(options, selected[i]).Some? && LabelOf(options, selected[i]).value != ""
    ensures LabelOf(options, selected[i]).value in SelectedLabels(options, selected)
    decreases |selected|
  {
    if i > 0 {
      KnownSelectionShown(options, selected[1..], i - 1);
    }
  }

  /** An option's box is checked exactly when its value is selected. */
  predicate Checked(selected: seq<string>, option: Choice)
  {
    option.value in selected
  }

  /** The placeholder shows exactly when nothing is selected. */
  predicate ShowsPlaceholder(selected: seq<string>)
  {
    |selected| == 0
  }

  /** Clicking an option flips its own box and no other option's value membership. */
  lemma ClickFlipsBox(selected: seq<string>, option: Choice)
    ensures Checked(HandleSelect(selected, option.value), option) <==> !Checked(selected, option)
    ensures ShowsPlaceholder(HandleSelect(selected, option.value)) <==>
      (forall x :: x in selected ==> x == option.value) && option.value in selected
  {
    HandleSelectToggles(selected, option.value);
    var r := HandleSelect(selected, option.value);
    if (forall x :: x in selected ==> x == option.value) && option.value in selected {
      if |r| > 0 {
        assert r[0] in r;
      }
    }
  }
}
