/**
 * The project form's conversions: technologies become multi-select options
 * keyed by `String(id)`, the selected ids travel as strings and come back
 * through `Number`, and the team select does the same for one id.
 */
module ProjectForm {
  import opened Wrappers
  import opened Text
  import opened Api
  import opened MultiSelect

  /** `techOptions`: one option per technology, labelled by name and keyed by its id. */
  function TechOptions(technologies: seq<Technology>): (options: seq<Choice>)
    ensures |options| == |technologies|
    ensures forall k :: 0 <= k < |technologies| ==>
      options[k] == Choice(technologies[k].name, IntToString(technologies[k].id))
  {
    seq(|technologies|, k requires 0 <= k < |technologies| => Choice(technologies[k].name, IntToString(technologies[k].id)))
  }

  /** `field.value?.map(String) || []`: the multi-select's selected values. */
  function SelectedValues(ids: Option<seq<int>>): (values: seq<string>)
    ensures ids.None? ==> values == []
    ensures ids.Some? ==> |values| == |ids.value| && forall k :: 0 <= k < |ids.value| ==> values[k] == IntToString(ids.value[k])
  {
    if ids.None? then []
    else seq(|ids.value|, k requires 0 <= k < |ids.value| => IntToString(ids.value[k]))
  }

  /** Values that `Number` reads back to the very number they render. */
  predicate Canonical(values: seq<string>)
  {
    forall v :: v in values ==> JsNumber(v).Some? && IntToString(JsNumber(v).value) == v
  }

  /** `vals.map(Number)` on canonical values. */
  function IdsOf(values: seq<string>): (ids: seq<int>)
    requires Canonical(values)
    ensures |ids| == |values|
    ensures forall k :: 0 <= k < |values| ==> Some(ids[k]) == JsNumber(values[k])
  {
    seq(|values|, k requires 0 <= k < |values| => JsNumber(values[k]).value)
  }

  lemma SelectedValuesCanonical(ids: Option<seq<int>>)
    ensures Canonical(SelectedValues(ids))
  {
    var values := SelectedValues(ids);
    forall v | v in values ensures JsNumber(v).Some? && IntToString(JsNumber(v).value) == v {
      var k :| 0 <= k < |values| && values[k] == v;
      ParseIntToString(ids.value[k]);
    }
  }

  /** The form's ids shown in the multi-select and read back are the same ids, in the same order. */
  lemma IdsRoundTrip(ids: seq<int>)
    ensures Canonical(SelectedValues(Some(ids)))
    ensures IdsOf(SelectedValues(Some(ids))) == ids
  {
    SelectedValuesCanonical(Some(ids));
    forall k | 0 <= k < |ids| ensures IdsOf(SelectedValues(Some(ids)))[k] == ids[k] {
      ParseIntToString(ids[k]);
    }
  }

  /** An id is among the ids read back exactly when its rendering is among the values. */
  lemma IdsMembership(values: seq<string>, x: int)
    requires Canonical(values)
    ensures x in IdsOf(values) <==> IntToString(x) in values
  {
    var ids := IdsOf(values);
    if x in ids {
      var k :| 0 <= k < |ids| && ids[k] == x;
      assert values[k] in values;
    }
    if IntToString(x) in values {
      var k :| 0 <= k < |values| && values[k] == IntToString(x);
      ParseIntToString(x);
      assert ids[k] == x;
    }
  }

  /** A click keeps the selected values canonical when the clicked option is. */
  lemma HandleSelectCanonical(values: seq<string>, v: string)
    requires Canonical(values) && Canonical([v])
    ensures Canonical(HandleSelect(values, v))
  {
    HandleSelectToggles(values, v);
  }

  /** An id is selected exactly when its rendering is among the selected values. */
  lemma SelectedMembership(ids: seq<int>, x: int)
    ensures IntToString(x) in SelectedValues(Some(ids)) <==> x in ids
  {
    var values := SelectedValues(Some(ids));
    if IntToString(x) in values {
      var k :| 0 <= k < |values| && values[k] == IntToString(x);
      IntToStringInjective(x, ids[k]);
    }
    if x in ids {
      var k :| 0 <= k < |ids| && ids[k] == x;
      assert values[k] == IntToString(x);
    }
  }

  /**
   * Clicking a technology's option in the form toggles that technology's id
   * in `technology_ids` and keeps every other id's membership.
   */
  lemma ToggleTechnology(ids: seq<int>, t: Technology)
    ensures Canonical(HandleSelect(SelectedValues(Some(ids)), IntToString(t.id)))
    ensures var after := IdsOf(HandleSelect(SelectedValues(Some(ids)), IntToString(t.id)));
      (t.id in after <==> t.id !in ids) && forall x :: x != t.id ==> (x in after <==> x in ids)
  {
    var values := SelectedValues(Some(ids));
    var v := IntToString(t.id);
    SelectedValuesCanonical(Some(ids));
    ParseIntToString(t.id);
    HandleSelectCanonical(values, v);
    var clicked := HandleSelect(values, v);
    var after := IdsOf(clicked);
    forall x ensures x != t.id ==> (x in after <==> x in ids) {
      SelectedMembership(ids, x);
      IdsMembership(clicked, x);
      if x != t.id {
        if IntToString(x) == v {
          IntToStringInjective(x, t.id);
        }
        HandleSelectToggles(values, v);
        assert IntToString(x) in clicked <==> IntToString(x) in values;
      }
    }
    SelectedMembership(ids, t.id);
    IdsMembership(clicked, t.id);
    HandleSelectToggles(values, v);
  }

  /** The team select's options: `String(id)` of each team. */
  function TeamOptions(teams: seq<Team>): (options: seq<string>)
    ensures |options| == |teams| && forall k :: 0 <= k < |teams| ==> options[k] == IntToString(teams[k].id)
  {
    seq(|teams|, k requires 0 <= k < |teams| => IntToString(teams[k].id))
  }

  /** The team select's initial value: `field.value?.toString()`. */
  function TeamSelectDefault(teamId: Option<int>): Option<string>
  {
    if teamId.Some? then Some(IntToString(teamId.value)) else None
  }

  /** Choosing a team stores `Number(v)`: that team's id, which the select renders as `v` again. */
  lemma TeamChoiceRoundTrip(teams: seq<Team>, v: string)
    requires v in TeamOptions(teams)
    ensures exists k :: 0 <= k < |teams| && JsNumber(v) == Some(teams[k].id)
    ensures TeamSelectDefault(JsNumber(v)) == Some(v)
  {
    var k :| 0 <= k < |teams| && TeamOptions(teams)[k] == v;
    ParseIntToString(teams[k].id);
  }

  /** The date input's value: `field.value || ""`. */
  function DateInputValue(startDate: Option<string>): (shown: string)
    ensures startDate.Some? ==> shown == startDate.value
    ensures startDate.None? ==> shown == ""
  {
    if startDate.Some? then startDate.value else ""
  }
}
