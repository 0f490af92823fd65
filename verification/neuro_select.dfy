/**
 * The creatable select of one neurological-examination field
 * (src/components/NeuroExamSelect.jsx): its label, the options loaded from
 * the server, the value it reports on a change, and the option it appends
 * when a typed value is created on the server.
 */
module NeuroSelect {
  import opened Common

  /** A react-select option. */
  datatype SelectOption = SelectOption(caption: string, value: string)

  /** `fieldLabelMap` */
  const FieldLabels: map<string, string> := map[
    "motor_function" := "Motor Functions",
    "muscle_tone" := "Muscle Tone",
    "muscle_strength" := "Muscle Strength",
    "straight_leg_raise_test" := "SLR",
    "deep_tendon_reflexes" := "Reflexes",
    "plantar_reflex" := "Plantar",
    "cranial_nerves" := "Cranial Nerves",
    "gait" := "Gait & Balance",
    "pupillary_reaction" := "Pupillary Reaction",
    "speech_assessment" := "Speech Assessment",
    "gait_assessment" := "Gait Assessment",
    "coordination" := "Coordination",
    "sensory_examination" := "Sensory Examination",
    "mental_status" := "Mental Status",
    "cerebellar_function" := "Cerebellar Function",
    "muscle_wasting" := "Muscle Wasting",
    "abnormal_movements" := "Abnormal Movements",
    "romberg_test" := "Romberg Test",
    "nystagmus" := "Nystagmus",
    "fundoscopy" := "Fundoscopy"
  ]

  /** `field.replace(/_/g, " ")` */
  function Spaced(field: string): (r: string)
    ensures |r| == |field|
    ensures forall i :: 0 <= i < |r| ==> r[i] == if field[i] == '_' then ' ' else field[i]
  {
    if |field| == 0 then "" else [if field[0] == '_' then ' ' else field[0]] + Spaced(field[1..])
  }

  /** Every mapped label is truthy, so `||` falls back only for an unmapped field. */
  lemma LabelsNonEmpty()
    ensures forall k :: k in FieldLabels ==> FieldLabels[k] != ""
  {
    forall k | k in FieldLabels
      ensures FieldLabels[k] != ""
    {
      assert k in FieldLabels.Keys;
    }
  }

  /** `fieldLabelMap[field] || field.replace(/_/g, " ")` */
  function FieldLabel(field: string): string
  {
    if field in FieldLabels && FieldLabels[field] != "" then FieldLabels[field] else Spaced(field)
  }

  /**
   * A mapped field shows its mapped label; any other field shows its own
   * name with no underscore left and every other character in place.
   */
  lemma FieldLabelSpec(field: string)
    ensures field in FieldLabels ==> FieldLabel(field) == FieldLabels[field]
    ensures field !in FieldLabels ==>
      && |FieldLabel(field)| == |field|
      && '_' !in FieldLabel(field)
      && forall i :: 0 <= i < |field| && field[i] != '_' ==> FieldLabel(field)[i] == field[i]
  {
    LabelsNonEmpty();
    if field !in FieldLabels {
      var r := Spaced(field);
      assert forall i :: 0 <= i < |r| ==> r[i] != '_';
    }
  }

  /** An unmapped name with one underscore shows the underscore as a space ... */
  lemma OneUnderscoreLabel(a: string, b: string)
    requires '_' !in a && '_' !in b && a + "_" + b !in FieldLabels
    ensures FieldLabel(a + "_" + b) == a + " " + b
  {
    var field := a + "_" + b;
    var r := Spaced(field);
    forall i | 0 <= i < |r|
      ensures r[i] == (a + " " + b)[i]
    {
      if i < |a| {
        assert field[i] == a[i];
      } else if i > |a| {
        assert field[i] == b[i - |a| - 1];
      }
    }
  }

  /** ... so "mmse_score", which has no entry, is shown as "mmse score" ... */
  lemma UnmappedLabelExample()
    ensures FieldLabel("mmse_score") == "mmse score"
  {
    assert "mmse" + "_" + "score" == "mmse_score";
    assert "mmse" + " " + "score" == "mmse score";
    OneUnderscoreLabel("mmse", "score");
  }

  /** ... while "gait" is shown by its mapped label. */
  lemma MappedLabelExample()
    ensures FieldLabel("gait") == "Gait & Balance"
  {
    assert "gait" in FieldLabels;
  }

  /** `data.map(item => ({ label: item.value, value: item.value }))` */
  function OptionsFrom(items: seq<string>): (r: seq<SelectOption>)
    ensures |r| == |items|
    ensures forall i :: 0 <= i < |r| ==> r[i].caption == items[i] && r[i].value == items[i]
  {
    if |items| == 0 then [] else [SelectOption(items[0], items[0])] + OptionsFrom(items[1..])
  }

  /** `selectedOption?.value || ""`: None is a cleared select. */
  function ChangedValue(selected: Option<SelectOption>): string
  {
    if selected.Some? && selected.value.value != "" then selected.value.value else ""
  }

  /** `value ? { label: value, value } : null` */
  function DisplayedValue(value: string): Option<SelectOption>
  {
    if value != "" then Some(SelectOption(value, value)) else None
  }

  /**
   * Picking a loaded option and showing the value it reports displays that
   * same option; clearing the select displays nothing.
   */
  lemma ChosenOptionDisplayed(items: seq<string>, i: nat)
    requires i < |items| && items[i] != ""
    ensures DisplayedValue(ChangedValue(Some(OptionsFrom(items)[i]))) == Some(OptionsFrom(items)[i])
    ensures DisplayedValue(ChangedValue(None)).None?
  {
    var o := OptionsFrom(items)[i];
    assert o == SelectOption(items[i], items[i]);
  }

  /** One select, with the callbacks it has made. */
  class ExamSelect {
    const field: string
    var options: seq<SelectOption>
    var loading: bool
    var isCreating: bool
    /** The values POSTed as new options, oldest first. */
    var posted: seq<string>
    /** The `onChange(field, value)` calls, oldest first. */
    var reported: seq<(string, string)>

    /** The initial `useState` values. */
    constructor (field: string)
      ensures this.field == field
      ensures options == [] && loading && !isCreating && posted == [] && reported == []
    {
      this.field := field;
      options := [];
      loading := true;
      isCreating := false;
      posted := [];
      reported := [];
    }

    /**
     * `loadOptions`, given the values the GET returns (None for a failed
     * request): the loaded values become the options; a failure keeps the
     * options. `loading` ends false.
     */
    method LoadOptions(reply: Option<seq<string>>)
      modifies this
      ensures reply.Some? ==> options == OptionsFrom(reply.value)
      ensures reply.None? ==> options == old(options)
      ensures !loading && isCreating == old(isCreating)
      ensures posted == old(posted) && reported == old(reported)
    {
      if reply.Some? {
        options := OptionsFrom(reply.value);
      }
      loading := false;
    }

    /** `handleChange` reports the chosen value, or "" for a cleared select. */
    method HandleChange(selected: Option<SelectOption>)
      modifies this
      ensures reported == old(reported) + [(field, ChangedValue(selected))]
      ensures selected.Some? && selected.value.value != "" ==> reported[|reported| - 1].1 == selected.value.value
      ensures selected.None? ==> reported[|reported| - 1].1 == ""
      ensures options == old(options) && loading == old(loading) && isCreating == old(isCreating)
      ensures posted == old(posted)
    {
      reported := reported + [(field, ChangedValue(selected))];
    }

    /**
     * `handleCreate`, given the value the server echoes (None when the
     * POST fails). The typed value is posted while `isCreating` is raised;
     * on success one option, labelled and valued by the echoed value, is
     * appended and that value reported; on failure the options stay and
     * nothing is reported. `isCreating` ends false; the output only records
     * its value while the request is in flight.
     */
    method HandleCreate(input: string, reply: Option<string>) returns (creatingDuringRequest: bool)
      modifies this
      ensures creatingDuringRequest && !isCreating
      ensures posted == old(posted) + [input]
      ensures reply.Some? ==>
        && options == old(options) + [SelectOption(reply.value, reply.value)]
        && reported == old(reported) + [(field, reply.value)]
      ensures reply.None? ==> options == old(options) && reported == old(reported)
      ensures loading == old(loading)
    {
      isCreating := true;
      posted := posted + [input];
      creatingDuringRequest := isCreating;
      if reply.Some? {
        var created := SelectOption(reply.value, reply.value);
        options := options + [created];
        reported := reported + [(field, created.value)];
      }
      isCreating := false;
    }
  }
}
