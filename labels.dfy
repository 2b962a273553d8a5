/** The colour of a record's kind label. */
module Labels {
  import opened Js

  const MiscColor := "#444"

  /** `LABEL_COLORS`: the label colour of each known kind. */
  const LabelColors: map<string, string> := map[
    "misc" := MiscColor,
    "cls" := "#c50",
    "dcl" := "#185ebd",
    "fcp" := "green",
    "fid" := "purple",
    "fp" := "mediumseagreen",
    "lcp" := "darkgreen",
    "tbt" := "red",
    "load" := "#888"
  ]

  /**
   * `colorOverride || LABEL_COLORS[type] || LABEL_COLORS.misc`: a truthy override
   * wins, then the table, then the `misc` colour; never a falsy value.
   */
  function LabelColor(kind: string, colorOverride: Value): (c: Value)
    ensures Truthy(c)
    ensures Truthy(colorOverride) ==> c == colorOverride
    ensures !Truthy(colorOverride) && kind in LabelColors ==> c == Str(LabelColors[kind])
    ensures !Truthy(colorOverride) && kind !in LabelColors ==> c == Str(MiscColor)
  {
    var fromTable := if kind in LabelColors then Str(LabelColors[kind]) else Undefined;
    Or(colorOverride, Or(fromTable, Str(LabelColors["misc"])))
  }

  /** Without an override the colour is always one of the table's colours. */
  lemma LabelColorFromTable(kind: string)
    ensures LabelColor(kind, Undefined).Str?
    ensures LabelColor(kind, Undefined).s in LabelColors.Values
  {
    assert LabelColors["misc"] == MiscColor;
  }
}
