/** The figure helpers of sciscripttools/plot.py: the figure_parameters record
    loaded from a JSON object, and the parts of standard_figure that decide
    something (unit strings, which axes to act on, subplot labels). Drawing
    calls and JSON file reading are not modelled. */
module FigurePlot {
  import opened Errors

  /** A JSON value; Python's None is JNull. */
  datatype Json =
    | JNull
    | JBool(b: bool)
    | JNum(n: real)
    | JStr(s: string)
    | JArray(items: seq<Json>)
    | JObject(fields: map<string, Json>)

  /** The 14 distinct keys of the parameter record. */
  function ParameterKeys(): set<string>
  {
    {"font_size", "width", "ratio", "height", "height_small_percentage",
     "adjust_bottom", "adjust_subplot_label", "adjust_left",
     "adjust_subplot_wspace", "adjust_subplot_hspace",
     "schematic_adjust_bottom_no_ticks",
     "adjust_subplot_label_right_x", "adjust_subplot_label_right_y",
     "brackets"}
  }

  lemma ParameterKeysCount()
    ensures |ParameterKeys()| == 14
  {
    var dimensions := {"font_size", "width", "ratio", "height", "height_small_percentage", "brackets"};
    var adjustments := {"adjust_bottom", "adjust_subplot_label", "adjust_left",
                        "adjust_subplot_wspace", "adjust_subplot_hspace",
                        "schematic_adjust_bottom_no_ticks",
                        "adjust_subplot_label_right_x", "adjust_subplot_label_right_y"};
    assert |dimensions| == 6;
    assert |adjustments| == 8;
    assert dimensions * adjustments == {};
    assert ParameterKeys() == dimensions + adjustments;
  }

  /** load_parameter: the value under key, or None when the key is missing. */
  function LoadParameter(d: map<string, Json>, key: string): (v: Json)
    ensures key in d ==> v == d[key]
    ensures key !in d ==> v == JNull
  {
    if key in d then d[key] else JNull
  }

  /** What a record built from d exports again: every parameter key, with its
      loaded value. */
  function Reloaded(d: map<string, Json>): (r: map<string, Json>)
    ensures r.Keys == ParameterKeys()
    ensures forall k :: k in r && k in d ==> r[k] == d[k]
    ensures forall k :: k in r && k !in d ==> r[k] == JNull
  {
    map k | k in ParameterKeys() :: LoadParameter(d, k)
  }

  /** Loading what was exported changes nothing. */
  lemma ReloadedIdempotent(d: map<string, Json>)
    ensures Reloaded(Reloaded(d)) == Reloaded(d)
  {
  }

  /** A dictionary survives the export unchanged exactly when it holds the
      parameter keys and no others: extra keys are dropped, missing ones come
      back as None. */
  lemma ReloadedFixedPoint(d: map<string, Json>)
    ensures Reloaded(d) == d <==> d.Keys == ParameterKeys()
  {
    if d.Keys == ParameterKeys() {
      assert forall k :: k in d ==> Reloaded(d)[k] == d[k];
    }
  }

  /** The parameters argument after the string case: a string names a JSON
      file, whose parsed contents (None when it cannot be read) are `loaded`.
      A failed load reaches a log call that names an undefined variable, so it
      raises a NameError; anything that is not a dictionary then raises too. */
  function ResolveParameters(parameters: Json, loaded: Option<Json>): (r: Result<map<string, Json>>)
    ensures parameters.JStr? && loaded.None? ==> r == Failure(UndefinedName)
    ensures parameters.JStr? && loaded.Some? ==>
              (r.Success? <==> loaded.value.JObject?) && (r.Success? ==> r.value == loaded.value.fields)
    ensures !parameters.JStr? ==>
              (r.Success? <==> parameters.JObject?) && (r.Success? ==> r.value == parameters.fields)
    ensures r.Failure? ==> r.error == UndefinedName || r.error == NotADictionary
  {
    var p :=
      if parameters.JStr? then
        if loaded.None? then Failure(UndefinedName) else Success(loaded.value)
      else Success(parameters);
    if p.Failure? then Failure(p.error)
    else if !p.value.JObject? then Failure(NotADictionary)
    else Success(p.value.fields)
  }

  /** figure_parameters: the source dictionary and one field per parameter. */
  class FigureParameters {
    var parametersDictionary: map<string, Json>
    var fontSize: Json
    var width: Json
    var ratio: Json
    var height: Json
    var heightSmallPercentage: Json
    var adjustBottom: Json
    var adjustSubplotLabel: Json
    var adjustLeft: Json
    var adjustSubplotWspace: Json
    var adjustSubplotHspace: Json
    var schematicAdjustBottomNoTicks: Json
    var adjustSubplotLabelRightX: Json
    var adjustSubplotLabelRightY: Json
    var brackets: Json

    /** The record from a dictionary: each field is loaded from its key. */
    constructor (parameters: map<string, Json>)
      ensures parametersDictionary == parameters
      ensures CreateDictionary() == Reloaded(parameters)
    {
      parametersDictionary := parameters;
      fontSize := LoadParameter(parameters, "font_size");
      width := LoadParameter(parameters, "width");
      ratio := LoadParameter(parameters, "ratio");
      height := LoadParameter(parameters, "height");
      heightSmallPercentage := LoadParameter(parameters, "height_small_percentage");
      adjustBottom := LoadParameter(parameters, "adjust_bottom");
      adjustSubplotLabel := LoadParameter(parameters, "adjust_subplot_label");
      adjustLeft := LoadParameter(parameters, "adjust_left");
      adjustBottom := LoadParameter(parameters, "adjust_bottom");
      adjustSubplotWspace := LoadParameter(parameters, "adjust_subplot_wspace");
      adjustSubplotHspace := LoadParameter(parameters, "adjust_subplot_hspace");
      schematicAdjustBottomNoTicks := LoadParameter(parameters, "schematic_adjust_bottom_no_ticks");
      adjustSubplotLabelRightX := LoadParameter(parameters, "adjust_subplot_label_right_x");
      adjustSubplotLabelRightY := LoadParameter(parameters, "adjust_subplot_label_right_y");
      brackets := LoadParameter(parameters, "brackets");
    }

    /** create_dictionary: the current field values under their keys
        ("adjust_bottom" is listed twice, with the same value). */
    function CreateDictionary(): (d: map<string, Json>)
      reads this
      ensures d.Keys == ParameterKeys()
      ensures d["brackets"] == brackets && d["font_size"] == fontSize && d["adjust_bottom"] == adjustBottom
    {
      map[
        "font_size" := fontSize,
        "width" := width,
        "ratio" := ratio,
        "height" := height,
        "height_small_percentage" := heightSmallPercentage,
        "adjust_bottom" := adjustBottom,
        "adjust_subplot_label" := adjustSubplotLabel,
        "adjust_left" := adjustLeft,
        "adjust_bottom" := adjustBottom,
        "adjust_subplot_wspace" := adjustSubplotWspace,
        "adjust_subplot_hspace" := adjustSubplotHspace,
        "schematic_adjust_bottom_no_ticks" := schematicAdjustBottomNoTicks,
        "adjust_subplot_label_right_x" := adjustSubplotLabelRightX,
        "adjust_subplot_label_right_y" := adjustSubplotLabelRightY,
        "brackets" := brackets]
    }

    /** update_dictionary: the stored dictionary becomes the export of the fields. */
    method UpdateDictionary() returns (status: int)
      modifies this`parametersDictionary
      ensures parametersDictionary == CreateDictionary()
      ensures status == 0
    {
      parametersDictionary := CreateDictionary();
      status := 0;
    }
  }

  /** A record built from its own export has the same fields. */
  lemma ExportReloads(p: FigureParameters)
    ensures Reloaded(p.CreateDictionary()) == p.CreateDictionary()
  {
    ReloadedFixedPoint(p.CreateDictionary());
  }

  /** figure_parameters(parameters), with the string case resolved through `loaded`. */
  method NewFigureParameters(parameters: Json, loaded: Option<Json>) returns (r: Result<FigureParameters>)
    ensures r.Failure? <==> ResolveParameters(parameters, loaded).Failure?
    ensures r.Failure? ==> r.error == ResolveParameters(parameters, loaded).error
    ensures r.Success? ==> fresh(r.value)
    ensures r.Success? ==>
              && r.value.parametersDictionary == ResolveParameters(parameters, loaded).value
              && r.value.CreateDictionary() == Reloaded(ResolveParameters(parameters, loaded).value)
  {
    var d := ResolveParameters(parameters, loaded);
    if d.Failure? {
      return Failure(d.error);
    }
    var p := new FigureParameters(d.value);
    r := Success(p);
  }

  /** A matplotlib axes object, by identity. */
  datatype Axis = Axis(id: nat)

  /** An axes argument: one axes object (no len), or a sequence of them. */
  datatype AxesValue = One(ax: Axis) | Several(axs: seq<Axis>)

  /** try len(axes) except [axes]: a single axes object becomes a one-element list. */
  function AsList(axes: AxesValue): (r: seq<Axis>)
    ensures axes.One? ==> r == [axes.ax]
    ensures axes.Several? ==> r == axes.axs
  {
    match axes
    case One(ax) => [ax]
    case Several(axs) => axs
  }

  /** The fig_params argument of standard_figure. */
  datatype FigParamsArgument = Record(record: FigureParameters) | Dictionary(d: map<string, Json>) | OtherValue

  /** The letters the subplot labels use. */
  const Alphabet: seq<char> := ['a', 'b', 'c', 'd', 'e', 'f']

  /** "(" + letter + ")". */
  function Label(letter: char): (s: string)
    ensures |s| == 3 && s[1] == letter
  {
    "(" + [letter] + ")"
  }

  /** The labels of n axes, in order; the seventh axis runs off the alphabet. */
  function SubplotLabelTexts(n: nat): (r: Result<seq<string>>)
    ensures r.Success? <==> n <= |Alphabet|
    ensures r.Failure? ==> r.error == IndexOutOfRange
    ensures r.Success? ==> |r.value| == n && forall i :: 0 <= i < n ==> r.value[i] == Label(Alphabet[i])
  {
    if n > |Alphabet| then Failure(IndexOutOfRange)
    else Success(seq(n, i requires 0 <= i < n => Label(Alphabet[i])))
  }

  /** No two subplots get the same label. */
  lemma SubplotLabelsDistinct(n: nat, i: nat, j: nat)
    requires SubplotLabelTexts(n).Success? && i < j < n
    ensures SubplotLabelTexts(n).value[i] != SubplotLabelTexts(n).value[j]
  {
    var labels := SubplotLabelTexts(n).value;
    assert labels[i][1] == Alphabet[i] && labels[j][1] == Alphabet[j];
  }

  /** What a subplot-label call decides: the label texts and the two offsets. */
  datatype SubplotLabelling = SubplotLabelling(texts: seq<string>, first: Json, second: Json)

  /** standard_figure: a figure's axes, as a list, and its parameter record. */
  class StandardFigure {
    const axes: seq<Axis>
    const figParams: FigureParameters

    constructor (axes: AxesValue, figParams: FigureParameters)
      ensures this.axes == AsList(axes) && this.figParams == figParams
    {
      this.axes := AsList(axes);
      this.figParams := figParams;
    }

    /** argument_axes: no argument means all of the figure's axes; a single
        axes object is wrapped; a sequence is used as it is. */
    function ArgumentAxes(axes: Option<AxesValue>): (r: seq<Axis>)
      ensures axes.None? ==> r == this.axes
      ensures axes.Some? ==> r == AsList(axes.value)
    {
      if axes.None? then this.axes else AsList(axes.value)
    }

    /** Passing the result back in changes nothing. */
    lemma ArgumentAxesIdempotent(axes: Option<AxesValue>)
      ensures ArgumentAxes(Some(Several(ArgumentAxes(axes)))) == ArgumentAxes(axes)
    {
    }

    /** latex_unit: no unit gives the empty string whatever the brackets;
        otherwise the unit inside \si{...}, in round or square brackets, and
        any other brackets value raises. brackets = None (JNull) means the record's. */
    function LatexUnit(unit: Option<string>, brackets: Json): (r: Result<string>)
      reads figParams
      ensures unit.None? ==> r == Success("")
      ensures unit.Some? ==>
                var b := if brackets == JNull then figParams.brackets else brackets;
                && (r.Success? <==> b == JStr("round") || b == JStr("square"))
                && (r.Failure? ==> r.error == BadBrackets)
                && (b == JStr("round") ==> r == Success(RoundOpen + unit.value + RoundClose))
                && (b == JStr("square") ==> r == Success(SquareOpen + unit.value + SquareClose))
    {
      var b := if brackets == JNull then figParams.brackets else brackets;
      if unit.None? then Success("")
      else if b == JStr("round") then Success(RoundOpen + unit.value + RoundClose)
      else if b == JStr("square") then Success(SquareOpen + unit.value + SquareClose)
      else Failure(BadBrackets)
    }

    /** add_subplot_labels: one label per selected axis; `adjust` and
        `figAdjustBottom`, when None, default to the record's
        adjust_subplot_label and adjust_bottom. */
    function SubplotLabels(axes: Option<AxesValue>, adjust: Json, figAdjustBottom: Json): (r: Result<SubplotLabelling>)
      reads figParams
      ensures r.Success? <==> |ArgumentAxes(axes)| <= |Alphabet|
      ensures r.Success? ==> Success(r.value.texts) == SubplotLabelTexts(|ArgumentAxes(axes)|)
      ensures r.Success? ==> r.value.first == (if adjust == JNull then figParams.adjustSubplotLabel else adjust)
      ensures r.Success? ==> r.value.second == (if figAdjustBottom == JNull then figParams.adjustBottom else figAdjustBottom)
    {
      var adjustUsed := if adjust == JNull then figParams.adjustSubplotLabel else adjust;
      var bottomUsed := if figAdjustBottom == JNull then figParams.adjustBottom else figAdjustBottom;
      match SubplotLabelTexts(|ArgumentAxes(axes)|)
      case Failure(e) => Failure(e)
      case Success(texts) => Success(SubplotLabelling(texts, adjustUsed, bottomUsed))
    }

    /** add_subplot_labels_right: the same labels for all of the figure's axes,
        offset by the record's right-hand adjustments unless given. */
    function SubplotLabelsRight(adjustX: Json, adjustY: Json): (r: Result<SubplotLabelling>)
      reads figParams
      ensures r.Success? <==> |axes| <= |Alphabet|
      ensures r.Success? ==> Success(r.value.texts) == SubplotLabelTexts(|axes|)
      ensures r.Success? ==> r.value.first == (if adjustX == JNull then figParams.adjustSubplotLabelRightX else adjustX)
      ensures r.Success? ==> r.value.second == (if adjustY == JNull then figParams.adjustSubplotLabelRightY else adjustY)
    {
      var xUsed := if adjustX == JNull then figParams.adjustSubplotLabelRightX else adjustX;
      var yUsed := if adjustY == JNull then figParams.adjustSubplotLabelRightY else adjustY;
      match SubplotLabelTexts(|axes|)
      case Failure(e) => Failure(e)
      case Success(texts) => Success(SubplotLabelling(texts, xUsed, yUsed))
    }
  }

  const RoundOpen: string := "$\\left( \\si{"
  const RoundClose: string := "} \\right)$"
  const SquareOpen: string := "$\\left[ \\si{"
  const SquareClose: string := "} \\right]$"

  /** The unit can be read back out of the string latex_unit builds, and the
      bracket style shows in it. */
  lemma LatexUnitRecoverable(f: StandardFigure, unit: string, brackets: Json)
    requires brackets == JStr("round") || brackets == JStr("square")
    ensures f.LatexUnit(Some(unit), brackets).Success?
    ensures var s := f.LatexUnit(Some(unit), brackets).value;
            && |s| == |unit| + 22
            && s[12..|s| - 10] == unit
            && s[6] == (if brackets == JStr("round") then '(' else '[')
  {
    var s := f.LatexUnit(Some(unit), brackets).value;
    var open := if brackets == JStr("round") then RoundOpen else SquareOpen;
    var close := if brackets == JStr("round") then RoundClose else SquareClose;
    assert s == open + unit + close;
    assert |open| == 12 && |close| == 10;
    assert s[12..|s| - 10] == unit;
    assert s[6] == open[6];
  }

  /** standard_figure(fig, axes, fig_params): a record is used as it is, a
      dictionary is turned into one, anything else raises. */
  method NewStandardFigure(axes: AxesValue, figParams: FigParamsArgument) returns (r: Result<StandardFigure>)
    ensures r.Failure? <==> figParams.OtherValue?
    ensures r.Failure? ==> r.error == BadFigureParams
    ensures r.Success? ==> fresh(r.value) && r.value.axes == AsList(axes)
    ensures r.Success? && figParams.Record? ==> r.value.figParams == figParams.record
    ensures r.Success? && figParams.Dictionary? ==>
              && fresh(r.value.figParams)
              && r.value.figParams.parametersDictionary == figParams.d
              && r.value.figParams.CreateDictionary() == Reloaded(figParams.d)
  {
    match figParams
    case OtherValue =>
      return Failure(BadFigureParams);
    case Record(record) =>
      var f := new StandardFigure(axes, record);
      return Success(f);
    case Dictionary(d) =>
      var record := new FigureParameters(d);
      var f := new StandardFigure(axes, record);
      return Success(f);
  }
}
