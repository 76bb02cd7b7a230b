/** The widget builders of the current API (geckoboard.py).

    Each widget accumulates items in order, checks how many it holds in
    `Validate`, and renders its payload in `Data`. Every class has the key
    of the widget it pushes to and the item list of the base widget. */
module Widgets {
  import opened Payload

  /** Values of `Funnel.Order`. */
  const StandardOrder: int := 0
  const ReverseOrder: int := 1

  /** Values of `Text.Type`. */
  const DefaultText: int := 0
  const AlertText: int := 1
  const InfoText: int := 2

  /** The base widget: it checks nothing and has no payload of its own. */
  class Widget {
    const key: string
    var items: seq<Json>

    constructor (widgetKey: string)
      ensures key == widgetKey && items == []
    {
      key := widgetKey;
      items := [];
    }

    function Validate(): (r: Outcome)
      ensures r.Pass?
    {
      Pass
    }

    function Data(): (r: Result<map<string, Json>>)
      ensures r.Failure? && r.message == "No data exposed from this widget"
    {
      Failure("No data exposed from this widget")
    }
  }

  // ---------------------------------------------------------------- Funnel

  /** The stage `{'label': label, 'value': float(value)}`. */
  function FunnelItem(name: string, value: Num): (j: Json)
    ensures j.JObj? && j.fields.Keys == {"label", "value"}
    ensures j.fields["label"] == JStr(name)
    ensures j.fields["value"].JFloat? && j.fields["value"].r == ToReal(value)
  {
    JObj(map["label" := JStr(name), "value" := AsFloat(value)])
  }

  /** The stage that `add_items` appends for one `(label, value)` pair. */
  function FunnelPair(p: (string, Num)): (j: Json)
    ensures j == FunnelItem(p.0, p.1)
  {
    FunnelItem(p.0, p.1)
  }

  class Funnel {
    const key: string
    var items: seq<Json>
    var order: int
    var showsPercentage: bool

    /** A new funnel is in standard order and shows percentages. */
    constructor (widgetKey: string)
      ensures key == widgetKey && items == []
      ensures order == StandardOrder && showsPercentage
    {
      key := widgetKey;
      items := [];
      new;
      SetOrder(StandardOrder);
      ShowPercentage(true);
    }

    method SetOrder(value: int)
      modifies this
      ensures order == value
      ensures items == old(items) && showsPercentage == old(showsPercentage)
    {
      order := value;
    }

    method ShowPercentage(value: bool)
      modifies this
      ensures showsPercentage == value
      ensures items == old(items) && order == old(order)
    {
      showsPercentage := value;
    }

    /** Appends one `{label, value}` item, the value made a float. */
    method AddItem(name: string, value: Num)
      modifies this
      ensures items == old(items) + [FunnelItem(name, value)]
      ensures order == old(order) && showsPercentage == old(showsPercentage)
    {
      items := items + [FunnelItem(name, value)];
    }

    /** Appends one item per pair, in the order of the pairs. */
    method AddItems(pairs: seq<(string, Num)>)
      modifies this
      ensures items == old(items) + MapSeq(FunnelPair, pairs)
      ensures order == old(order) && showsPercentage == old(showsPercentage)
    {
      for i := 0 to |pairs|
        invariant items == old(items) + MapSeq(FunnelPair, pairs[..i])
        invariant order == old(order) && showsPercentage == old(showsPercentage)
      {
        var (name, value) := pairs[i];
        AddItem(name, value);
        MapSeqSnoc(FunnelPair, pairs[..i], pairs[i]);
        assert pairs[..i + 1] == pairs[..i] + [pairs[i]];
      }
      assert pairs[..|pairs|] == pairs;
    }

    /** A funnel inherits the base check: any number of items is accepted. */
    function Validate(): (r: Outcome)
      ensures r.Pass?
    {
      Pass
    }

    /** The items, plus `type: reverse` only in reverse order and
        `percentage: hide` only when percentages are hidden. */
    function Data(): (r: map<string, Json>)
      reads this
      ensures r.Keys <= {"item", "type", "percentage"}
      ensures "item" in r && r["item"] == JArr(items)
      ensures "type" in r <==> order == ReverseOrder
      ensures "type" in r ==> r["type"] == JStr("reverse")
      ensures "percentage" in r <==> !showsPercentage
      ensures "percentage" in r ==> r["percentage"] == JStr("hide")
    {
      var data := ItemPayload(items);
      var data' := if order == ReverseOrder then data["type" := JStr("reverse")] else data;
      if showsPercentage == false then data'["percentage" := JStr("hide")] else data'
    }
  }

  /** With the defaults a funnel renders its items and nothing else. */
  lemma DefaultFunnelRendersItemsOnly(f: Funnel)
    requires f.order == StandardOrder && f.showsPercentage
    ensures f.Data() == map["item" := JArr(f.items)]
  {
  }

  // ---------------------------------------------------------- NumberWidget

  /** The stat `{'text': text, 'value': number}`, the number as passed. */
  function StatItem(text: Option<string>, n: Num): (j: Json)
    ensures j.JObj? && j.fields.Keys == {"text", "value"}
    ensures j.fields["text"] == Nullable(text) && j.fields["value"] == AsJson(n)
  {
    JObj(map["text" := Nullable(text), "value" := AsJson(n)])
  }

  /** The items `add_stat` appends: one per argument that is not `None`,
      `number1` first; zero is kept. */
  function StatItems(number1: Option<Num>, number2: Option<Num>, text: Option<string>): (r: seq<Json>)
    ensures |r| == (if number1.Some? then 1 else 0) + (if number2.Some? then 1 else 0)
    ensures number1.Some? ==> r[0] == StatItem(text, number1.value)
    ensures number2.Some? ==> r[|r| - 1] == StatItem(text, number2.value)
    ensures forall j :: 0 <= j < |r| ==> r[j].JObj? && r[j].fields["text"] == Nullable(text)
  {
    (if number1.Some? then [StatItem(text, number1.value)] else [])
    + (if number2.Some? then [StatItem(text, number2.value)] else [])
  }

  class NumberWidget {
    const key: string
    var items: seq<Json>

    constructor (widgetKey: string)
      ensures key == widgetKey && items == []
    {
      key := widgetKey;
      items := [];
    }

    method AddStat(number1: Option<Num>, number2: Option<Num> := None, text: Option<string> := None)
      modifies this
      ensures items == old(items) + StatItems(number1, number2, text)
    {
      if number1.Some? {
        items := items + [StatItem(text, number1.value)];
      }
      if number2.Some? {
        items := items + [StatItem(text, number2.value)];
      }
    }

    /** Appends the whole list of values as one item. */
    method SparkLine(values: seq<Json> := [])
      modifies this
      ensures items == old(items) + [JArr(values)]
    {
      items := items + [JArr(values)];
    }

    function Validate(): (r: Outcome)
      ensures r.Pass?
    {
      Pass
    }

    function Data(): (r: map<string, Json>)
      reads this
      ensures r.Keys == {"item"} && r["item"] == JArr(items)
    {
      ItemPayload(items)
    }
  }

  // ------------------------------------------------------ GeckOMeterWidget

  /** The gauge payload for one reading: the value and both bounds as
      floats, each bound with its caption. */
  function GaugeData(value: Num, min: Num, max: Num, minText: string, maxText: string): (data: map<string, Json>)
    ensures data.Keys == {"item", "min", "max"}
    ensures data["item"].JFloat? && data["item"].r == ToReal(value)
    ensures data["min"].JObj? && data["min"].fields.Keys == {"value", "text"}
    ensures data["min"].fields["value"] == AsFloat(min) && data["min"].fields["text"] == JStr(minText)
    ensures data["max"].JObj? && data["max"].fields.Keys == {"value", "text"}
    ensures data["max"].fields["value"] == AsFloat(max) && data["max"].fields["text"] == JStr(maxText)
  {
    map[
      "item" := AsFloat(value),
      "min" := JObj(map["value" := AsFloat(min), "text" := JStr(minText)]),
      "max" := JObj(map["value" := AsFloat(max), "text" := JStr(maxText)])
    ]
  }

  /** A gauge holds one reading, not a list. Before the first `SetStat`
      the reading's attributes do not exist (`hasStat` is false). */
  class GeckOMeterWidget {
    const key: string
    var items: seq<Json>
    var hasStat: bool
    var currentValue: Num
    var minValue: Num
    var maxValue: Num
    var minText: string
    var maxText: string

    constructor (widgetKey: string)
      ensures key == widgetKey && items == [] && !hasStat
    {
      key := widgetKey;
      items := [];
      hasStat := false;
      currentValue, minValue, maxValue := Int(0), Int(0), Int(0);
      minText, maxText := "", "";
    }

    /** Replaces the whole reading: the payload depends on this call alone. */
    method SetStat(value: Num, min: Num, max: Num, minText: string := "", maxText: string := "")
      modifies this
      ensures hasStat && items == old(items)
      ensures currentValue == value && minValue == min && maxValue == max
      ensures this.minText == minText && this.maxText == maxText
      ensures Data() == Success(GaugeData(value, min, max, minText, maxText))
    {
      currentValue := value;
      minValue := min;
      maxValue := max;
      this.minText := minText;
      this.maxText := maxText;
      hasStat := true;
    }

    function Validate(): (r: Outcome)
      ensures r.Pass?
    {
      Pass
    }

    /** Fails when no reading was set (the attributes are missing). */
    function Data(): (r: Result<map<string, Json>>)
      reads this
      ensures r.Failure? <==> !hasStat
      ensures r.Success? ==> r.value.Keys == {"item", "min", "max"}
      ensures r.Success? ==> r.value == GaugeData(currentValue, minValue, maxValue, minText, maxText)
    {
      if hasStat then Success(GaugeData(currentValue, minValue, maxValue, minText, maxText))
      else Failure("'GeckOMeterWidget' object has no attribute 'current_value'")
    }
  }

  // ------------------------------------------------------------------- RAG

  /** The entry `{'text': text, 'value': float(value)}`. */
  function RagItem(text: string, value: Num): (j: Json)
    ensures j.JObj? && j.fields.Keys == {"text", "value"}
    ensures j.fields["text"] == JStr(text)
    ensures j.fields["value"].JFloat? && j.fields["value"].r == ToReal(value)
  {
    JObj(map["text" := JStr(text), "value" := AsFloat(value)])
  }

  class RAG {
    const key: string
    var items: seq<Json>

    constructor (widgetKey: string)
      ensures key == widgetKey && items == []
    {
      key := widgetKey;
      items := [];
    }

    method AddItem(text: string, value: Num)
      modifies this
      ensures items == old(items) + [RagItem(text, value)]
    {
      items := items + [RagItem(text, value)];
    }

    /** Accepts exactly two or three items. */
    function Validate(): (r: Outcome)
      reads this
      ensures r.Pass? <==> |items| == 2 || |items| == 3
      ensures r.Fail? ==> r.message == "The RAG widget expects 2 or 3 items."
    {
      if |items| < 2 || |items| > 3 then Fail("The RAG widget expects 2 or 3 items.") else Pass
    }

    function Data(): (r: map<string, Json>)
      reads this
      ensures r.Keys == {"item"} && r["item"] == JArr(items)
    {
      ItemPayload(items)
    }
  }

  // -------------------------------------------------------------- PieChart

  /** A slice; its value is stored as passed, not made a float. */
  function PieItem(name: string, value: Num, color: Option<string>): (j: Json)
    ensures j.JObj? && j.fields.Keys == {"label", "value", "color"}
    ensures j.fields["label"] == JStr(name) && j.fields["value"] == AsJson(value)
    ensures j.fields["color"] == Nullable(color)
  {
    JObj(map["label" := JStr(name), "value" := AsJson(value), "color" := Nullable(color)])
  }

  /** The slice that `add_items` appends for one pair: no color. */
  function PiePair(p: (string, Num)): (j: Json)
    ensures j == PieItem(p.0, p.1, None)
    ensures j.fields["color"] == JNull
  {
    PieItem(p.0, p.1, None)
  }

  class PieChart {
    const key: string
    var items: seq<Json>

    constructor (widgetKey: string)
      ensures key == widgetKey && items == []
    {
      key := widgetKey;
      items := [];
    }

    method AddItem(name: string, value: Num, color: Option<string> := None)
      modifies this
      ensures items == old(items) + [PieItem(name, value, color)]
    {
      items := items + [PieItem(name, value, color)];
    }

    /** Appends one slice per pair, in order, each without a color. */
    method AddItems(pairs: seq<(string, Num)>)
      modifies this
      ensures items == old(items) + MapSeq(PiePair, pairs)
    {
      for i := 0 to |pairs|
        invariant items == old(items) + MapSeq(PiePair, pairs[..i])
      {
        var (name, value) := pairs[i];
        AddItem(name, value);
        MapSeqSnoc(PiePair, pairs[..i], pairs[i]);
        assert pairs[..i + 1] == pairs[..i] + [pairs[i]];
      }
      assert pairs[..|pairs|] == pairs;
    }

    /** Accepts any non-empty list of slices. */
    function Validate(): (r: Outcome)
      reads this
      ensures r.Pass? <==> |items| >= 1
      ensures r.Fail? ==> r.message == "We need at least 1 items for PieChart"
    {
      if |items| < 1 then Fail("We need at least 1 items for PieChart") else Pass
    }

    function Data(): (r: map<string, Json>)
      reads this
      ensures r.Keys == {"item"} && r["item"] == JArr(items)
    {
      ItemPayload(items)
    }
  }

  // ------------------------------------------------------------------ Text

  /** The line `{'text': text, 'type': type}`. */
  function TextItem(text: string, kind: int): (j: Json)
    ensures j.JObj? && j.fields.Keys == {"text", "type"}
    ensures j.fields["text"] == JStr(text) && j.fields["type"] == JInt(kind)
  {
    JObj(map["text" := JStr(text), "type" := JInt(kind)])
  }

  class Text {
    const key: string
    var items: seq<Json>

    constructor (widgetKey: string)
      ensures key == widgetKey && items == []
    {
      key := widgetKey;
      items := [];
    }

    method AddItem(text: string, kind: int := DefaultText)
      modifies this
      ensures items == old(items) + [TextItem(text, kind)]
    {
      items := items + [TextItem(text, kind)];
    }

    function Validate(): (r: Outcome)
      ensures r.Pass?
    {
      Pass
    }

    function Data(): (r: map<string, Json>)
      reads this
      ensures r.Keys == {"item"} && r["item"] == JArr(items)
    {
      ItemPayload(items)
    }
  }
}
