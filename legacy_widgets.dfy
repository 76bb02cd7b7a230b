/** The widget builders of the legacy API (Geckoboard.py).

    Same idea as the current API with camelCase mutators: the funnel always
    renders its order and percentage flags, demands three items, and the
    number widget drops every falsy number. */
module LegacyWidgets {
  import opened Payload

  /** Values of the `type` key of a text item. */
  const PlainText: int := 0
  const AlertText: int := 1
  const InfoText: int := 2

  /** The base class: it has neither a check nor a payload. */
  class Push {
    constructor ()
    {
    }

    function Validate(): (r: Outcome)
      ensures r.Fail? && r.message == "No validation found for this Widget"
    {
      Fail("No validation found for this Widget")
    }

    function Data(): (r: Result<map<string, Json>>)
      ensures r.Failure? && r.message == "No data exposed from this Widget"
    {
      Failure("No data exposed from this Widget")
    }
  }

  // ---------------------------------------------------------------- Funnel

  /** A stage; its value is stored as passed. */
  function FunnelItem(name: string, value: Num): (j: Json)
    ensures j.JObj? && j.fields.Keys == {"label", "value"}
    ensures j.fields["label"] == JStr(name) && j.fields["value"] == AsJson(value)
  {
    JObj(map["label" := JStr(name), "value" := AsJson(value)])
  }

  class Funnel {
    const widgetKey: string
    var items: seq<Json>
    var funnelType: string
    var percentage: string

    /** A new funnel is `standard` and `show`. */
    constructor (widgetKey: string)
      ensures this.widgetKey == widgetKey && items == []
      ensures funnelType == "standard" && percentage == "show"
    {
      items := [];
      this.widgetKey := widgetKey;
      new;
      StandardOrder();
      ShowPercentage();
    }

    method StandardOrder()
      modifies this
      ensures funnelType == "standard"
      ensures items == old(items) && percentage == old(percentage)
    {
      funnelType := "standard";
    }

    method ReverseOrder()
      modifies this
      ensures funnelType == "reverse"
      ensures items == old(items) && percentage == old(percentage)
    {
      funnelType := "reverse";
    }

    method ShowPercentage()
      modifies this
      ensures percentage == "show"
      ensures items == old(items) && funnelType == old(funnelType)
    {
      percentage := "show";
    }

    method HidePercentage()
      modifies this
      ensures percentage == "hide"
      ensures items == old(items) && funnelType == old(funnelType)
    {
      percentage := "hide";
    }

    method AddItem(name: string, value: Num)
      modifies this
      ensures items == old(items) + [FunnelItem(name, value)]
      ensures funnelType == old(funnelType) && percentage == old(percentage)
    {
      items := items + [FunnelItem(name, value)];
    }

    /** Demands at least three stages. */
    function Validate(): (r: Outcome)
      reads this
      ensures r.Pass? <==> |items| >= 3
      ensures r.Fail? ==> r.message == "We need atleast 3 items for Funnel"
    {
      if |items| < 3 then Fail("We need atleast 3 items for Funnel") else Pass
    }

    /** Always all three keys, whatever the flags are. */
    function Data(): (r: map<string, Json>)
      reads this
      ensures r.Keys == {"type", "percentage", "item"}
      ensures r["type"] == JStr(funnelType)
      ensures r["percentage"] == JStr(percentage)
      ensures r["item"] == JArr(items)
    {
      map["type" := JStr(funnelType), "percentage" := JStr(percentage), "item" := JArr(items)]
    }
  }

  // ------------------------------------------------------------------ Text

  /** The line `{"text": text, "type": _type}`. */
  function TextItem(text: string, kind: int): (j: Json)
    ensures j.JObj? && j.fields.Keys == {"text", "type"}
    ensures j.fields["text"] == JStr(text) && j.fields["type"] == JInt(kind)
  {
    JObj(map["text" := JStr(text), "type" := JInt(kind)])
  }

  class Text {
    const widgetKey: string
    var items: seq<Json>

    constructor (widgetKey: string)
      ensures this.widgetKey == widgetKey && items == []
    {
      this.widgetKey := widgetKey;
      items := [];
    }

    method AddText(text: string)
      modifies this
      ensures items == old(items) + [TextItem(text, PlainText)]
    {
      AddTyped(text, PlainText);
    }

    method AddAlertText(text: string)
      modifies this
      ensures items == old(items) + [TextItem(text, AlertText)]
    {
      AddTyped(text, AlertText);
    }

    method AddInfoText(text: string)
      modifies this
      ensures items == old(items) + [TextItem(text, InfoText)]
    {
      AddTyped(text, InfoText);
    }

    /** The shared step of the three `Add*Text` methods. */
    method AddTyped(text: string, kind: int)
      modifies this
      ensures items == old(items) + [TextItem(text, kind)]
    {
      items := items + [TextItem(text, kind)];
    }

    function Validate(): (r: Outcome)
      ensures r.Pass?
    {
      Pass
    }

    function Data(): (r: map<string, Json>)
      reads this
      ensures r.Keys == {"item"} && r["item"] == JArr(items)
    {
      ItemPayload(items)
    }
  }

  // ---------------------------------------------------------- NumberWidget

  /** The stat `{"text": prefix, "value": number}`, the number as passed. */
  function StatItem(prefix: Option<string>, n: Num): (j: Json)
    ensures j.JObj? && j.fields.Keys == {"text", "value"}
    ensures j.fields["text"] == Nullable(prefix) && j.fields["value"] == AsJson(n)
  {
    JObj(map["text" := Nullable(prefix), "value" := AsJson(n)])
  }

  /** The items `addStat` appends: one per truthy argument, `number1`
      first; `None` and zero are both dropped. */
  function StatItems(number1: Option<Num>, number2: Option<Num>, prefix: Option<string>): (r: seq<Json>)
    ensures |r| == (if Truthy(number1) then 1 else 0) + (if Truthy(number2) then 1 else 0)
    ensures Truthy(number1) ==> r[0] == StatItem(prefix, number1.value)
    ensures Truthy(number2) ==> r[|r| - 1] == StatItem(prefix, number2.value)
    ensures forall j :: 0 <= j < |r| ==> r[j].JObj? && r[j].fields["text"] == Nullable(prefix)
  {
    (if Truthy(number1) then [StatItem(prefix, number1.value)] else [])
    + (if Truthy(number2) then [StatItem(prefix, number2.value)] else [])
  }

  class NumberWidget {
    const widgetKey: string
    var items: seq<Json>

    constructor (widgetKey: string)
      ensures this.widgetKey == widgetKey && items == []
    {
      this.widgetKey := widgetKey;
      items := [];
    }

    method AddStat(number1: Option<Num>, number2: Option<Num> := None, prefix: Option<string> := None)
      modifies this
      ensures items == old(items) + StatItems(number1, number2, prefix)
    {
      if Truthy(number1) {
        items := items + [StatItem(prefix, number1.value)];
      }
      if Truthy(number2) {
        items := items + [StatItem(prefix, number2.value)];
      }
    }

    /** Appends the whole list of values as one item: one more item. */
    method SparkLine(values: seq<Json> := [])
      modifies this
      ensures items == old(items) + [JArr(values)]
    {
      items := items + [JArr(values)];
    }

    function Validate(): (r: Outcome)
      ensures r.Pass?
    {
      Pass
    }

    function Data(): (r: map<string, Json>)
      reads this
      ensures r.Keys == {"item"} && r["item"] == JArr(items)
    {
      ItemPayload(items)
    }
  }
}
