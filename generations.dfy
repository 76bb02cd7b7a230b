/** How the three generations of builders relate: the current funnel is the
    legacy funnel with its default-valued keys left out, and the legacy
    number widget is the current one with falsy numbers dropped. */
module Generations {
  import opened Payload
  import Widgets
  import LegacyWidgets
  import GeckoPush

  /** A funnel of the current API renders what a legacy funnel in the same
      state renders, minus the keys that hold the default `standard` or
      `show`. */
  lemma FunnelOmitsDefaultKeys(f: Widgets.Funnel, g: LegacyWidgets.Funnel)
    requires f.items == g.items
    requires g.funnelType == "standard" || g.funnelType == "reverse"
    requires g.percentage == "show" || g.percentage == "hide"
    requires f.order == Widgets.ReverseOrder <==> g.funnelType == "reverse"
    requires f.showsPercentage <==> g.percentage == "show"
    ensures f.Data() == map k | k in g.Data() && g.Data()[k] != JStr("standard") && g.Data()[k] != JStr("show") :: g.Data()[k]
  {
  }

  /** The number left when a falsy argument is treated as absent. */
  function DropFalsy(n: Option<Num>): (m: Option<Num>)
    ensures m.Some? <==> Truthy(n)
    ensures m.Some? ==> m == n
  {
    if Truthy(n) then n else None
  }

  /** Legacy `addStat` appends what the current `add_stat` appends once
      every falsy number is made `None`. */
  lemma LegacyStatDropsFalsy(number1: Option<Num>, number2: Option<Num>, text: Option<string>)
    ensures LegacyWidgets.StatItems(number1, number2, text)
         == Widgets.StatItems(DropFalsy(number1), DropFalsy(number2), text)
  {
  }

  /** Zero is a stat for the current API and no stat for the legacy one. */
  lemma ZeroStatKeptOnlyByCurrent(zero: Num, text: Option<string>)
    requires ToReal(zero) == 0.0
    ensures Widgets.StatItems(Some(zero), None, text) == [Widgets.StatItem(text, zero)]
    ensures LegacyWidgets.StatItems(Some(zero), None, text) == []
  {
  }

  /** Any item list meeting the facade `number`'s postcondition is the one
      legacy `addStat` appends with the prefix `''`. */
  lemma FacadeNumberIsLegacyStat(number1: Option<Num>, number2: Option<Num>, elems: seq<Json>)
    requires |elems| == (if Truthy(number1) then 1 else 0) + (if Truthy(number2) then 1 else 0)
    requires Truthy(number1) ==> elems[0] == GeckoPush.NumberEntry(number1.value)
    requires Truthy(number2) ==> elems[|elems| - 1] == GeckoPush.NumberEntry(number2.value)
    ensures elems == LegacyWidgets.StatItems(number1, number2, Some(""))
  {
    var legacy := LegacyWidgets.StatItems(number1, number2, Some(""));
    if Truthy(number1) {
      assert GeckoPush.NumberEntry(number1.value) == LegacyWidgets.StatItem(Some(""), number1.value);
    }
    if Truthy(number2) {
      assert GeckoPush.NumberEntry(number2.value) == LegacyWidgets.StatItem(Some(""), number2.value);
    }
    assert |elems| == |legacy|;
    assert forall j :: 0 <= j < |elems| ==> elems[j] == legacy[j];
  }

  /** A plain string given to the facade `text` becomes the same item as
      the current `add_item` default and legacy `addText` produce. */
  lemma PlainTextAgrees(s: string)
    ensures GeckoPush.PlainTextEntry(JStr(s)) == Widgets.TextItem(s, Widgets.DefaultText)
    ensures GeckoPush.PlainTextEntry(JStr(s)) == LegacyWidgets.TextItem(s, LegacyWidgets.PlainText)
  {
  }
}
