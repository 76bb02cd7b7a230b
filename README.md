# Geckoboard push widget builders in Dafny

This project models the payload builders of a small Python client for the
Geckoboard "push" API. A caller builds a widget's data (funnel stages, a
number with a secondary stat, a Geck-O-Meter reading, RAG values, pie
slices, text lines), the builder checks how many items it holds, and it
renders the mapping keyed by `item` that the client would serialise and
POST. The repository holds three generations of the same idea, each
modelled in its own module:

- `Widgets` (`geckoboard.py`, the current API): one class per widget
  (`Widget`, `Funnel`, `NumberWidget`, `GeckOMeterWidget`, `RAG`,
  `PieChart`, `Text`) whose `Add*` methods append to the `items` field,
  whose `Validate` is the cardinality check and whose `Data` renders the
  payload.
- `LegacyWidgets` (`Geckoboard.py`, the legacy API): `Push`, `Funnel`,
  `Text`, `NumberWidget` with the camelCase mutators.
- `GeckoPush` (`geckopush.py`, the facade): `Gecko.Number`, `Rag`, `Line`
  and `Text` build a payload in a local mapping with loops and return it.
- `Generations`: lemmas relating the three (the current funnel omits the
  keys the legacy one always writes; the legacy `addStat` drops falsy
  numbers; the facade `number` builds what legacy `addStat` builds with the
  prefix `''`).
- `Payload`: the value types shared by all three: a `Json` datatype, `Num`
  (an integer or a float as the caller passed it), `Option`, `Result`,
  `Outcome`, and `MapSeq` with its lemmas.

A payload is a `map<string, Json>`. Raising an exception is a `Fail` /
`Failure` carrying the exception's message. `float(x)` is `AsFloat`, which
keeps the exact value and marks it a float, so a value stored as passed
(`5`) and a coerced one (`5.0`) stay distinct, as they do in the JSON text.
`data()` returns the live item list in Python; here it returns a snapshot.

Behaviours of the code worth noting:

- The current `Funnel` has no item-count check; it inherits the no-op
  `validate`. Only the legacy `Funnel` demands three items.
- Only some numeric fields are made floats. The current `NumberWidget`
  and `PieChart` and the legacy `Funnel` and `NumberWidget` store the
  value as passed, so `add_stat(5)` renders `5`, not `5.0`.
- The current `add_stat` keeps `0` (its test is `is not None`); only the
  legacy `addStat` and the facade `number` drop falsy numbers.
- A number widget has no item limit: every `add_stat` and `spark_line`
  call appends.

## Model

| member | source | states |
|---|---|---|
| `Widgets.Widget.constructor` | geckoboard.py:22-24 | a new widget has its key and no items |
| `Widgets.Widget.Validate` | geckoboard.py:30-31 | the base check never fails |
| `Widgets.Widget.Data` | geckoboard.py:33-34 | the base widget always raises "No data exposed from this widget" |
| `Widgets.Funnel.constructor` | geckoboard.py:44-47 | a new funnel has no items, standard order and shows percentages |
| `Widgets.Funnel.SetOrder` | geckoboard.py:49-50 | replaces the order; items and percentage flag unchanged |
| `Widgets.Funnel.ShowPercentage` | geckoboard.py:52-53 | replaces the percentage flag; items and order unchanged |
| `Widgets.Funnel.AddItem` | geckoboard.py:55-56 | appends exactly one `{label, value}` item with the value as a float; earlier items and flags unchanged |
| `Widgets.Funnel.AddItems` | geckoboard.py:58-60 | appends one item per pair, in input order, after the earlier items |
| `Widgets.Funnel.Validate` | geckoboard.py:30-31 | a funnel accepts any item count |
| `Widgets.Funnel.Data` | geckoboard.py:62-73 | `item` holds the items; `type: reverse` present iff order is REVERSE; `percentage: hide` present iff percentages are hidden; no other key |
| `Widgets.DefaultFunnelRendersItemsOnly` | geckoboard.py:62-73 | with the constructor's defaults the payload is exactly `{item}` |
| `Widgets.StatItems` | geckoboard.py:82-84 | one item per non-None number, number1 first, number2 last, every item with the same text; zero is kept |
| `Widgets.NumberWidget.constructor` | geckoboard.py:79-80 | a new number widget has no items |
| `Widgets.NumberWidget.AddStat` | geckoboard.py:82-84 | appends exactly the stat items after the earlier items |
| `Widgets.NumberWidget.SparkLine` | geckoboard.py:86-87 | appends the whole list of values as one item |
| `Widgets.NumberWidget.Validate` | geckoboard.py:30-31 | never fails |
| `Widgets.NumberWidget.Data` | geckoboard.py:89-92 | the payload is `{item: items}` and nothing else |
| `Widgets.GaugeData` | geckoboard.py:105-116 | keys `item`, `min`, `max`; `item` is the value as a float; `min` and `max` hold a float value and their caption |
| `Widgets.GeckOMeterWidget.constructor` | geckoboard.py:22-24 | a new gauge has no reading |
| `Widgets.GeckOMeterWidget.SetStat` | geckoboard.py:98-103 | overwrites all five fields; the payload afterwards depends on this call's arguments alone, captions default to `''` |
| `Widgets.GeckOMeterWidget.Validate` | geckoboard.py:30-31 | never fails |
| `Widgets.GeckOMeterWidget.Data` | geckoboard.py:105-116 | fails iff no reading was set; otherwise the gauge payload of the current reading |
| `Widgets.RAG.constructor` | geckoboard.py:22-24 | a new RAG widget has no items |
| `Widgets.RAG.AddItem` | geckoboard.py:122-123 | appends one `{text, value}` item with the value as a float |
| `Widgets.RAG.Validate` | geckoboard.py:125-127 | fails iff the count is below 2 or above 3, i.e. passes exactly for 2 or 3 items |
| `Widgets.RAG.Data` | geckoboard.py:129-132 | the payload is `{item: items}` and nothing else |
| `Widgets.PieChart.constructor` | geckoboard.py:22-24 | a new pie chart has no items |
| `Widgets.PieChart.AddItem` | geckoboard.py:138-139 | appends one slice, value unconverted, color defaulting to None |
| `Widgets.PieChart.AddItems` | geckoboard.py:141-143 | appends one slice per pair, in order, each with color None |
| `Widgets.PieChart.Validate` | geckoboard.py:145-147 | fails iff there are no items |
| `Widgets.PieChart.Data` | geckoboard.py:149-152 | the payload is `{item: items}` and nothing else |
| `Widgets.Text.constructor` | geckoboard.py:22-24 | a new text widget has no items |
| `Widgets.Text.AddItem` | geckoboard.py:163-164 | appends one `{text, type}` item, type defaulting to DEFAULT = 0 |
| `Widgets.Text.Validate` | geckoboard.py:30-31 | never fails |
| `Widgets.Text.Data` | geckoboard.py:166-169 | the payload is `{item: items}` and nothing else |
| `LegacyWidgets.Push.Validate` | Geckoboard.py:17-18 | the base check always fails |
| `LegacyWidgets.Push.Data` | Geckoboard.py:20-21 | the base payload always fails |
| `LegacyWidgets.Funnel.constructor` | Geckoboard.py:24-28 | a new funnel has no items, type `standard` and percentage `show` |
| `LegacyWidgets.Funnel.StandardOrder` | Geckoboard.py:31-32 | sets type `standard`; the last order call wins |
| `LegacyWidgets.Funnel.ReverseOrder` | Geckoboard.py:34-35 | sets type `reverse`; the last order call wins |
| `LegacyWidgets.Funnel.ShowPercentage` | Geckoboard.py:38-39 | sets percentage `show`; the last percentage call wins |
| `LegacyWidgets.Funnel.HidePercentage` | Geckoboard.py:41-42 | sets percentage `hide`; the last percentage call wins |
| `LegacyWidgets.Funnel.AddItem` | Geckoboard.py:44-45 | appends one `{label, value}` item, value unconverted |
| `LegacyWidgets.Funnel.Validate` | Geckoboard.py:47-49 | fails iff there are fewer than 3 items |
| `LegacyWidgets.Funnel.Data` | Geckoboard.py:51-56 | always exactly the keys `type`, `percentage` and `item` |
| `LegacyWidgets.Text.constructor` | Geckoboard.py:59-61 | a new text widget has no items |
| `LegacyWidgets.Text.AddText` | Geckoboard.py:63-64 | appends exactly one item with type 0 |
| `LegacyWidgets.Text.AddAlertText` | Geckoboard.py:66-67 | appends exactly one item with type 1 |
| `LegacyWidgets.Text.AddInfoText` | Geckoboard.py:69-70 | appends exactly one item with type 2 |
| `LegacyWidgets.Text.AddTyped` | Geckoboard.py:72-73 | appends exactly one `{text, type}` item |
| `LegacyWidgets.Text.Validate` | Geckoboard.py:75-76 | never fails |
| `LegacyWidgets.Text.Data` | Geckoboard.py:78-81 | the payload is `{item: items}` and nothing else |
| `LegacyWidgets.StatItems` | Geckoboard.py:88-90 | one item per truthy number (None and zero dropped), number1 first, every item with text = prefix |
| `LegacyWidgets.NumberWidget.constructor` | Geckoboard.py:84-86 | a new number widget has no items |
| `LegacyWidgets.NumberWidget.AddStat` | Geckoboard.py:88-90 | appends exactly the truthy stat items after the earlier items |
| `LegacyWidgets.NumberWidget.SparkLine` | Geckoboard.py:92-93 | appends the values list as a single item: the count grows by one |
| `LegacyWidgets.NumberWidget.Validate` | Geckoboard.py:95-96 | never fails |
| `LegacyWidgets.NumberWidget.Data` | Geckoboard.py:98-101 | the payload is `{item: items}` and nothing else |
| `GeckoPush.Append` | geckopush.py:21 | `data['item'].append(x)`: adds x at the end of the item list, other keys unchanged |
| `GeckoPush.Gecko.constructor` | geckopush.py:4-5 | keeps the API key |
| `GeckoPush.Gecko.Number` | geckopush.py:12-16 | 0 to 2 items, one per truthy argument, in argument order, each with text `''` |
| `GeckoPush.Gecko.Rag` | geckopush.py:18-22 | one item per argument, in order, value = item[0], text = item[1], no count check; an argument shorter than 2 raises |
| `GeckoPush.Gecko.Line` | geckopush.py:24-28 | the items are the values in order; `settings` holds the keyword arguments |
| `GeckoPush.Gecko.Text` | geckopush.py:30-37 | one item per argument, in order: a mapping copied as it is, anything else `{text, type: 0}` |
| `Generations.FunnelOmitsDefaultKeys` | geckoboard.py:62-73 | the current funnel's payload is the legacy funnel's payload without the keys holding the defaults `standard` and `show` |
| `Generations.DropFalsy` | Geckoboard.py:89-90 | an argument survives iff it is truthy |
| `Generations.LegacyStatDropsFalsy` | Geckoboard.py:88-90 | legacy `addStat` appends what current `add_stat` appends with every falsy number made None |
| `Generations.ZeroStatKeptOnlyByCurrent` | geckoboard.py:83 | a zero stat is one item for the current API and none for the legacy one |
| `Generations.FacadeNumberIsLegacyStat` | geckopush.py:12-15 | the facade `number`'s items are legacy `addStat`'s items with prefix `''` |
| `Generations.PlainTextAgrees` | geckopush.py:36 | a plain string becomes the same item in all three generations |
| `Payload.Truthy` | Geckoboard.py:89-90 | Python's `if n:` on an optional number: false exactly for None, integer 0 and float 0.0 |
| `Payload.ItemPayload` | geckoboard.py:89-92 | `{'item': items}`: exactly the key `item`, holding the items |
| `Payload.MapSeq` | geckoboard.py:59-60 | the `for key, value in tuples` loop's output: one image per input, so the length is kept |
| `Widgets.FunnelItem` | geckoboard.py:56 | the stage dict: exactly `label` and `value`, the value a float of the input |
| `Widgets.FunnelPair` | geckoboard.py:59-60 | one `(label, value)` pair gives the stage `add_item` builds |
| `Widgets.StatItem` | geckoboard.py:83-84 | the stat dict: exactly `text` (None or a string) and `value` as passed |
| `Widgets.RagItem` | geckoboard.py:123 | the RAG dict: exactly `text` and `value`, the value a float of the input |
| `Widgets.PieItem` | geckoboard.py:139 | the slice dict: exactly `label`, `value` as passed and `color` (None or a string) |
| `Widgets.PiePair` | geckoboard.py:142-143 | one pair gives the slice `add_item` builds, with color None |
| `Widgets.TextItem` | geckoboard.py:164 | the text dict: exactly `text` and `type` |
| `LegacyWidgets.FunnelItem` | Geckoboard.py:45 | the stage dict: exactly `label` and `value`, value as passed |
| `LegacyWidgets.TextItem` | Geckoboard.py:73 | the text dict: exactly `text` and `type` |
| `LegacyWidgets.StatItem` | Geckoboard.py:89-90 | the stat dict: exactly `text` (the prefix) and `value` as passed |
| `GeckoPush.NumberEntry` | geckopush.py:14-15 | the facade number dict: exactly `value` as passed and `text` `''` |
| `GeckoPush.PlainTextEntry` | geckopush.py:36 | the facade text dict for a non-mapping argument: exactly `text` and `type` 0 |
| `Payload.AsFloat` | geckoboard.py:56 | `float(x)` keeps the value and makes it a float |
| `Payload.MapSeqAt` | geckoboard.py:58-60 | the k-th mapped element is the image of the k-th input |
| `Payload.MapSeqSnoc` | geckoboard.py:59-60 | handling one more pair appends its item |

## Left out

- `Gecko.push` in all three files: the HTTP POST, `raise_for_status`, the status and `success` checks and `verify=False` are network I/O against a remote service. The current and legacy `push` call `validate` before sending; that ordering is not modelled.
- Widgets.Funnel.AddItems: the pairs are typed `(string, Num)`. In Python `for key, value in tuples` raises ValueError on an entry that is not a two-element pair, after the earlier pairs have been appended. The model does not capture that error or the partly updated list.
- Widgets.PieChart.AddItems: the same; an entry that is not a pair raises ValueError, leaving the earlier slices appended, and this is not modelled.
- LegacyWidgets.Push.Validate: the source raises NotImplementedError while every other check raises ValueError. `Fail(message)` keeps the message but not the exception class, so a caller catching only ValueError is not modelled.
- Widgets.Funnel.AddItem: `float(value)` also converts numeric strings and raises on non-numeric objects; `Num` admits only integers and floats, so neither the conversion nor that error is modelled.
- Widgets.RAG.AddItem: the same `float(value)` conversion and error are not modelled.
- Widgets.GeckOMeterWidget.Data: the `float(...)` of the stored value and bounds likewise; a non-numeric reading would raise there, which is not modelled.
- JSON encoding (`json.dumps`): payloads are `Json` values, not text.
- IEEE floating point: `float(x)` is the exact value, so rounding of large integers is not modelled.
- `heartbeat` and `beater` in the facade: they read the wall clock, format it with `strftime` and return a closure.
- Python truthiness of arbitrary objects: only `None` and numeric zero are falsy here (`Truthy`).
- Aliasing: `data()` returns the live `_items` list and `values=[]` is a shared mutable default in Python; the model renders a snapshot and uses a fresh empty list.
- The `key` property and `widgetKey()` accessor only feed `push`; the key is kept as a field and not read.
- GeckoPush.Gecko.Number: the facade builders take `widget_key` only to pass it to `push`; the model drops that parameter and returns the payload.
- GeckoPush.Gecko.Rag: arguments are modelled as sequences; Python accepts any indexable object, and the error message depends on its type.
- Widgets.Funnel.ShowPercentage: the flag is a `bool`; Python compares `== False`, which a caller could also meet with `0`.
- Texts, labels and captions are strings; Python accepts any object there.
- `GeckOMeterWidget` inherits an item list it never uses; the model keeps the field and no method touches it.
