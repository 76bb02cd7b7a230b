/** The facade client (geckopush.py): one method per widget kind, each
    building a `{'item': [...]}` payload in a local mapping and growing its
    list one entry at a time. The payload is what the method would push. */
module GeckoPush {
  import opened Payload

  /** `data['item'].append(x)`. */
  function Append(data: map<string, Json>, x: Json): (r: map<string, Json>)
    requires "item" in data && data["item"].JArr?
    ensures r.Keys == data.Keys
    ensures r["item"] == JArr(data["item"].elems + [x])
    ensures forall k :: k in data && k != "item" ==> r[k] == data[k]
  {
    data["item" := JArr(data["item"].elems + [x])]
  }

  /** The number entry of the facade: the value as passed and an empty text. */
  function NumberEntry(n: Num): (j: Json)
    ensures j.JObj? && j.fields.Keys == {"value", "text"}
    ensures j.fields["value"] == AsJson(n) && j.fields["text"] == JStr("")
  {
    JObj(map["value" := AsJson(n), "text" := JStr("")])
  }

  /** A text argument that is not a mapping becomes a plain text item. */
  function PlainTextEntry(t: Json): (j: Json)
    ensures j.JObj? && j.fields.Keys == {"text", "type"}
    ensures j.fields["text"] == t && j.fields["type"] == JInt(0)
  {
    JObj(map["text" := t, "type" := JInt(0)])
  }

  class Gecko {
    const apiKey: string

    constructor (apiKey: string)
      ensures this.apiKey == apiKey
    {
      this.apiKey := apiKey;
    }

    /** One entry per truthy argument, `number1` first, each with text `''`. */
    method Number(number1: Option<Num>, number2: Option<Num> := None) returns (data: map<string, Json>)
      ensures data.Keys == {"item"} && data["item"].JArr?
      ensures |data["item"].elems| == (if Truthy(number1) then 1 else 0) + (if Truthy(number2) then 1 else 0)
      ensures Truthy(number1) ==> data["item"].elems[0] == NumberEntry(number1.value)
      ensures Truthy(number2) ==> data["item"].elems[|data["item"].elems| - 1] == NumberEntry(number2.value)
      ensures forall j :: 0 <= j < |data["item"].elems| ==>
                data["item"].elems[j].JObj? && data["item"].elems[j].fields["text"] == JStr("")
    {
      data := map["item" := JArr([])];
      if Truthy(number1) {
        data := Append(data, NumberEntry(number1.value));
      }
      if Truthy(number2) {
        data := Append(data, NumberEntry(number2.value));
      }
    }

    /** One entry per argument, in order, with `value = item[0]` and
        `text = item[1]`; the count is not checked. An argument with fewer
        than two elements raises an index error and nothing is built. */
    method Rag(items: seq<seq<Json>>) returns (r: Result<map<string, Json>>)
      ensures r.Success? <==> forall i :: 0 <= i < |items| ==> |items[i]| >= 2
      ensures r.Failure? ==> r.message == "tuple index out of range"
      ensures r.Success? ==> r.value.Keys == {"item"} && r.value["item"].JArr?
      ensures r.Success? ==> |r.value["item"].elems| == |items|
      ensures r.Success? ==> forall i :: 0 <= i < |items| ==>
                r.value["item"].elems[i] == JObj(map["value" := items[i][0], "text" := items[i][1]])
    {
      var data := map["item" := JArr([])];
      for i := 0 to |items|
        invariant forall j :: 0 <= j < i ==> |items[j]| >= 2
        invariant data.Keys == {"item"} && data["item"].JArr?
        invariant |data["item"].elems| == i
        invariant forall j :: 0 <= j < i ==>
                    data["item"].elems[j] == JObj(map["value" := items[j][0], "text" := items[j][1]])
      {
        if |items[i]| < 2 {
          return Failure("tuple index out of range");
        }
        data := Append(data, JObj(map["value" := items[i][0], "text" := items[i][1]]));
      }
      return Success(data);
    }

    /** The values, in order, as the item list; the keyword arguments as
        `settings`. */
    method Line(values: seq<Json>, settings: map<string, Json>) returns (data: map<string, Json>)
      ensures data.Keys == {"item", "settings"}
      ensures data["item"] == JArr(values)
      ensures data["settings"] == JObj(settings)
    {
      data := map["item" := JArr([]), "settings" := JObj(settings)];
      for i := 0 to |values|
        invariant data.Keys == {"item", "settings"}
        invariant data["item"] == JArr(values[..i])
        invariant data["settings"] == JObj(settings)
      {
        data := Append(data, values[i]);
        assert values[..i + 1] == values[..i] + [values[i]];
      }
      assert values[..|values|] == values;
    }

    /** One entry per argument, in order: a mapping is copied as it is,
        anything else becomes `{text, type: 0}`. */
    method Text(texts: seq<Json>) returns (data: map<string, Json>)
      ensures data.Keys == {"item"} && data["item"].JArr?
      ensures |data["item"].elems| == |texts|
      ensures forall i :: 0 <= i < |texts| && texts[i].JObj? ==> data["item"].elems[i] == texts[i]
      ensures forall i :: 0 <= i < |texts| && !texts[i].JObj? ==> data["item"].elems[i] == PlainTextEntry(texts[i])
    {
      data := map["item" := JArr([])];
      for i := 0 to |texts|
        invariant data.Keys == {"item"} && data["item"].JArr?
        invariant |data["item"].elems| == i
        invariant forall j :: 0 <= j < i && texts[j].JObj? ==> data["item"].elems[j] == texts[j]
        invariant forall j :: 0 <= j < i && !texts[j].JObj? ==> data["item"].elems[j] == PlainTextEntry(texts[j])
      {
        if texts[i].JObj? {
          data := Append(data, texts[i]);
        } else {
          data := Append(data, PlainTextEntry(texts[i]));
        }
      }
    }
  }
}
