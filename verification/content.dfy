/**
  `_serialize_content`: turns the items a tool returned into JSON content blocks,
  one block per item, in the items' order.
 */
module Content {
  import opened Json

  /**
    A tool-result item, classified in the order the bridge probes it: an object
    with `model_dump` first, then a plain dict, then anything else, which is
    carried as the text `str()` gives for it.
   */
  datatype ContentItem =
    | Structured(dump: map<string, Json>)
    | Mapping(fields: map<string, Json>)
    | Plain(text: string)

  /** `{"type": "text", "text": text}`. */
  function TextBlock(text: string): map<string, Json> {
    map["type" := Str("text"), "text" := Str(text)]
  }

  /** The block a single item becomes. */
  function Block(item: ContentItem): map<string, Json> {
    match item
    case Structured(dump) => dump
    case Mapping(fields) => fields
    case Plain(text) => TextBlock(text)
  }

  /** `_serialize_content(items)`. */
  function SerializeContent(items: seq<ContentItem>): (blocks: seq<map<string, Json>>)
    ensures |blocks| == |items|
    ensures forall i :: 0 <= i < |items| && items[i].Structured? ==> blocks[i] == items[i].dump
    ensures forall i :: 0 <= i < |items| && items[i].Mapping? ==> blocks[i] == items[i].fields
    ensures forall i :: 0 <= i < |items| && items[i].Plain? ==> blocks[i] == TextBlock(items[i].text)
  {
    if |items| == 0 then []
    else [Block(items[0])] + SerializeContent(items[1..])
  }

  /** Serializing a concatenation serializes each part in place: nothing is reordered or merged. */
  lemma {:induction false} SerializeAppend(a: seq<ContentItem>, b: seq<ContentItem>)
    ensures SerializeContent(a + b) == SerializeContent(a) + SerializeContent(b)
  {
    if |a| == 0 {
      assert a + b == b;
    } else {
      assert (a + b)[1..] == a[1..] + b;
      SerializeAppend(a[1..], b);
    }
  }

  /** Strings returned by a tool, as content items. */
  function TextItems(texts: seq<string>): seq<ContentItem> {
    seq(|texts|, i requires 0 <= i < |texts| => Plain(texts[i]))
  }

  /** The `text` field of each text block. */
  function BlockTexts(blocks: seq<map<string, Json>>): seq<string>
    requires forall i :: 0 <= i < |blocks| ==> "text" in blocks[i] && blocks[i]["text"].Str?
  {
    seq(|blocks|, i requires 0 <= i < |blocks| => blocks[i]["text"].s)
  }

  /** Reading the text back out of the serialized strings of a tool gives the strings, in order. */
  lemma TextRoundTrip(texts: seq<string>)
    ensures var blocks := SerializeContent(TextItems(texts));
            (forall i :: 0 <= i < |blocks| ==> "text" in blocks[i] && blocks[i]["text"].Str?) &&
            BlockTexts(blocks) == texts
  {
  }

  /** A structured item, a dict and a plain value come out as three blocks in that order. */
  lemma MixedItems(dump: map<string, Json>, text: string)
    ensures SerializeContent([Structured(dump), Mapping(map["a" := Int(1)]), Plain(text)])
            == [dump, map["a" := Int(1)], TextBlock(text)]
  {
  }
}
