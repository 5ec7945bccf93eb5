/**
 * The caption artifact the batch driver writes for one source file: the
 * transcription result with its `transcription` replaced by the merged
 * captions and a `fullTranscription` added.
 */
module Artifact {
  import opened Wrappers

  /** One raw item of the transcription result; only its text is read here. */
  datatype Item = Item(text: string, fromMs: int, toMs: int)

  /** One merged caption as the caption converter returns it. */
  datatype Caption = Caption(text: string, startInSeconds: real)

  /** The values a field of the transcription result or the artifact can hold. */
  datatype Json = Items(items: seq<Item>) | Captions(captions: seq<Caption>) | Str(s: string) | Other(raw: string)

  /** A JSON object: its fields by key. */
  type Object = map<string, Json>

  function TotalLength(texts: seq<string>): nat {
    if texts == [] then 0 else |texts[0]| + TotalLength(texts[1..])
  }

  /** `texts.join(' ')`. */
  function JoinWithSpaces(texts: seq<string>): string {
    if texts == [] then ""
    else if |texts| == 1 then texts[0]
    else texts[0] + " " + JoinWithSpaces(texts[1..])
  }

  /**
   * The joined text begins with the first text, and is as long as all texts
   * together plus one space between each neighbouring pair.
   */
  lemma {:induction false} JoinWithSpacesShape(texts: seq<string>)
    requires texts != []
    ensures |JoinWithSpaces(texts)| == TotalLength(texts) + |texts| - 1
    ensures JoinWithSpaces(texts)[..|texts[0]|] == texts[0]
  {
    if |texts| > 1 {
      JoinWithSpacesShape(texts[1..]);
      var r := JoinWithSpaces(texts);
      assert r == texts[0] + (" " + JoinWithSpaces(texts[1..]));
    }
  }

  /** Joining two non-empty lists is joining each and putting one space between. */
  lemma {:induction false} JoinWithSpacesAppend(a: seq<string>, b: seq<string>)
    requires a != [] && b != []
    ensures JoinWithSpaces(a + b) == JoinWithSpaces(a) + " " + JoinWithSpaces(b)
    decreases |a|
  {
    var ab := a + b;
    assert ab[0] == a[0];
    if |a| == 1 {
      assert ab[1..] == b;
      JoinWithSpacesCons(ab);
    } else {
      assert ab[1..] == a[1..] + b;
      calc {
        JoinWithSpaces(ab);
        { JoinWithSpacesCons(ab); }
        a[0] + " " + JoinWithSpaces(a[1..] + b);
        { JoinWithSpacesAppend(a[1..], b); }
        a[0] + " " + (JoinWithSpaces(a[1..]) + " " + JoinWithSpaces(b));
        { SpacedConcat(a[0], JoinWithSpaces(a[1..]), JoinWithSpaces(b)); }
        (a[0] + " " + JoinWithSpaces(a[1..])) + " " + JoinWithSpaces(b);
        { JoinWithSpacesCons(a); }
        JoinWithSpaces(a) + " " + JoinWithSpaces(b);
      }
    }
  }

  lemma SpacedConcat(h: string, x: string, y: string)
    ensures h + " " + (x + " " + y) == (h + " " + x) + " " + y
  {}

  lemma JoinWithSpacesCons(texts: seq<string>)
    requires |texts| >= 2
    ensures JoinWithSpaces(texts) == texts[0] + " " + JoinWithSpaces(texts[1..])
  {}

  function Texts(items: seq<Item>): (ts: seq<string>)
    ensures |ts| == |items| && forall i :: 0 <= i < |items| ==> ts[i] == items[i].text
  {
    seq(|items|, i requires 0 <= i < |items| => items[i].text)
  }

  /** `convertCaptionsToParagraphs`: the raw items' texts joined by single spaces, in order. */
  function FullTranscription(items: seq<Item>): string {
    JoinWithSpaces(Texts(items))
  }

  /** One more item adds a space and its text at the end. */
  lemma FullTranscriptionSnoc(items: seq<Item>, x: Item)
    requires items != []
    ensures FullTranscription(items + [x]) == FullTranscription(items) + " " + x.text
  {
    assert Texts(items + [x]) == Texts(items) + [x.text];
    JoinWithSpacesAppend(Texts(items), [x.text]);
  }

  /**
   * The joined text of no items is empty, of one item is its text, and of a
   * longer list starts with the first item's text and a space.
   */
  lemma FullTranscriptionShape(items: seq<Item>)
    ensures items == [] ==> FullTranscription(items) == ""
    ensures |items| == 1 ==> FullTranscription(items) == items[0].text
    ensures |items| >= 2 ==> FullTranscription(items) == items[0].text + " " + FullTranscription(items[1..])
  {
    if |items| >= 2 {
      assert Texts(items)[1..] == Texts(items[1..]);
      JoinWithSpacesCons(Texts(items));
    }
  }

  /** The items of the result's `transcription` field, if it holds items. */
  function RawItems(result: Object): (r: Option<seq<Item>>)
    ensures r.Some? <==> "transcription" in result && result["transcription"].Items?
    ensures r.Some? ==> result["transcription"] == Items(r.value)
  {
    if "transcription" in result && result["transcription"].Items?
    then Some(result["transcription"].items) else None
  }

  /** `{...result, transcription: captions, fullTranscription: <joined raw texts>}`. */
  function Build(result: Object, items: seq<Item>, captions: seq<Caption>): (a: Object)
    ensures a.Keys == result.Keys + {"transcription", "fullTranscription"}
    ensures forall k :: k in result && k != "transcription" && k != "fullTranscription" ==> a[k] == result[k]
    ensures a["transcription"] == Captions(captions)
    ensures a["fullTranscription"] == Str(FullTranscription(items))
  {
    result["transcription" := Captions(captions)]["fullTranscription" := Str(FullTranscription(items))]
  }
}
