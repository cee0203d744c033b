/** ClickableForegroundColorSpan: the annotation object that colours a tag and,
    when the tag is tapped, hands the tag's text, trigger included, to its
    listener. In the library its listener is always the HashTagHelper that
    created it, which passes the tag on to the application's listener. */
module ClickableSpan {
  import opened TagScanner
  import opened TagHelper
  import opened InsertionOrder

  /** The paint a span is drawn with; only the attributes a clickable span
      may touch are modelled. */
  class TextPaint {
    var color: int
    var isUnderlineText: bool

    constructor (color: int, isUnderlineText: bool)
      ensures this.color == color && this.isUnderlineText == isUnderlineText
    {
      this.color := color;
      this.isUnderlineText := isUnderlineText;
    }
  }

  class ClickableForegroundColorSpan {
    const color: int
    const listener: HashTagHelper

    /** Construction requires a listener; an absent one is rejected at once. */
    constructor (color: int, listener: HashTagHelper?)
      requires listener != null
      ensures this.color == color && this.listener == listener
    {
      this.color := color;
      this.listener := listener;
    }

    /** Draws with the span's colour and leaves the rest of the paint alone
        (in particular no underline is added, unlike a plain ClickableSpan). */
    method UpdateDrawState(ds: TextPaint)
      modifies ds`color
      ensures ds.color == color
      ensures ds.isUnderlineText == old(ds.isUnderlineText)
    {
      ds.color := color;
    }

    /** A tap on the span, which the host has located at [start, end) of text:
        the listener is sent exactly that substring, trigger included. */
    method OnClick(text: string, start: nat, end: nat)
      requires start <= end <= |text|
      requires listener.listener != null
      modifies listener.listener
      ensures listener.listener.received == old(listener.listener.received) + [text[start..end]]
    {
      listener.OnHashTagClicked(text[start..end]);
    }
  }

  /** What a tap on the k-th tag delivers: the tag as listed with its
      trigger, which is a trigger followed by the tag as listed without it. */
  lemma ClickedTagKeepsTrigger(cc: CharClass, text: string, color: int, k: nat)
    requires k < |Scan(cc, text)|
    ensures var s := Scan(cc, text)[k];
      var anns := Annotate(Scan(cc, text), color, true);
      s.start < s.end <= |text| &&
      IsTrigger(text[s.start]) &&
      text[s.start..s.end] in TagList(text, anns, true) &&
      text[s.start + 1..s.end] in TagList(text, anns, false)
  {
    var spans := Scan(cc, text);
    var s := spans[k];
    var anns := Annotate(spans, color, true);
    ScanSpansAreTags(cc, text, 0);
    assert s in spans;
    TagStringsAt(text, anns, k);
    DedupElements(TagStrings(text, anns, true));
    DedupElements(TagStrings(text, anns, false));
  }

  /** Helper: an annotation inside the text contributes its substring. */
  lemma {:induction false} TagStringsAt(text: string, anns: seq<Annotation>, k: nat)
    requires k < |anns| && InText(text, anns[k])
    ensures TagText(text, anns[k], true) in TagStrings(text, anns, true)
    ensures TagText(text, anns[k], false) in TagStrings(text, anns, false)
  {
    var init := anns[..|anns| - 1];
    if k < |anns| - 1 {
      assert init[k] == anns[k];
      TagStringsAt(text, init, k);
    }
  }
}
