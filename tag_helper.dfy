/** HashTagHelper: binds once to a text view, keeps the view's tag
    annotations equal to the scanner's spans over its current text by erasing
    and rebuilding them on every non-empty change, lists the distinct tags, and
    forwards tag clicks to the application's listener.

    The view's text buffer is modelled by the helper's own `text` field and the
    annotations it carries by the `annotations` field, in insertion order. */
module TagHelper {
  import opened TagScanner
  import opened InsertionOrder

  datatype Option<T> = None | Some(value: T)

  /** The exceptions the helper throws. */
  datatype Failure =
    | AlreadyBound    // RuntimeException from a second `handle`
    | NullTextView    // NullPointerException from dereferencing an absent view

  datatype Result<T> = Ok(value: T) | Err(failure: Failure)

  /** A colour annotation over [start, end) of the buffer; `clickable` tells
      a ClickableForegroundColorSpan from a plain ForegroundColorSpan. */
  datatype Annotation = Annotation(start: nat, end: nat, color: int, clickable: bool)

  /** One annotation per span, all of the given colour and kind, in span order. */
  function Annotate(spans: seq<Span>, color: int, clickable: bool): seq<Annotation> {
    seq(|spans|, k requires 0 <= k < |spans| => Annotation(spans[k].start, spans[k].end, color, clickable))
  }

  /** The annotation lies inside the text, so its substring can be taken. */
  predicate InText(text: string, a: Annotation) {
    a.start < a.end <= |text|
  }

  /** The substring an annotation covers, from its start or, without the
      trigger, from one past its start, up to its end. */
  function TagText(text: string, a: Annotation, withHashes: bool): string
    requires InText(text, a)
  {
    text[(if withHashes then a.start else a.start + 1)..a.end]
  }

  /** The substrings of the annotations that lie inside the text, in
      annotation order, duplicates kept. */
  function TagStrings(text: string, anns: seq<Annotation>, withHashes: bool): seq<string> {
    if anns == [] then []
    else
      var init := TagStrings(text, anns[..|anns| - 1], withHashes);
      var a := anns[|anns| - 1];
      if InText(text, a) then init + [TagText(text, a, withHashes)] else init
  }

  /** The tag list: the distinct substrings in order of first occurrence. */
  function TagList(text: string, anns: seq<Annotation>, withHashes: bool): seq<string> {
    Dedup(TagStrings(text, anns, withHashes))
  }

  /** When every annotation lies inside the text, the k-th tag string is the
      substring of the k-th annotation. */
  lemma {:induction false} TagStringsInText(text: string, anns: seq<Annotation>, withHashes: bool)
    requires forall k :: 0 <= k < |anns| ==> InText(text, anns[k])
    ensures |TagStrings(text, anns, withHashes)| == |anns|
    ensures forall k :: 0 <= k < |anns| ==> TagStrings(text, anns, withHashes)[k] == TagText(text, anns[k], withHashes)
  {
    if anns != [] {
      var init := anns[..|anns| - 1];
      TagStringsInText(text, init, withHashes);
    }
  }

  /** Position by position, the tag without its trigger is the tag with it
      minus its first character, which is the character at the annotation's start. */
  lemma {:induction false} TagStringsDropTrigger(text: string, anns: seq<Annotation>)
    ensures |TagStrings(text, anns, false)| == |TagStrings(text, anns, true)|
    ensures forall k :: 0 <= k < |TagStrings(text, anns, true)| ==>
      |TagStrings(text, anns, true)[k]| > 0 &&
      TagStrings(text, anns, true)[k] == [TagStrings(text, anns, true)[k][0]] + TagStrings(text, anns, false)[k]
  {
    if anns != [] {
      TagStringsDropTrigger(text, anns[..|anns| - 1]);
      var a := anns[|anns| - 1];
      if InText(text, a) {
        assert TagText(text, a, true) == [text[a.start]] + TagText(text, a, false);
      }
    }
  }

  /** Dropping the trigger maps the tag list with triggers onto the tag list
      without them: a string is listed without triggers exactly when some
      listed tag with its trigger ends in it. Two tags differing only in their
      trigger collapse to one entry, so the lists need not correspond
      position by position. */
  lemma TagListDropTrigger(text: string, anns: seq<Annotation>)
    ensures forall t :: t in TagList(text, anns, false) <==>
      exists u :: u in TagList(text, anns, true) && |u| > 0 && t == u[1..]
  {
    var plain := TagStrings(text, anns, false);
    var hashed := TagStrings(text, anns, true);
    TagStringsDropTrigger(text, anns);
    DedupElements(plain);
    DedupElements(hashed);
    forall t
      ensures t in TagList(text, anns, false) <==>
        exists u :: u in TagList(text, anns, true) && |u| > 0 && t == u[1..]
    {
      if t in TagList(text, anns, false) {
        var k :| 0 <= k < |plain| && plain[k] == t;
        assert hashed[k] in hashed;
        assert hashed[k][1..] == t;
      }
      if exists u :: u in TagList(text, anns, true) && |u| > 0 && t == u[1..] {
        var u :| u in TagList(text, anns, true) && |u| > 0 && t == u[1..];
        var k :| 0 <= k < |hashed| && hashed[k] == u;
        assert plain[k] == t;
        assert plain[k] in plain;
      }
    }
  }

  /** Every tag listed with its trigger, for annotations that mark the
      scanner's spans, is a trigger followed by characters that may continue
      a tag body. */
  lemma TagListOfScanAreTags(cc: CharClass, text: string, color: int, clickable: bool)
    ensures forall t :: t in TagList(text, Annotate(Scan(cc, text), color, clickable), true) ==>
      |t| > 0 && IsTrigger(t[0]) && forall m :: 0 < m < |t| ==> IsTagChar(cc, t[m])
  {
    var anns := Annotate(Scan(cc, text), color, clickable);
    ScanSpansAreTags(cc, text, 0);
    TagStringsOfTags(cc, text, anns);
    DedupElements(TagStrings(text, anns, true));
  }

  /** Helper for TagListOfScanAreTags, by induction on the annotations. */
  lemma {:induction false} TagStringsOfTags(cc: CharClass, text: string, anns: seq<Annotation>)
    requires forall a :: a in anns ==> IsTagSpan(cc, text, Span(a.start, a.end))
    ensures forall t :: t in TagStrings(text, anns, true) ==>
      |t| > 0 && IsTrigger(t[0]) && forall m :: 0 < m < |t| ==> IsTagChar(cc, t[m])
  {
    if anns != [] {
      var init := anns[..|anns| - 1];
      assert forall a :: a in init ==> a in anns;
      TagStringsOfTags(cc, text, init);
      var a := anns[|anns| - 1];
      assert a in anns;
      if InText(text, a) {
        var t := TagText(text, a, true);
        assert forall m :: 0 < m < |t| ==> t[m] == text[a.start + m];
      }
    }
  }

  /** The annotations a scan installs lie inside the text, each on a tag,
      and never overlap: each ends no later than the next one starts. */
  lemma ScanAnnotationsDisjoint(cc: CharClass, text: string, color: int, clickable: bool)
    ensures var anns := Annotate(Scan(cc, text), color, clickable);
      (forall k :: 0 <= k < |anns| ==> InText(text, anns[k]) && IsTrigger(text[anns[k].start])) &&
      (forall a, b :: 0 <= a < b < |anns| ==> anns[a].end <= anns[b].start)
  {
    var spans := Scan(cc, text);
    ScanSpansAreTags(cc, text, 0);
    ScanOrdered(cc, text, 0);
    assert forall k :: 0 <= k < |spans| ==> spans[k] in spans;
  }

  /** The application's click listener. It stands for any implementation of
      OnHashTagClickListener and records the tags delivered to it. */
  class OnHashTagClickListener {
    var received: seq<string>

    constructor ()
      ensures received == []
    {
      received := [];
    }

    method OnHashTagClicked(hashTag: string)
      modifies this
      ensures received == old(received) + [hashTag]
    {
      received := received + [hashTag];
    }
  }

  /** The extra tag characters as the helper stores them: a copy of the ones
      given, or none when none were given. */
  method CopyAdditionalChars(additional: Option<seq<char>>) returns (chars: seq<char>)
    ensures additional.None? ==> chars == []
    ensures additional.Some? ==> chars == additional.value
  {
    chars := [];
    if additional.Some? {
      var given := additional.value;
      for k := 0 to |given|
        invariant chars == given[..k]
      {
        chars := chars + [given[k]];
      }
    }
  }

  class HashTagHelper {
    const charClass: CharClass
    const color: int
    const listener: OnHashTagClickListener?
    /** Whether a text view has been bound (the source's mTextView != null). */
    var bound: bool
    /** The bound view's current text. */
    var text: string
    /** The view's annotations, in the order they were added. */
    var annotations: seq<Annotation>
    /** The text the annotations were last built from. */
    ghost var scanned: string

    /** The annotations a full scan of t installs. */
    function Colorized(t: string): seq<Annotation> {
      Annotate(Scan(charClass, t), color, listener != null)
    }

    /** The annotations are exactly those of a scan of the last non-empty
        text, and the view's text is that text or empty. */
    ghost predicate Valid()
      reads this
    {
      listener != null &&
      (bound || (text == [] && scanned == [])) &&
      (text == scanned || text == []) &&
      annotations == Colorized(scanned)
    }

    constructor (color: int, listener: OnHashTagClickListener, additionalHashTagCharacters: Option<seq<char>>,
                 isLetterOrDigit: char -> bool)
      ensures Valid() && !bound
      ensures this.color == color && this.listener == listener
      ensures charClass.isLetterOrDigit == isLetterOrDigit
      ensures additionalHashTagCharacters.None? ==> charClass.extras == []
      ensures additionalHashTagCharacters.Some? ==> charClass.extras == additionalHashTagCharacters.value
    {
      var extras := CopyAdditionalChars(additionalHashTagCharacters);
      this.charClass := CharClass(isLetterOrDigit, extras);
      this.color := color;
      this.listener := listener;
      bound := false;
      text := [];
      annotations := [];
      scanned := [];
    }

    /** Binds the helper to a view, given by its current text, and scans that
        text. A second call throws and changes nothing; so does a first call
        with no view. */
    method Handle(view: Option<string>) returns (thrown: Option<Failure>)
      requires Valid()
      modifies this
      ensures Valid()
      ensures old(bound) ==> thrown == Some(AlreadyBound) && unchanged(this)
      ensures !old(bound) && view.None? ==> thrown == Some(NullTextView) && unchanged(this)
      ensures !old(bound) && view.Some? ==>
        thrown == None && bound && text == view.value && annotations == Colorized(view.value)
    {
      if !bound {
        if view.None? {
          // mTextView stays null and the next dereference throws
          return Some(NullTextView);
        }
        bound := true;
        text := view.value;
        SetColorsToAllHashTags(text);
        scanned := text;
        thrown := None;
      } else {
        thrown := Some(AlreadyBound);
      }
    }

    /** The text watcher: the host has changed the view's text to newText.
        A non-empty text has its annotations rebuilt from scratch; an empty
        one leaves them as they were. */
    method OnTextChanged(newText: string)
      requires Valid() && bound
      modifies this
      ensures Valid() && bound && text == newText
      ensures newText == [] ==> annotations == old(annotations)
      ensures newText != [] ==> annotations == Colorized(newText)
    {
      text := newText;
      if |newText| > 0 {
        EraseAndColorizeAllText(newText);
        scanned := newText;
      }
    }

    /** Removes every annotation, one at a time, then scans t afresh. */
    method EraseAndColorizeAllText(t: string)
      modifies this`annotations
      ensures annotations == Colorized(t)
    {
      var spans := annotations;
      var k := 0;
      while k < |spans|
        invariant 0 <= k <= |spans|
        invariant annotations == spans[k..]
      {
        assert annotations[0] == spans[k];
        annotations := annotations[1..];
        k := k + 1;
      }
      SetColorsToAllHashTags(t);
    }

    /** The scan: walks a cursor over t, adding an annotation for each tag
        and resuming at its end. */
    method SetColorsToAllHashTags(t: string)
      modifies this`annotations
      ensures annotations == old(annotations) + Colorized(t)
    {
      var index := 0;
      ghost var emitted: seq<Span> := [];
      while index < |t| - 1
        invariant index <= |t|
        invariant Scan(charClass, t) == emitted + ScanFrom(charClass, t, index)
        invariant annotations == old(annotations) + Annotate(emitted, color, listener != null)
        decreases |t| - index
      {
        var sign := t[index];
        var nextNotLetterDigitCharIndex := index + 1;
        if sign == '#' || sign == '@' {
          nextNotLetterDigitCharIndex := FindNextValidHashTagChar(t, index);
          SetColorForHashTagToTheEnd(index, nextNotLetterDigitCharIndex);
          emitted := emitted + [Span(index, nextNotLetterDigitCharIndex)];
        }
        index := nextNotLetterDigitCharIndex;
      }
    }

    /** The end of the tag whose trigger is at t[start]: the first later
        offset whose character may not continue a tag body, or |t|. */
    method FindNextValidHashTagChar(t: string, start: nat) returns (r: nat)
      requires start < |t|
      ensures start < r <= |t|
      ensures forall m :: start < m < r ==> IsTagChar(charClass, t[m])
      ensures r == |t| || !IsTagChar(charClass, t[r])
      ensures r == TagEndFrom(charClass, t, start + 1)
    {
      var nonLetterDigitCharIndex := -1;
      for index := start + 1 to |t|
        invariant nonLetterDigitCharIndex == -1
        invariant forall m :: start < m < index ==> IsTagChar(charClass, t[m])
      {
        var sign := t[index];
        var isValidSign := charClass.isLetterOrDigit(sign) || sign in charClass.extras;
        if !isValidSign {
          nonLetterDigitCharIndex := index;
          break;
        }
      }
      if nonLetterDigitCharIndex == -1 {
        nonLetterDigitCharIndex := |t|;
      }
      r := nonLetterDigitCharIndex;
      TagEndFromUnique(charClass, t, start + 1, r);
    }

    /** Adds the annotation for one tag: clickable, since a listener is set. */
    method SetColorForHashTagToTheEnd(startIndex: nat, nextNotLetterDigitCharIndex: nat)
      modifies this`annotations
      ensures annotations == old(annotations) + [Annotation(startIndex, nextNotLetterDigitCharIndex, color, listener != null)]
    {
      annotations := annotations + [Annotation(startIndex, nextNotLetterDigitCharIndex, color, listener != null)];
    }

    /** The distinct tags of the view, in order of first occurrence, with or
        without their trigger; throws when no view is bound. */
    method CollectHashTags(withHashes: bool) returns (r: Result<seq<string>>)
      ensures !bound ==> r == Err(NullTextView)
      ensures bound ==> r == Ok(TagList(text, annotations, withHashes))
    {
      if !bound {
        return Err(NullTextView);
      }
      var hashTags: seq<string> := [];
      for k := 0 to |annotations|
        invariant hashTags == TagList(text, annotations[..k], withHashes)
      {
        var a := annotations[k];
        ghost var before := TagStrings(text, annotations[..k], withHashes);
        assert annotations[..k + 1][..k] == annotations[..k];
        if a.start < a.end <= |text| {
          var tag := text[(if withHashes then a.start else a.start + 1)..a.end];
          assert TagStrings(text, annotations[..k + 1], withHashes) == before + [tag];
          assert (before + [tag])[..|before|] == before;
          if tag !in hashTags {
            hashTags := hashTags + [tag];
          }
        }
      }
      assert annotations[..|annotations|] == annotations;
      r := Ok(hashTags);
    }

    /** The public tag list: the tags without their trigger. */
    method GetAllHashTags() returns (r: Result<seq<string>>)
      ensures !bound ==> r == Err(NullTextView)
      ensures bound ==> r == Ok(TagList(text, annotations, false))
    {
      r := CollectHashTags(false);
    }

    /** Forwards a clicked tag to the application's listener. */
    method OnHashTagClicked(hashTag: string)
      requires listener != null
      modifies listener
      ensures listener.received == old(listener.received) + [hashTag]
    {
      listener.OnHashTagClicked(hashTag);
    }
  }

  /** HashTagHelper.Creator.create without extra tag characters. */
  method Create(color: int, listener: OnHashTagClickListener, isLetterOrDigit: char -> bool)
    returns (helper: HashTagHelper)
    ensures fresh(helper) && helper.Valid() && !helper.bound
    ensures helper.color == color && helper.listener == listener && helper.charClass.extras == []
  {
    helper := new HashTagHelper(color, listener, None, isLetterOrDigit);
  }

  /** HashTagHelper.Creator.create with extra tag characters. */
  method CreateWithChars(color: int, listener: OnHashTagClickListener, additionalHashTagChars: seq<char>,
                         isLetterOrDigit: char -> bool)
    returns (helper: HashTagHelper)
    ensures fresh(helper) && helper.Valid() && !helper.bound
    ensures helper.color == color && helper.listener == listener
    ensures helper.charClass.extras == additionalHashTagChars
  {
    helper := new HashTagHelper(color, listener, Some(additionalHashTagChars), isLetterOrDigit);
  }
}
