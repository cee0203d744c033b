/** Worked examples of the scan and of the tag list. The character classifier
    stays abstract: each example asks only what it needs of it (that the
    letters of its tags are letters and that its separators are not). */
module ScanExamples {
  import opened TagScanner
  import opened TagHelper
  import opened InsertionOrder

  /** With extra characters '$', '_' and '-', "#this_is-a$tag!" is one tag
      that stops just before the '!'. */
  lemma ExtraCharsExtendTag(cc: CharClass)
    requires cc.extras == ['$', '_', '-']
    requires forall c :: c in "thisatg" ==> cc.isLetterOrDigit(c)
    requires !cc.isLetterOrDigit('!')
    ensures Scan(cc, "#this_is-a$tag!") == [Span(0, 14)]
  {
    var text := "#this_is-a$tag!";
    assert forall m :: 0 < m < 14 ==> text[m] in "thisatg" || text[m] in cc.extras;
    ScanAtTrigger(cc, text, 0, 14);
  }

  /** Without extra characters the same text highlights only "#this". */
  lemma NoExtraCharsStopsAtUnderscore(cc: CharClass)
    requires cc.extras == []
    requires forall c :: c in "this" ==> cc.isLetterOrDigit(c)
    requires !cc.isLetterOrDigit('_')
    ensures Scan(cc, "#this_is-a$tag!") == [Span(0, 5)]
  {
    var text := "#this_is-a$tag!";
    assert forall m :: 0 < m < 5 ==> text[m] in "this";
    ScanAtTrigger(cc, text, 0, 5);
    ScanSkips(cc, text, 5, 15);
  }

  /** A trigger as the last character starts no tag. */
  lemma TrailingTriggerIgnored(cc: CharClass)
    ensures Scan(cc, "hello #") == []
    ensures Scan(cc, "") == []
  {
    ScanSkips(cc, "hello #", 0, 6);
  }

  /** "##ab": the first '#' is a tag on its own, the second starts "#ab";
      without triggers the first lists as the empty string. */
  lemma DoubleTrigger(cc: CharClass, color: int)
    requires cc.extras == []
    requires cc.isLetterOrDigit('a') && cc.isLetterOrDigit('b')
    requires !cc.isLetterOrDigit('#')
    ensures Scan(cc, "##ab") == [Span(0, 1), Span(1, 4)]
    ensures TagList("##ab", Annotate(Scan(cc, "##ab"), color, true), false) == ["", "ab"]
    ensures TagList("##ab", Annotate(Scan(cc, "##ab"), color, true), true) == ["#", "#ab"]
  {
    var text := "##ab";
    DoubleTriggerScan(cc, text);
    DoubleTriggerStrings(text, color);
    DedupOfDistinct(["", "ab"]);
    DedupOfDistinct(["#", "#ab"]);
  }

  /** Helper for DoubleTrigger: the two spans. */
  lemma DoubleTriggerScan(cc: CharClass, text: string)
    requires text == "##ab"
    requires cc.extras == []
    requires cc.isLetterOrDigit('a') && cc.isLetterOrDigit('b')
    requires !cc.isLetterOrDigit('#')
    ensures Scan(cc, text) == [Span(0, 1), Span(1, 4)]
  {
    TriggerOnlySpan(cc, text, 0);
    ScanAtTrigger(cc, text, 1, 4);
  }

  /** Helper for DoubleTrigger: the substrings of the two annotations. */
  lemma DoubleTriggerStrings(text: string, color: int)
    requires text == "##ab"
    ensures TagStrings(text, Annotate([Span(0, 1), Span(1, 4)], color, true), false) == ["", "ab"]
    ensures TagStrings(text, Annotate([Span(0, 1), Span(1, 4)], color, true), true) == ["#", "#ab"]
  {
    var anns := Annotate([Span(0, 1), Span(1, 4)], color, true);
    assert anns == [Annotation(0, 1, color, true), Annotation(1, 4, color, true)];
    TagStringsInText(text, anns, false);
    TagStringsInText(text, anns, true);
    assert text[2..4] == "ab" && text[1..4] == "#ab" && text[0..1] == "#";
  }

  /** "check #vinayak and @jujare out" has the tags "#vinayak" and "@jujare". */
  lemma EndToEndScan(cc: CharClass)
    requires cc.extras == []
    requires forall c :: c in "vinayk" || c in "jurae" ==> cc.isLetterOrDigit(c)
    requires !cc.isLetterOrDigit(' ')
    ensures Scan(cc, "check #vinayak and @jujare out") == [Span(6, 14), Span(19, 26)]
  {
    var text := "check #vinayak and @jujare out";
    EndToEndFirstTag(cc, text);
    EndToEndSecondTag(cc, text);
  }

  /** Helper for EndToEndScan: the tag "#vinayak". */
  lemma EndToEndFirstTag(cc: CharClass, text: string)
    requires text == "check #vinayak and @jujare out"
    requires cc.extras == []
    requires forall c :: c in "vinayk" ==> cc.isLetterOrDigit(c)
    requires !cc.isLetterOrDigit(' ')
    ensures ScanFrom(cc, text, 0) == [Span(6, 14)] + ScanFrom(cc, text, 14)
  {
    ScanSkips(cc, text, 0, 6);
    assert forall m :: 6 < m < 14 ==> text[m] in "vinayk";
    ScanAtTrigger(cc, text, 6, 14);
  }

  /** Helper for EndToEndScan: the tag "@jujare". */
  lemma EndToEndSecondTag(cc: CharClass, text: string)
    requires text == "check #vinayak and @jujare out"
    requires cc.extras == []
    requires forall c :: c in "jurae" ==> cc.isLetterOrDigit(c)
    requires !cc.isLetterOrDigit(' ')
    ensures ScanFrom(cc, text, 14) == [Span(19, 26)]
  {
    ScanSkips(cc, text, 14, 19);
    assert forall m :: 19 < m < 26 ==> text[m] in "jurae";
    ScanAtTrigger(cc, text, 19, 26);
    ScanSkips(cc, text, 26, 30);
  }

  /** The same text lists its tags without triggers as "vinayak" and "jujare". */
  lemma EndToEndTagList(cc: CharClass, color: int)
    requires cc.extras == []
    requires forall c :: c in "vinayk" || c in "jurae" ==> cc.isLetterOrDigit(c)
    requires !cc.isLetterOrDigit(' ')
    ensures TagList("check #vinayak and @jujare out",
                    Annotate(Scan(cc, "check #vinayak and @jujare out"), color, true), false)
            == ["vinayak", "jujare"]
  {
    var text := "check #vinayak and @jujare out";
    EndToEndScan(cc);
    EndToEndTagStrings(text, color);
    DedupOfDistinct(["vinayak", "jujare"]);
  }

  /** Helper for EndToEndTagList: the substrings of the two annotations. */
  lemma EndToEndTagStrings(text: string, color: int)
    requires text == "check #vinayak and @jujare out"
    ensures TagStrings(text, Annotate([Span(6, 14), Span(19, 26)], color, true), false) == ["vinayak", "jujare"]
  {
    var anns := Annotate([Span(6, 14), Span(19, 26)], color, true);
    assert anns == [Annotation(6, 14, color, true), Annotation(19, 26, color, true)];
    TagStringsInText(text, anns, false);
    EndToEndSlices(text);
    assert TagText(text, anns[0], false) == "vinayak";
    assert TagText(text, anns[1], false) == "jujare";
  }

  /** Helper for EndToEndTagStrings: the two tag bodies. */
  lemma EndToEndSlices(text: string)
    requires text == "check #vinayak and @jujare out"
    ensures text[7..14] == "vinayak" && text[20..26] == "jujare"
  {
    assert text == "check #" + "vinayak" + " and @" + "jujare" + " out";
  }

  /** Repeated tags are listed once, in order of first occurrence. */
  lemma RepeatedTagListedOnce(cc: CharClass, color: int)
    requires cc.extras == []
    requires forall c :: c in "abcd" ==> cc.isLetterOrDigit(c)
    requires !cc.isLetterOrDigit(' ')
    ensures TagList("#ab #cd #ab", Annotate(Scan(cc, "#ab #cd #ab"), color, true), false) == ["ab", "cd"]
  {
    var text := "#ab #cd #ab";
    RepeatedTagScan(cc, text);
    RepeatedTagStrings(text, color);
    var strs := ["ab", "cd", "ab"];
    assert strs[..2] == ["ab", "cd"];
    DedupOfDistinct(["ab", "cd"]);
  }

  /** Helper for RepeatedTagListedOnce: the three spans. */
  lemma RepeatedTagScan(cc: CharClass, text: string)
    requires text == "#ab #cd #ab"
    requires cc.extras == []
    requires forall c :: c in "abcd" ==> cc.isLetterOrDigit(c)
    requires !cc.isLetterOrDigit(' ')
    ensures Scan(cc, text) == [Span(0, 3), Span(4, 7), Span(8, 11)]
  {
    ScanAtTrigger(cc, text, 0, 3);
    ScanSkips(cc, text, 3, 4);
    ScanAtTrigger(cc, text, 4, 7);
    ScanSkips(cc, text, 7, 8);
    ScanAtTrigger(cc, text, 8, 11);
  }

  /** Helper for RepeatedTagListedOnce: the substrings of the three annotations. */
  lemma RepeatedTagStrings(text: string, color: int)
    requires text == "#ab #cd #ab"
    ensures TagStrings(text, Annotate([Span(0, 3), Span(4, 7), Span(8, 11)], color, true), false)
            == ["ab", "cd", "ab"]
  {
    var anns := Annotate([Span(0, 3), Span(4, 7), Span(8, 11)], color, true);
    assert anns == [Annotation(0, 3, color, true), Annotation(4, 7, color, true), Annotation(8, 11, color, true)];
    TagStringsInText(text, anns, false);
    assert text[1..3] == "ab" && text[5..7] == "cd" && text[9..11] == "ab";
  }

  /** "#ab" and "@ab" collapse to one entry without triggers but stay two
      with them, so the two lists do not correspond position by position. */
  lemma TriggersCollapseWithoutHashes(cc: CharClass, color: int)
    requires cc.extras == []
    requires cc.isLetterOrDigit('a') && cc.isLetterOrDigit('b')
    requires !cc.isLetterOrDigit(' ')
    ensures TagList("#ab @ab", Annotate(Scan(cc, "#ab @ab"), color, true), false) == ["ab"]
    ensures TagList("#ab @ab", Annotate(Scan(cc, "#ab @ab"), color, true), true) == ["#ab", "@ab"]
  {
    var text := "#ab @ab";
    CollapseScan(cc, text);
    CollapseStrings(text, color);
    assert ["ab", "ab"][..1] == ["ab"];
    DedupOfDistinct(["ab"]);
    DedupOfDistinct(["#ab", "@ab"]);
  }

  /** Helper for TriggersCollapseWithoutHashes: the two spans. */
  lemma CollapseScan(cc: CharClass, text: string)
    requires text == "#ab @ab"
    requires cc.extras == []
    requires cc.isLetterOrDigit('a') && cc.isLetterOrDigit('b')
    requires !cc.isLetterOrDigit(' ')
    ensures Scan(cc, text) == [Span(0, 3), Span(4, 7)]
  {
    ScanAtTrigger(cc, text, 0, 3);
    ScanSkips(cc, text, 3, 4);
    ScanAtTrigger(cc, text, 4, 7);
  }

  /** Helper for TriggersCollapseWithoutHashes: the substrings of the two annotations. */
  lemma CollapseStrings(text: string, color: int)
    requires text == "#ab @ab"
    ensures TagStrings(text, Annotate([Span(0, 3), Span(4, 7)], color, true), false) == ["ab", "ab"]
    ensures TagStrings(text, Annotate([Span(0, 3), Span(4, 7)], color, true), true) == ["#ab", "@ab"]
  {
    var anns := Annotate([Span(0, 3), Span(4, 7)], color, true);
    assert anns == [Annotation(0, 3, color, true), Annotation(4, 7, color, true)];
    TagStringsInText(text, anns, false);
    TagStringsInText(text, anns, true);
    assert text[1..3] == "ab" && text[5..7] == "ab" && text[0..3] == "#ab" && text[4..7] == "@ab";
  }
}
