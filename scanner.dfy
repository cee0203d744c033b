/** The tag scanner of HashTagHelper: one left-to-right pass over a text that
    finds every tag, a '#' or '@' followed by the longest run of characters
    that may continue a tag body (letters, digits and the configured extra
    characters). These are the specification functions the imperative scan in
    TagHelper is proved against, and the properties of the spans they yield. */
module TagScanner {

  /** How characters are classified. `isLetterOrDigit` stands for
      java.lang.Character.isLetterOrDigit, whose Unicode tables are not part of
      this model; `extras` is the helper's list of additional tag characters. */
  datatype CharClass = CharClass(isLetterOrDigit: char -> bool, extras: seq<char>)

  /** The two characters that may start a tag. */
  predicate IsTrigger(c: char) {
    c == '#' || c == '@'
  }

  /** A character that may continue a tag body. */
  predicate IsTagChar(cc: CharClass, c: char) {
    cc.isLetterOrDigit(c) || c in cc.extras
  }

  /** A half-open range [start, end) of offsets into a text. */
  datatype Span = Span(start: nat, end: nat)

  /** The first offset at or after k whose character may not continue a tag
      body, or |text| when there is none: the least such offset. */
  function TagEndFrom(cc: CharClass, text: string, k: nat): (r: nat)
    requires k <= |text|
    ensures k <= r <= |text|
    ensures forall m :: k <= m < r ==> IsTagChar(cc, text[m])
    ensures r == |text| || !IsTagChar(cc, text[r])
    decreases |text| - k
  {
    if k == |text| then |text|
    else if !IsTagChar(cc, text[k]) then k
    else TagEndFrom(cc, text, k + 1)
  }

  /** The spans found by a scan whose cursor stands at offset i: a trigger
      strictly before the last character starts a span that runs to the end
      of its body, and the cursor resumes at that end; any other character
      moves the cursor on by one. */
  function ScanFrom(cc: CharClass, text: string, i: nat): (spans: seq<Span>)
    requires i <= |text|
    ensures forall s :: s in spans ==> i <= s.start < s.end <= |text|
    decreases |text| - i
  {
    if i < |text| - 1 then
      if IsTrigger(text[i]) then
        var j := TagEndFrom(cc, text, i + 1);
        [Span(i, j)] + ScanFrom(cc, text, j)
      else
        ScanFrom(cc, text, i + 1)
    else
      []
  }

  /** The spans of a whole text, in the order the scan finds them. */
  function Scan(cc: CharClass, text: string): seq<Span> {
    ScanFrom(cc, text, 0)
  }

  /** A span is a tag of the text: it starts at a trigger that is not the last
      character, every later character in it may continue a tag body, and it
      stops at the first character that may not (or at the end of the text). */
  predicate IsTagSpan(cc: CharClass, text: string, s: Span) {
    s.start < s.end <= |text| && s.start < |text| - 1 &&
    IsTrigger(text[s.start]) &&
    (forall m :: s.start < m < s.end ==> IsTagChar(cc, text[m])) &&
    (s.end == |text| || !IsTagChar(cc, text[s.end]))
  }

  /** Each span ends no later than the next one starts: the spans are sorted
      by start and pairwise disjoint. */
  predicate Ordered(spans: seq<Span>) {
    forall a, b :: 0 <= a < b < |spans| ==> spans[a].end <= spans[b].start
  }

  /** Offset p lies inside one of the spans. */
  ghost predicate Covered(spans: seq<Span>, p: nat) {
    exists k :: 0 <= k < |spans| && spans[k].start <= p < spans[k].end
  }

  /** TagEndFrom is determined by its contract: any offset with the same
      two properties is the one it returns. */
  lemma TagEndFromUnique(cc: CharClass, text: string, k: nat, e: nat)
    requires k <= e <= |text|
    requires forall m :: k <= m < e ==> IsTagChar(cc, text[m])
    requires e == |text| || !IsTagChar(cc, text[e])
    ensures TagEndFrom(cc, text, k) == e
  {
  }

  /** Every span the scan emits is a tag of the text. */
  lemma {:induction false} ScanSpansAreTags(cc: CharClass, text: string, i: nat)
    requires i <= |text|
    ensures forall s :: s in ScanFrom(cc, text, i) ==> IsTagSpan(cc, text, s)
    decreases |text| - i
  {
    if i < |text| - 1 {
      if IsTrigger(text[i]) {
        var j := TagEndFrom(cc, text, i + 1);
        ScanSpansAreTags(cc, text, j);
        assert ScanFrom(cc, text, i) == [Span(i, j)] + ScanFrom(cc, text, j);
      } else {
        ScanSpansAreTags(cc, text, i + 1);
      }
    }
  }

  /** The spans come out sorted by start and pairwise disjoint. */
  lemma {:induction false} ScanOrdered(cc: CharClass, text: string, i: nat)
    requires i <= |text|
    ensures Ordered(ScanFrom(cc, text, i))
    decreases |text| - i
  {
    if i < |text| - 1 {
      if IsTrigger(text[i]) {
        var j := TagEndFrom(cc, text, i + 1);
        var rest := ScanFrom(cc, text, j);
        ScanOrdered(cc, text, j);
        var spans := [Span(i, j)] + rest;
        assert ScanFrom(cc, text, i) == spans;
        forall a, b | 0 <= a < b < |spans|
          ensures spans[a].end <= spans[b].start
        {
          assert spans[b] == rest[b - 1];
          if a > 0 {
            assert spans[a] == rest[a - 1];
          } else {
            assert rest[b - 1] in rest;
          }
        }
      } else {
        ScanOrdered(cc, text, i + 1);
      }
    }
  }

  /** Nothing is missed: every trigger at or after the cursor and before the
      last character lies inside some emitted span (it starts one, or an extra
      character list that holds it let an earlier tag run over it). */
  lemma {:induction false} ScanCoversTriggers(cc: CharClass, text: string, i: nat, p: nat)
    requires i <= p < |text| - 1
    requires IsTrigger(text[p])
    ensures Covered(ScanFrom(cc, text, i), p)
    decreases |text| - i
  {
    var spans := ScanFrom(cc, text, i);
    if IsTrigger(text[i]) {
      var j := TagEndFrom(cc, text, i + 1);
      var rest := ScanFrom(cc, text, j);
      assert spans == [Span(i, j)] + rest;
      if p < j {
        assert spans[0].start <= p < spans[0].end;
      } else {
        ScanCoversTriggers(cc, text, j, p);
        var k :| 0 <= k < |rest| && rest[k].start <= p < rest[k].end;
        assert spans[k + 1] == rest[k];
      }
    } else {
      ScanCoversTriggers(cc, text, i + 1, p);
    }
  }

  /** A scan yields no span exactly when no trigger stands before the last
      character; in particular the empty text and a text whose only trigger
      is its last character yield none. */
  lemma ScanEmptyIff(cc: CharClass, text: string)
    ensures Scan(cc, text) == [] <==> forall p :: 0 <= p < |text| - 1 ==> !IsTrigger(text[p])
  {
    var spans := Scan(cc, text);
    if spans != [] {
      ScanSpansAreTags(cc, text, 0);
      assert spans[0] in spans;
      assert IsTagSpan(cc, text, spans[0]);
    } else {
      forall p | 0 <= p < |text| - 1
        ensures !IsTrigger(text[p])
      {
        if IsTrigger(text[p]) {
          ScanCoversTriggers(cc, text, 0, p);
        }
      }
    }
  }

  /** Characters that are not triggers only move the cursor. */
  lemma {:induction false} ScanSkips(cc: CharClass, text: string, i: nat, j: nat)
    requires i <= j <= |text|
    requires forall m :: i <= m < j ==> !IsTrigger(text[m])
    ensures ScanFrom(cc, text, i) == ScanFrom(cc, text, j)
    decreases j - i
  {
    if i < j && i < |text| - 1 {
      ScanSkips(cc, text, i + 1, j);
    } else if i < j {
      assert ScanFrom(cc, text, i) == [];
      assert ScanFrom(cc, text, j) == [];
    }
  }

  /** At a trigger the scan emits the span up to the end of the body given
      by its offset e, and resumes at e. */
  lemma ScanAtTrigger(cc: CharClass, text: string, i: nat, e: nat)
    requires i < |text| - 1 && IsTrigger(text[i])
    requires i < e <= |text|
    requires forall m :: i < m < e ==> IsTagChar(cc, text[m])
    requires e == |text| || !IsTagChar(cc, text[e])
    ensures ScanFrom(cc, text, i) == [Span(i, e)] + ScanFrom(cc, text, e)
  {
    TagEndFromUnique(cc, text, i + 1, e);
  }

  /** A trigger followed at once by a character that may not continue a tag
      body yields the one-character span holding only the trigger, and the
      scan resumes right after it. */
  lemma TriggerOnlySpan(cc: CharClass, text: string, i: nat)
    requires i < |text| - 1 && IsTrigger(text[i])
    requires !IsTagChar(cc, text[i + 1])
    ensures ScanFrom(cc, text, i) == [Span(i, i + 1)] + ScanFrom(cc, text, i + 1)
  {
    ScanAtTrigger(cc, text, i, i + 1);
  }
}
