# AnyTagHelper tag engine in Dafny

A verified model of the tag engine of the AnyTagHelper Android library:

- **Scanner.** `HashTagHelper` walks a text once, left to right. At every `#` or `@` that is not the last character it takes the longest run of following characters that are letters, digits or configured extra characters. It marks the half-open span `[trigger, first disqualifying character)` and resumes scanning at the end of that span.
- **Reconciler.** The helper binds to one text view, once. On every non-empty text change it erases all of the view's tag annotations and rebuilds them from a fresh scan. On an empty change it leaves them alone. It lists the distinct tags in order of first occurrence, with or without their trigger.
- **Click span.** `ClickableForegroundColorSpan` colours a tag and, when the tag is tapped, hands the tag's exact text, trigger included, to its listener.

Files:

- `scanner.dfy` (module `TagScanner`): the scan as specification functions (`TagEndFrom`, `ScanFrom`, `Scan`), and what is proved about them. Every span is a tag. The spans are sorted and disjoint. Every trigger before the last character is covered. The scan is empty exactly when there is no such trigger.
- `insertion_order.dfy` (module `InsertionOrder`): `Dedup`, what a `LinkedHashSet` holds after a run of `add` calls. It keeps the same elements, has no repeats and lists them in first-occurrence order.
- `tag_helper.dfy` (module `TagHelper`): annotation records, the tag list, and the class `HashTagHelper`.
  - The class keeps the bound view's text in `text` and its annotations in `annotations`, in insertion order.
  - Each imperative member is proved against the specification functions: the scan loop, the end-of-tag search, the erase loop and the tag-list loop.
  - The class invariant `Valid()` says the annotations are exactly the scan of the last non-empty text.
- `clickable_span.dfy` (module `ClickableSpan`): the class `ClickableForegroundColorSpan` and the paint it draws with.
- `scan_examples.dfy` (module `ScanExamples`): worked examples proved over concrete texts.

`java.lang.Character.isLetterOrDigit` is not interpreted. It is the `isLetterOrDigit` field of a `CharClass` value, and each example lemma states only the facts about it that the example needs.

## Model

| member | source | states |
|---|---|---|
| TagScanner.TagEndFrom | AnyTagHelperlibrary/src/main/java/com/vinayak/anytaghelperlibrary/HashTagHelper.kt:133-149 | The result is the least offset at or after k whose character is neither a letter/digit nor an extra character, or the text length when there is none. Every character before it may continue a tag body. |
| TagScanner.ScanFrom | AnyTagHelperlibrary/src/main/java/com/vinayak/anytaghelperlibrary/HashTagHelper.kt:116-131 | Every span from a scan whose cursor is at i satisfies i <= start < end <= length of the text. |
| TagScanner.TagEndFromUnique | AnyTagHelperlibrary/src/main/java/com/vinayak/anytaghelperlibrary/HashTagHelper.kt:133-149 | Any offset with the end-of-tag properties is the one the search returns, so the search result is uniquely determined. |
| TagScanner.ScanSpansAreTags | AnyTagHelperlibrary/src/main/java/com/vinayak/anytaghelperlibrary/HashTagHelper.kt:119-141 | Every emitted span starts at a `#` or `@` before the last character. Every later character in it is a letter, digit or extra character. It ends at the first character that is not, or at the end of the text. |
| TagScanner.ScanOrdered | AnyTagHelperlibrary/src/main/java/com/vinayak/anytaghelperlibrary/HashTagHelper.kt:119-130 | Because the cursor resumes at each span's end, spans are sorted by start and pairwise disjoint: each ends no later than the next starts. |
| TagScanner.ScanCoversTriggers | AnyTagHelperlibrary/src/main/java/com/vinayak/anytaghelperlibrary/HashTagHelper.kt:119-130 | Every trigger before the last character lies inside some emitted span. |
| TagScanner.ScanEmptyIff | AnyTagHelperlibrary/src/main/java/com/vinayak/anytaghelperlibrary/HashTagHelper.kt:119-123 | The scan yields no span if and only if no `#` or `@` stands before the last character. |
| TagScanner.ScanSkips | AnyTagHelperlibrary/src/main/java/com/vinayak/anytaghelperlibrary/HashTagHelper.kt:121-129 | Characters that are not triggers only advance the cursor by one and emit nothing. |
| TagScanner.ScanAtTrigger | AnyTagHelperlibrary/src/main/java/com/vinayak/anytaghelperlibrary/HashTagHelper.kt:123-129 | At a trigger the scan emits [i, e), where e is the end of the body, and resumes at e. |
| TagScanner.TriggerOnlySpan | AnyTagHelperlibrary/src/main/java/com/vinayak/anytaghelperlibrary/HashTagHelper.kt:121-141 | A trigger followed at once by a disqualifying character yields the one-character span [i, i+1), and the scan resumes at i+1. |
| InsertionOrder.DedupElements | AnyTagHelperlibrary/src/main/java/com/vinayak/anytaghelperlibrary/HashTagHelper.kt:166-181 | A string is in the deduplicated list if and only if it is in the input. |
| InsertionOrder.DedupDistinct | AnyTagHelperlibrary/src/main/java/com/vinayak/anytaghelperlibrary/HashTagHelper.kt:166-167 | The deduplicated list has no repeats. |
| InsertionOrder.DedupFirstOccurrenceOrder | AnyTagHelperlibrary/src/main/java/com/vinayak/anytaghelperlibrary/HashTagHelper.kt:167-181 | The deduplicated list is ordered by each string's first occurrence in the input. |
| InsertionOrder.DedupOfDistinct | AnyTagHelperlibrary/src/main/java/com/vinayak/anytaghelperlibrary/HashTagHelper.kt:167-172 | A list without repeats is returned unchanged. |
| TagHelper.TagStringsInText | AnyTagHelperlibrary/src/main/java/com/vinayak/anytaghelperlibrary/HashTagHelper.kt:168-179 | When every annotation lies inside the text, the k-th collected substring is the k-th annotation's substring. |
| TagHelper.TagStringsDropTrigger | AnyTagHelperlibrary/src/main/java/com/vinayak/anytaghelperlibrary/HashTagHelper.kt:172-178 | Position by position, a substring taken with the trigger is non-empty and equals its first character followed by the substring taken from start + 1. |
| TagHelper.TagListDropTrigger | AnyTagHelperlibrary/src/main/java/com/vinayak/anytaghelperlibrary/HashTagHelper.kt:162-182 | A string is in the list without triggers if and only if it is some listed tag with its trigger minus that first character. |
| TagHelper.TagListOfScanAreTags | AnyTagHelperlibrary/src/main/java/com/vinayak/anytaghelperlibrary/HashTagHelper.kt:159-182 | For a scan's annotations, every tag listed with its trigger is a `#` or `@` followed by letters, digits or extra characters. |
| TagHelper.ScanAnnotationsDisjoint | AnyTagHelperlibrary/src/main/java/com/vinayak/anytaghelperlibrary/HashTagHelper.kt:151-160 | The annotations a scan installs lie inside the text, each starts at a trigger, and they never overlap. |
| TagHelper.CopyAdditionalChars | AnyTagHelperlibrary/src/main/java/com/vinayak/anytaghelperlibrary/HashTagHelper.kt:192-200 | The stored extra characters are a copy of the ones given, or empty when none (null) were given. |
| TagHelper.HashTagHelper.constructor | AnyTagHelperlibrary/src/main/java/com/vinayak/anytaghelperlibrary/HashTagHelper.kt:33-51 | A new helper is unbound, has no annotations, and fixes its colour, listener and extra characters. |
| TagHelper.HashTagHelper.Handle | AnyTagHelperlibrary/src/main/java/com/vinayak/anytaghelperlibrary/HashTagHelper.kt:82-102 | The first call with a view binds it and installs exactly the scan of its text. A later call throws AlreadyBound and changes nothing. A first call with no view throws a null dereference and changes nothing. |
| TagHelper.HashTagHelper.OnTextChanged | AnyTagHelperlibrary/src/main/java/com/vinayak/anytaghelperlibrary/HashTagHelper.kt:71-80 | After a non-empty change the annotations are exactly the scan of the new text, so the same text twice gives the same annotations. After an empty change they are unchanged. The invariant is kept. |
| TagHelper.HashTagHelper.EraseAndColorizeAllText | AnyTagHelperlibrary/src/main/java/com/vinayak/anytaghelperlibrary/HashTagHelper.kt:104-114 | It removes every annotation one at a time, and afterwards the annotations are exactly the scan of the text. |
| TagHelper.HashTagHelper.SetColorsToAllHashTags | AnyTagHelperlibrary/src/main/java/com/vinayak/anytaghelperlibrary/HashTagHelper.kt:116-131 | The cursor loop appends exactly the scan's annotations, in scan order, to those already present. |
| TagHelper.HashTagHelper.FindNextValidHashTagChar | AnyTagHelperlibrary/src/main/java/com/vinayak/anytaghelperlibrary/HashTagHelper.kt:133-149 | The result lies in (start, length], every character strictly between is a tag character, and the character at the result (if any) is not. |
| TagHelper.HashTagHelper.SetColorForHashTagToTheEnd | AnyTagHelperlibrary/src/main/java/com/vinayak/anytaghelperlibrary/HashTagHelper.kt:151-160 | It appends one annotation over [start, end) with the helper's colour, clickable because a listener is set. |
| TagHelper.HashTagHelper.CollectHashTags | AnyTagHelperlibrary/src/main/java/com/vinayak/anytaghelperlibrary/HashTagHelper.kt:162-182 | Unbound, it throws a null dereference. Bound, it returns the distinct annotation substrings in first-occurrence order, starting one past the trigger when withHashes is false. |
| TagHelper.HashTagHelper.GetAllHashTags | AnyTagHelperlibrary/src/main/java/com/vinayak/anytaghelperlibrary/HashTagHelper.kt:184-186 | The public list is the tag list without triggers. |
| TagHelper.HashTagHelper.OnHashTagClicked | AnyTagHelperlibrary/src/main/java/com/vinayak/anytaghelperlibrary/HashTagHelper.kt:188-190 | The application's listener receives exactly the given tag, once. |
| TagHelper.Create | AnyTagHelperlibrary/src/main/java/com/vinayak/anytaghelperlibrary/HashTagHelper.kt:54-56 | It makes an unbound helper with no extra characters. |
| TagHelper.CreateWithChars | AnyTagHelperlibrary/src/main/java/com/vinayak/anytaghelperlibrary/HashTagHelper.kt:58-64 | It makes an unbound helper whose extra characters are the ones given. |
| ClickableSpan.ClickableForegroundColorSpan.constructor | AnyTagHelperlibrary/src/main/java/com/vinayak/anytaghelperlibrary/ClickableForegroundColorSpan.kt:55-59 | An absent listener is rejected at construction, as the `init` block does. Colour and listener, the constructor parameters stored at lines 29-31 and 37, are fixed for the span's lifetime. |
| ClickableSpan.ClickableForegroundColorSpan.UpdateDrawState | AnyTagHelperlibrary/src/main/java/com/vinayak/anytaghelperlibrary/ClickableForegroundColorSpan.kt:37-40 | The paint's colour becomes the span's colour and nothing else in the paint changes; in particular no underline is added. |
| ClickableSpan.ClickableForegroundColorSpan.OnClick | AnyTagHelperlibrary/src/main/java/com/vinayak/anytaghelperlibrary/ClickableForegroundColorSpan.kt:42-53 | The listener chain delivers exactly text[start..end], trigger included, with no +1. |
| ClickableSpan.ClickedTagKeepsTrigger | AnyTagHelperlibrary/src/main/java/com/vinayak/anytaghelperlibrary/ClickableForegroundColorSpan.kt:42-53 | For a scanned tag, what a tap delivers starts with a trigger and is in the tag list with triggers. The same substring minus the trigger is in the list without triggers. |
| ScanExamples.ExtraCharsExtendTag | AnyTagHelperlibrary/src/main/java/com/vinayak/anytaghelperlibrary/HashTagHelper.kt:39-45 | With extras `$ _ -`, "#this_is-a$tag!" yields the single span [0, 14), which stops before the `!`. |
| ScanExamples.NoExtraCharsStopsAtUnderscore | AnyTagHelperlibrary/src/main/java/com/vinayak/anytaghelperlibrary/HashTagHelper.kt:45 | Without extras the same text yields only "#this", the span [0, 5). |
| ScanExamples.TrailingTriggerIgnored | AnyTagHelperlibrary/src/main/java/com/vinayak/anytaghelperlibrary/HashTagHelper.kt:119 | "hello #" and the empty text yield no span. |
| ScanExamples.DoubleTrigger | AnyTagHelperlibrary/src/main/java/com/vinayak/anytaghelperlibrary/HashTagHelper.kt:119-141 | "##ab" yields [0,1) then [1,4), and lists as ["", "ab"] without triggers and ["#", "#ab"] with them. |
| ScanExamples.EndToEndScan | AnyTagHelperlibrary/src/main/java/com/vinayak/anytaghelperlibrary/HashTagHelper.kt:116-149 | "check #vinayak and @jujare out" yields [6,14) and [19,26). |
| ScanExamples.EndToEndTagList | AnyTagHelperlibrary/src/main/java/com/vinayak/anytaghelperlibrary/HashTagHelper.kt:162-186 | The same text lists as ["vinayak", "jujare"]. |
| ScanExamples.RepeatedTagListedOnce | AnyTagHelperlibrary/src/main/java/com/vinayak/anytaghelperlibrary/HashTagHelper.kt:166-181 | "#ab #cd #ab" lists as ["ab", "cd"]. |
| ScanExamples.TriggersCollapseWithoutHashes | AnyTagHelperlibrary/src/main/java/com/vinayak/anytaghelperlibrary/HashTagHelper.kt:172-179 | "#ab @ab" lists as ["ab"] without triggers but as ["#ab", "@ab"] with them, so the two lists need not match position by position. |

## Left out

- View plumbing in `handle` is not modelled: `addTextChangedListener`, `setText(..., BufferType.SPANNABLE)`, `movementMethod` and `highlightColor` (HashTagHelper.kt:85-97). These are host side effects, so `Handle` only binds and runs the initial scan.
- On Android, the `setText` in `handle` also notifies the watcher registered just before it (HashTagHelper.kt:85). For a non-empty text that would install the spans once from the watcher and once more from the explicit scan. The model runs only the explicit scan. Duplicate spans do not change the tag list, and the next text change erases them all.
- The host shifts or drops annotations when it edits the text. The model does not. After an empty change the model keeps the previous annotations, whose offsets may then lie past the empty text. On Android the host removes those spans when their text is deleted, so the query finds no tag. The model gets the same tag list a different way: `CollectHashTags` skips any annotation not inside the current text.
- `Spannable.getSpans` internals and `CharacterStyle` filtering are not modelled. Annotations owned by other code do not exist in the model, and the buffer is a plain sequence of records in insertion order.
- `Character.isLetterOrDigit` is not interpreted: its Unicode tables are outside the model.
- Offsets count Unicode scalar values (Dafny `char`s), not the UTF-16 code units that Kotlin's `Char`, `text.length`, `text[index]` and `setSpan` count (HashTagHelper.kt:119-120, 135-138, 159). Text with characters outside the Basic Multilingual Plane gets different offsets: each such character is one position in the model and two in the source, so "\U{1F600}#ab" has the span [1,4) in the model and [2,5) in the source. The tagged characters agree only when `isLetterOrDigit` is false on every such character, which matches the source's test on each half of a surrogate pair.
- The `ForegroundColorSpan` branch (HashTagHelper.kt:155-157) never runs in the model. The helper's listener is never null, because the constructor takes a non-null one, so every annotation is clickable.
- Listener interfaces are modelled by concrete classes. `OnHashTagClickListener` stands for the application's listener and records the tags it receives. A span's listener is the `HashTagHelper` that created it, as in HashTagHelper.kt:154, which is the only implementer in the library.
- Tap hit-testing and the `View`/`TextView` cast in `onClick` are not modelled. `OnClick` receives the text and the span's own offsets directly.
- ClickableSpan.ClickableForegroundColorSpan.constructor: the `NullPointerException` for an absent listener is a precondition rather than a modelled exception.
- `beforeTextChanged` and `afterTextChanged` are not modelled: they do nothing.
- Offsets are unbounded naturals rather than 32-bit `Int`s, and colours are opaque integers.
