/** Answering a pending clarification: merging the reply into the question, and stripping it out again. */
module Clarification {
  import opened Wrappers
  import opened Seqs
  import opened TextUtils

  // ------------------------------------------------------------------
  // The merged query
  // ------------------------------------------------------------------

  /** What extract_selected_lookup_option read off the option the reply picked. */
  datatype Selected = Selected(value: string, phrase: Option<string>, field: Option<string>, context: Option<string>)

  /** What the text predicates and parsers say about a reply to the previous turn. */
  datatype Reply = Reply(
    reply: string,                 // the stripped reply
    raw: string,                   // the reply as sent
    pending: bool,                 // the previous turn was a clarification
    newQuestion: bool,             // reads as a fresh analytics question
    shortAnswer: bool,             // reads as a short clarification answer
    original: Option<string>,      // the question being clarified, if there is one
    selected: Option<Selected>,    // the numbered option picked
    confirmation: bool,            // yes, ok, proceed, ..
    numberedOptions: bool,         // the previous turn listed numbered options
    lookupField: bool)             // the reply names a lookup-backed column

  const M := INTERNAL_LINE_MARKER + " "

  // What the builder writes after the marker.
  const OPTION_TEXT := "User selected clarification option: "
  const CANONICAL_TEXT := "Use exactly this canonical selected value when it is a filter " + "value: "
  const PHRASE_TEXT := "Resolved raw lookup phrase: "
  const FIELD_TEXT := "Selected lookup field: "
  const CONTEXT_TEXT := "Selected option context only: "
  const NUMBER_TEXT := "Reply with the option number only: "
  const CONFIRMED_HEAD := "User confirmed the pending clarification. Proceed with the "
  const CONFIRMED_TEXT := CONFIRMED_HEAD + "already clarified request."
  const DETAIL_TEXT := "User provided missing clarification detail: "

  function OptionLine(prefix: string, v: Option<string>): seq<string> {
    if v.Some? then [M + prefix + v.value] else []
  }

  function SelectedLines(s: Selected): seq<string> {
    [M + OPTION_TEXT + s.value,
     M + CANONICAL_TEXT + s.value]
    + OptionLine(PHRASE_TEXT, s.phrase)
    + OptionLine(FIELD_TEXT, s.field)
    + OptionLine(CONTEXT_TEXT, s.context)
  }

  /** The lines a follow-up adds to the original question; None when the reply is a query of its own. */
  function InsertedLines(r: Reply): Option<seq<string>> {
    if !r.pending || r.newQuestion || !r.shortAnswer || r.original.None? then None
    else if r.selected.Some? then Some(SelectedLines(r.selected.value))
    else if r.confirmation && r.numberedOptions then Some([M + NUMBER_TEXT + r.reply])
    else if r.confirmation then
      Some([M + CONFIRMED_TEXT])
    else if r.lookupField then None
    else Some([M + DETAIL_TEXT + r.reply])
  }

  /** build_clarification_followup_query. */
  method BuildFollowupQuery(r: Reply) returns (query: string, followup: bool)
    ensures followup <==> InsertedLines(r).Some?
    ensures followup ==> query == Join("\n", [r.original.value] + InsertedLines(r).value)
    ensures !followup ==>
              query == if r.pending && !r.newQuestion && r.shortAnswer && r.original.Some? then r.reply else r.raw
  {
    if !r.pending { return r.raw, false; }
    if r.newQuestion { return r.raw, false; }
    if !r.shortAnswer { return r.raw, false; }
    if r.original.None? { return r.raw, false; }
    var original := r.original.value;
    if r.selected.Some? {
      var s := r.selected.value;
      var parts := [original, M + OPTION_TEXT + s.value,
                    M + CANONICAL_TEXT + s.value];
      if s.phrase.Some? { parts := parts + [M + PHRASE_TEXT + s.phrase.value]; }
      if s.field.Some? { parts := parts + [M + FIELD_TEXT + s.field.value]; }
      if s.context.Some? { parts := parts + [M + CONTEXT_TEXT + s.context.value]; }
      assert parts == [original] + SelectedLines(s);
      return Join("\n", parts), true;
    }
    if r.confirmation && r.numberedOptions {
      TwoParts(original, M + NUMBER_TEXT + r.reply);
      return original + "\n" + (M + NUMBER_TEXT + r.reply), true;
    }
    if r.confirmation {
      var line := M + CONFIRMED_TEXT;
      TwoParts(original, line);
      return original + "\n" + line, true;
    }
    if r.lookupField { return r.reply, false; }
    TwoParts(original, M + DETAIL_TEXT + r.reply);
    query, followup := original + "\n" + (M + DETAIL_TEXT + r.reply), true;
  }

  lemma TwoParts(a: string, b: string)
    ensures Join("\n", [a] + [b]) == a + "\n" + b
  {
    assert ([a] + [b])[1..] == [b];
  }

  // ------------------------------------------------------------------
  // Merge, then strip
  // ------------------------------------------------------------------

  /** Stripping a merge gives the stripped original back exactly when the inserted text has no user line. */
  lemma StripMergeIff(original: string, inserted: string)
    requires Trimmed(original) && UserLines(original) != [] && inserted != "" && !Space(inserted[|inserted| - 1])
    ensures FreeText(original + "\n" + inserted) == FreeText(original) <==> UserLines(inserted) == []
  {
    var merged := original + "\n" + inserted;
    assert merged[0] == original[0] && merged[|merged| - 1] == inserted[|inserted| - 1];
    TrimmedIsStripped(merged);
    TrimmedIsStripped(original);
    UserLinesAtFeed(original, inserted);
    if UserLines(inserted) == [] {
      assert UserLines(original) + [] == UserLines(original);
    } else {
      JoinLonger(" ", UserLines(original), UserLines(inserted));
    }
  }

  /** A question whose every line is internal does not survive even a clean merge. */
  lemma NoUserLineNoRoundTrip(original: string, inserted: string)
    requires Trimmed(original) && UserLines(original) == []
    requires inserted != "" && !Space(inserted[|inserted| - 1]) && UserLines(inserted) == []
    ensures FreeText(original + "\n" + inserted) != FreeText(original)
  {
    var merged := original + "\n" + inserted;
    assert merged[0] == original[0] && merged[|merged| - 1] == inserted[|inserted| - 1];
    TrimmedIsStripped(merged);
    TrimmedIsStripped(original);
    UserLinesAtFeed(original, inserted);
    assert |merged| > |original|;
  }

  /** A line of the form the builder writes: the marker, then text that ends in a non-space. */
  predicate Marked(line: string) {
    |line| > |M| && line[..|M|] == M && !Space(line[|line| - 1])
  }

  lemma MarkedIsInternal(line: string)
    requires Marked(line)
    ensures Strip(line) == line && Internal(line)
  {
    assert line[0] == M[0];
    TrimmedIsStripped(line);
    var n := |INTERNAL_LINE_MARKER|;
    forall i | 0 <= i < n ensures Lower(line)[0..0 + n][i] == INTERNAL_LINE_MARKER[i] {
      assert line[i] == line[..|M|][i] == M[i];
    }
    assert OccursAt(Lower(line), INTERNAL_LINE_MARKER, 0);
  }

  /** Text that ends in a non-space and holds no user line. */
  predicate Clean(t: string) { t != "" && !Space(t[|t| - 1]) && UserLines(t) == [] }

  lemma CleanAfterMarked(line: string, rest: string)
    requires Marked(line) && SingleLine(line) && Clean(rest)
    ensures Clean(line + "\n" + rest)
  {
    MarkedFirstLine(line, rest);
    LastOf(line + "\n", rest);
  }

  lemma LastOf(a: string, b: string)
    requires b != ""
    ensures (a + b)[|a + b| - 1] == b[|b| - 1]
  {
  }

  /** Single-line marked lines add no user line, however many there are. */
  lemma {:induction false} MarkedLinesVanish(lines: seq<string>)
    requires lines != [] && forall i :: 0 <= i < |lines| ==> Marked(lines[i]) && SingleLine(lines[i])
    ensures Clean(Join("\n", lines))
  {
    if |lines| == 1 {
      assert Join("\n", lines) == lines[0];
      OneMarkedLine(lines[0]);
    } else {
      MarkedLinesVanish(lines[1..]);
      CleanAfterMarked(lines[0], Join("\n", lines[1..]));
      assert Join("\n", lines) == lines[0] + "\n" + Join("\n", lines[1..]);
    }
  }

  lemma OneMarkedLine(line: string)
    requires Marked(line) && SingleLine(line)
    ensures UserLines(line) == []
  {
    SingleLineSplit(line);
    MarkedIsInternal(line);
    assert [line][..0] == [];
    assert FlatMap(UserLine(), [line]) == FlatMap(UserLine(), []) + UserLine()(line);
  }

  /** A value as the source inserts it: stripped, non-empty, one line. */
  predicate PlainValue(v: string) { Trimmed(v) && SingleLine(v) }

  predicate PlainOption(v: Option<string>) { v.Some? ==> PlainValue(v.value) }

  predicate PlainSelected(s: Selected) {
    PlainValue(s.value) && PlainOption(s.phrase) && PlainOption(s.field) && PlainOption(s.context)
  }

  lemma SingleLineConcat(a: string, b: string)
    requires SingleLine(a) && SingleLine(b)
    ensures SingleLine(a + b)
  {
  }

  /** None of the fixed texts holds a line break. */
  lemma TextsAreSingleLine()
    ensures SingleLine(M) && SingleLine(OPTION_TEXT) && SingleLine(PHRASE_TEXT)
    ensures SingleLine(FIELD_TEXT) && SingleLine(CONTEXT_TEXT) && SingleLine(NUMBER_TEXT)
    ensures SingleLine(CANONICAL_TEXT) && SingleLine(CONFIRMED_HEAD) && SingleLine(DETAIL_TEXT)
  {
    MarkerIsSingleLine();
    OptionTextsAreSingleLine();
    FieldTextsAreSingleLine();
    CanonicalTextIsSingleLine();
    ConfirmedTextIsSingleLine();
    DetailTextIsSingleLine();
  }

  lemma MarkerIsSingleLine()
    ensures SingleLine(M)
  {
    SingleLineConcat(INTERNAL_LINE_MARKER, " ");
  }

  lemma OptionTextsAreSingleLine()
    ensures SingleLine(OPTION_TEXT) && SingleLine(PHRASE_TEXT)
  {
  }

  lemma FieldTextsAreSingleLine()
    ensures SingleLine(FIELD_TEXT) && SingleLine(CONTEXT_TEXT) && SingleLine(NUMBER_TEXT)
  {
  }

  // A long text is read in two halves.

  lemma CanonicalTextIsSingleLine()
    ensures SingleLine(CANONICAL_TEXT)
  {
    SingleLineConcat("Use exactly this canonical ", "selected value when it is a filter ");
    SingleLineConcat("Use exactly this canonical selected value when it is a filter ", "value: ");
  }

  lemma ConfirmedTextIsSingleLine()
    ensures SingleLine(CONFIRMED_HEAD)
  {
    ConfirmedHalves();
    assert CONFIRMED_HEAD == "User confirmed the pending " + "clarification. Proceed with the ";
  }

  lemma ConfirmedHalves()
    ensures SingleLine("User confirmed the pending " + "clarification. Proceed with the ")
  {
    SingleLineConcat("User confirmed the pending ", "clarification. Proceed with the ");
  }

  lemma DetailTextIsSingleLine()
    ensures SingleLine(DETAIL_TEXT)
  {
    var a, b := "User provided missing ", "clarification detail: ";
    SingleLineConcat(a, b);
    assert DETAIL_TEXT == a + b;
  }

  lemma PrefixedLine(prefix: string, v: string)
    requires SingleLine(M) && SingleLine(prefix) && PlainValue(v)
    ensures Marked(M + prefix + v) && SingleLine(M + prefix + v)
  {
    SingleLineConcat(M, prefix);
    SingleLineConcat(M + prefix, v);
    var line := M + prefix + v;
    assert line[..|M|] == M;
    assert line[|line| - 1] == v[|v| - 1];
  }

  lemma SelectedLinesAreMarked(s: Selected)
    requires PlainSelected(s)
    ensures forall i :: 0 <= i < |SelectedLines(s)| ==> Marked(SelectedLines(s)[i]) && SingleLine(SelectedLines(s)[i])
  {
    TextsAreSingleLine();
    PrefixedLine(OPTION_TEXT, s.value);
    PrefixedLine(CANONICAL_TEXT, s.value);
    if s.phrase.Some? { PrefixedLine(PHRASE_TEXT, s.phrase.value); }
    if s.field.Some? { PrefixedLine(FIELD_TEXT, s.field.value); }
    if s.context.Some? { PrefixedLine(CONTEXT_TEXT, s.context.value); }
  }

  lemma InsertedLinesAreMarked(r: Reply)
    requires InsertedLines(r).Some? && PlainValue(r.reply) && (r.selected.Some? ==> PlainSelected(r.selected.value))
    ensures var lines := InsertedLines(r).value;
            lines != [] && forall i :: 0 <= i < |lines| ==> Marked(lines[i]) && SingleLine(lines[i])
  {
    if r.selected.Some? {
      SelectedLinesAreMarked(r.selected.value);
    } else {
      TextsAreSingleLine();
      PrefixedLine(NUMBER_TEXT, r.reply);
      PrefixedLine(DETAIL_TEXT, r.reply);
      PrefixedLine(CONFIRMED_HEAD, "already clarified request.");
      assert M + CONFIRMED_HEAD + "already clarified request." == M + CONFIRMED_TEXT;
    }
  }

  lemma JoinFirst(a: string, parts: seq<string>)
    requires parts != []
    ensures Join("\n", [a] + parts) == a + "\n" + Join("\n", parts)
  {
    assert ([a] + parts)[1..] == parts;
  }

  /** Adding text without user lines to a question keeps its user lines, and so what stripping gives. */
  lemma CleanMerge(original: string, inserted: string)
    requires Trimmed(original) && UserLines(original) != [] && Clean(inserted)
    ensures var merged := original + "\n" + inserted;
            FreeText(merged) == FreeText(original) && Trimmed(merged) && UserLines(merged) == UserLines(original)
  {
    StripMergeIff(original, inserted);
    CleanMergeLines(original, inserted);
    MergeIsTrimmed(original, inserted);
  }

  lemma CleanMergeLines(original: string, inserted: string)
    requires Trimmed(original) && UserLines(inserted) == []
    ensures UserLines(original + "\n" + inserted) == UserLines(original)
  {
    UserLinesAtFeed(original, inserted);
    assert UserLines(original) + [] == UserLines(original);
  }

  lemma MergeIsTrimmed(original: string, inserted: string)
    requires Trimmed(original) && inserted != "" && !Space(inserted[|inserted| - 1])
    ensures Trimmed(original + "\n" + inserted)
  {
    var merged := original + "\n" + inserted;
    assert merged[0] == original[0] && merged[|merged| - 1] == inserted[|inserted| - 1];
  }

  /**
   * In every merge branch, stripping the merged query gives the stripped original, for an original
   * with a user line and single-line inserted values; and the merge is again such an original.
   */
  lemma MergeStripRoundTrip(r: Reply)
    requires InsertedLines(r).Some? && PlainValue(r.reply) && (r.selected.Some? ==> PlainSelected(r.selected.value))
    requires Trimmed(r.original.value) && UserLines(r.original.value) != []
    ensures var merged := Join("\n", [r.original.value] + InsertedLines(r).value);
            FreeText(merged) == FreeText(r.original.value)
            && Trimmed(merged) && UserLines(merged) == UserLines(r.original.value)
  {
    var original, lines := r.original.value, InsertedLines(r).value;
    assert Clean(Join("\n", lines)) && lines != [] by {
      InsertedLinesAreMarked(r);
      MarkedLinesVanish(lines);
    }
    JoinFirst(original, lines);
    CleanMerge(original, Join("\n", lines));
  }

  /** The query after a run of replies, each merged into the outcome of the ones before. */
  ghost predicate MergedBy(original: string, replies: seq<Reply>, merged: string) {
    if replies == [] then merged == original
    else
      var r := replies[|replies| - 1];
      && InsertedLines(r).Some? && PlainValue(r.reply) && (r.selected.Some? ==> PlainSelected(r.selected.value))
      && MergedBy(original, replies[..|replies| - 1], r.original.value)
      && merged == Join("\n", [r.original.value] + InsertedLines(r).value)
  }

  /** However many replies are merged, stripping gives the stripped original. */
  lemma {:induction false} RepeatedMergesStrip(original: string, replies: seq<Reply>, merged: string)
    requires Trimmed(original) && UserLines(original) != [] && MergedBy(original, replies, merged)
    ensures FreeText(merged) == FreeText(original)
    ensures Trimmed(merged) && UserLines(merged) == UserLines(original)
  {
    if replies != [] {
      var r := replies[|replies| - 1];
      RepeatedMergesStrip(original, replies[..|replies| - 1], r.original.value);
      MergeStripRoundTrip(r);
    }
  }

  /** A marked line in front of other lines leaves just theirs. */
  lemma MarkedFirstLine(line: string, rest: string)
    requires Marked(line) && SingleLine(line)
    ensures UserLines(line + "\n" + rest) == UserLines(rest)
  {
    OneMarkedLine(line);
    UserLinesAtFeed(line, rest);
    assert [] + UserLines(rest) == UserLines(rest);
  }

  /** The marker in front of a line survives stripping, whatever the line ends in. */
  lemma MarkerSurvives(v: string)
    ensures Internal(Strip(M + v))
  {
    var line := M + v;
    assert line[0] == '[';
    assert LStrip(line) == line;
    assert line == INTERNAL_LINE_MARKER + (" " + v);
    var kept := RStripKeeps(INTERNAL_LINE_MARKER, " " + v);
    var n := |INTERNAL_LINE_MARKER|;
    forall i | 0 <= i < n ensures Lower(INTERNAL_LINE_MARKER + kept)[0..0 + n][i] == INTERNAL_LINE_MARKER[i] {
    }
    assert OccursAt(Lower(INTERNAL_LINE_MARKER + kept), INTERNAL_LINE_MARKER, 0);
  }

  /** The user lines of a reply after its first line. */
  function LaterUserLines(reply: string): seq<string>
    requires reply != ""
  {
    FlatMap(UserLine(), SplitLines(reply)[1..])
  }

  /** Only the first line of an inserted reply carries the marker. */
  lemma MarkedReply(text: string, reply: string)
    requires SingleLine(M) && SingleLine(text) && reply != ""
    ensures UserLines(M + text + reply) == LaterUserLines(reply)
  {
    SingleLineConcat(M, text);
    PrefixFirstLine(M + text, reply);
    var lines := SplitLines(reply);
    var first := M + text + lines[0];
    assert first == M + (text + lines[0]);
    MarkerSurvives(text + lines[0]);
    assert SplitLines(M + text + reply) == [first] + lines[1..];
    FlatMapAppend(UserLine(), [first], lines[1..]);
    assert [first][..0] == [];
    assert FlatMap(UserLine(), [first]) == FlatMap(UserLine(), []) + UserLine()(first);
  }

  /** A reply of any number of lines round-trips exactly when no line after its first is the user's own. */
  lemma MultiLineReplyIff(original: string, reply: string)
    requires Trimmed(original) && UserLines(original) != [] && Trimmed(reply)
    ensures var merged := original + "\n" + (M + DETAIL_TEXT + reply);
            FreeText(merged) == FreeText(original) <==> LaterUserLines(reply) == []
  {
    TextsAreSingleLine();
    MarkedReply(DETAIL_TEXT, reply);
    LastOf(M + DETAIL_TEXT, reply);
    StripMergeIff(original, M + DETAIL_TEXT + reply);
  }

  /** What BuildFollowupQuery makes of a missing detail round-trips exactly when the reply has no later user line. */
  lemma DetailReplyIff(r: Reply)
    requires r.pending && !r.newQuestion && r.shortAnswer && r.original.Some?
    requires r.selected.None? && !r.confirmation && !r.lookupField && Trimmed(r.reply)
    requires Trimmed(r.original.value) && UserLines(r.original.value) != []
    ensures InsertedLines(r).Some?
    ensures RoundTrips(r) <==> LaterUserLines(r.reply) == []
  {
    MultiLineReplyIff(r.original.value, r.reply);
    TwoParts(r.original.value, M + DETAIL_TEXT + r.reply);
  }

  lemma LaterLines(first: string, rest: string)
    requires first != "" && SingleLine(first)
    ensures LaterUserLines(first + "\n" + rest) == UserLines(rest)
  {
    SingleLineSplit(first);
    SplitAtFeed(first, rest);
    assert ([first] + SplitLines(rest))[1..] == SplitLines(rest);
  }

  /** A detail of two lines, sent in answer to a clarification of a question. */
  function TwoLineDetail(original: string, first: string, rest: string): Reply {
    var reply := first + "\n" + rest;
    Reply(reply, reply, true, false, true, Some(original), None, false, false, false)
  }

  /** Stripping the query BuildFollowupQuery merges gives the stripped original. */
  predicate RoundTrips(r: Reply)
    requires InsertedLines(r).Some?
  {
    FreeText(Join("\n", [r.original.value] + InsertedLines(r).value)) == FreeText(r.original.value)
  }

  predicate Short(line: string) { Trimmed(line) && SingleLine(line) && |line| < |INTERNAL_LINE_MARKER| }

  /** A short second line always stays in the question. */
  lemma TwoLineDetailStays(original: string, first: string, rest: string)
    requires Short(original) && Short(first) && Short(rest)
    ensures InsertedLines(TwoLineDetail(original, first, rest)).Some?
    ensures !RoundTrips(TwoLineDetail(original, first, rest))
  {
    ShortIsOwn(original);
    ShortIsOwn(rest);
    LaterLines(first, rest);
    TwoTrimmedLines(first, rest);
    DetailReplyIff(TwoLineDetail(original, first, rest));
  }

  lemma TwoTrimmedLines(first: string, rest: string)
    requires Trimmed(first) && Trimmed(rest)
    ensures Trimmed(first + "\n" + rest)
  {
    var reply := first + "\n" + rest;
    assert reply[0] == first[0];
    LastOf(first + "\n", rest);
  }

  lemma ShortWords()
    ensures Short("sales") && Short("5") && Short("6")
  {
  }

  /** "sales", clarified by "5" and "6" on two lines: the 6 stays in the question. */
  lemma TwoLineReplyStays(question: string, first: string, rest: string)
    requires question == "sales" && first == "5" && rest == "6"
    ensures InsertedLines(TwoLineDetail(question, first, rest)).Some?
    ensures !RoundTrips(TwoLineDetail(question, first, rest))
  {
    ShortWords();
    TwoLineDetailStays(question, first, rest);
  }

  /** A one-line text shorter than the marker and the meta phrases is the user's own. */
  lemma ShortIsOwn(q: string)
    requires Short(q)
    ensures UserLines(q) == [q]
  {
    SqueezeShrinks(Lower(q), true);
    forall i | 0 <= i < |META_PHRASES| ensures !Contains(Normalize(q), META_PHRASES[i]) { PhrasesAreLong(i); }
    PlainQuestion(q);
  }

  lemma PhrasesAreLong(i: nat)
    requires i < |META_PHRASES|
    ensures |META_PHRASES[i]| >= |INTERNAL_LINE_MARKER|
  {
  }

  // ------------------------------------------------------------------
  // The active clarification window
  // ------------------------------------------------------------------

  /** What the window finders read of a history item; parsed is None for unreadable content. */
  datatype Payload = Payload(clarification: bool, terminalFailure: bool)
  datatype Item = User | Assistant(parsed: Option<Payload>)

  predicate Parsed(it: Item) { it.Assistant? && it.parsed.Some? }

  /** An assistant item the chain may run through: a clarification that is not a terminal lookup failure. */
  predicate InChain(it: Item) { Parsed(it) && it.parsed.value.clarification && !it.parsed.value.terminalFailure }

  /** The index of the last readable assistant payload. */
  ghost predicate LastPayload(h: seq<Item>, i: nat) {
    i < |h| && Parsed(h[i]) && forall j :: i < j < |h| ==> !Parsed(h[j])
  }

  /** start begins the longest run up to `last` whose earlier assistant items are all in the chain. */
  ghost predicate ChainStart(h: seq<Item>, last: nat, start: nat)
    requires last < |h|
  {
    && start <= last
    && (forall j :: start <= j < last ==> h[j] == User || h[j] == Assistant(Some(Payload(true, false))))
    && (start > 0 ==> h[start - 1] != User && h[start - 1] != Assistant(Some(Payload(true, false))))
  }

  method LastAssistantPayloadIndex(h: seq<Item>) returns (r: Option<nat>)
    ensures r.Some? ==> LastPayload(h, r.value)
    ensures r.None? ==> forall j :: 0 <= j < |h| ==> !Parsed(h[j])
  {
    var i := |h|;
    while i > 0
      invariant 0 <= i <= |h|
      invariant forall j :: i <= j < |h| ==> !Parsed(h[j])
    {
      i := i - 1;
      if Parsed(h[i]) { return Some(i); }
    }
    r := None;
  }

  /** active_clarification_window_start_index. */
  method ActiveWindowStart(h: seq<Item>) returns (start: Option<nat>)
    ensures start.None? <==> !(exists last: nat :: LastPayload(h, last) && h[last].parsed.value.clarification)
    ensures start.Some? ==> forall last: nat :: LastPayload(h, last) ==> ChainStart(h, last, start.value)
  {
    var last := LastAssistantPayloadIndex(h);
    if last.None? { return None; }
    forall l: nat | LastPayload(h, l) ensures l == last.value {
    }
    if !h[last.value].parsed.value.clarification { return None; }
    var idx := last.value;
    while idx > 0
      invariant 0 <= idx <= last.value
      invariant forall j :: idx <= j < last.value && h[j].Assistant? ==> InChain(h[j])
    {
      if h[idx - 1].Assistant? && !InChain(h[idx - 1]) {
        return Some(idx);
      }
      idx := idx - 1;
    }
    start := Some(0);
  }

  /** There is only one such start, so the window and the pruned history are determined. */
  lemma ChainStartUnique(h: seq<Item>, last: nat, a: nat, b: nat)
    requires last < |h| && ChainStart(h, last, a) && ChainStart(h, last, b)
    ensures a == b
  {
  }

  /** active_clarification_window and history_without_active_clarification_window, together. */
  method SplitHistory(h: seq<Item>) returns (without: seq<Item>, window: seq<Item>)
    ensures without + window == h || window == []
    ensures window == [] ==> without == h
    ensures window != [] <==> exists last: nat :: LastPayload(h, last) && h[last].parsed.value.clarification
    ensures window != [] ==> forall last: nat :: LastPayload(h, last) ==> ChainStart(h, last, |without|)
  {
    var start := ActiveWindowStart(h);
    if start.None? { return h, []; }
    without, window := h[..start.value], h[start.value..];
    ghost var last: nat :| LastPayload(h, last);
    assert start.value <= last < |h|;
  }
}
