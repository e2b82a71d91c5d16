/** The text helpers that decide which words of a query are the user's own. */
module TextUtils {
  import opened Seqs

  const INTERNAL_LINE_MARKER := "[internal]"

  const META_PHRASES: seq<string> :=
    ["user provided missing clarification detail", "user selected clarification option",
     "use exactly this canonical selected value", "selected lookup field", "selected option context only",
     "resolved pending clarification", "resolved raw lookup phrase", "lookup entity resolution needs clarification",
     "proceed to sql planning", "reply with the option number only"]

  // ------------------------------------------------------------------
  // Python's str methods, on the characters they single out
  // ------------------------------------------------------------------

  /** A line boundary of str.splitlines. */
  predicate LineBreak(c: char) {
    c == '\n' || c == '\r' || c == '\U{0B}' || c == '\U{0C}' || c == '\U{1C}' || c == '\U{1D}' || c == '\U{1E}'
    || c == '\U{85}' || c == '\U{2028}' || c == '\U{2029}'
  }

  /** A character str.strip removes. */
  predicate Space(c: char) {
    LineBreak(c) || c == ' ' || c == '\t' || c == '\U{1F}' || c == '\U{A0}' || c == '\U{1680}'
    || ('\U{2000}' <= c <= '\U{200A}') || c == '\U{202F}' || c == '\U{205F}' || c == '\U{3000}'
  }

  function LStrip(s: string): string { if s != "" && Space(s[0]) then LStrip(s[1..]) else s }
  function RStrip(s: string): string { if s != "" && Space(s[|s| - 1]) then RStrip(s[..|s| - 1]) else s }
  function Strip(s: string): string { RStrip(LStrip(s)) }

  function LowerChar(c: char): char { if 'A' <= c <= 'Z' then (c as int - 'A' as int + 'a' as int) as char else c }
  function Lower(s: string): string { seq(|s|, i requires 0 <= i < |s| => LowerChar(s[i])) }

  predicate OccursAt(s: string, sub: string, i: nat) { i + |sub| <= |s| && s[i..i + |sub|] == sub }
  predicate Contains(s: string, sub: string) { exists i :: 0 <= i <= |s| && OccursAt(s, sub, i) }

  function FirstBreak(s: string): (i: nat)
    ensures i <= |s|
    ensures forall k :: 0 <= k < i ==> !LineBreak(s[k])
    ensures i < |s| ==> LineBreak(s[i])
  {
    if s == "" || LineBreak(s[0]) then 0 else 1 + FirstBreak(s[1..])
  }

  /** Where the next line starts after a break at i: "\r\n" is one break. */
  function AfterBreak(s: string, i: nat): (j: nat)
    requires i < |s|
    ensures i < j <= |s|
  {
    if s[i] == '\r' && i + 1 < |s| && s[i + 1] == '\n' then i + 2 else i + 1
  }

  function SplitLines(s: string): seq<string> {
    if s == "" then []
    else
      var i := FirstBreak(s);
      if i == |s| then [s] else [s[..i]] + SplitLines(s[AfterBreak(s, i)..])
  }

  function Join(sep: string, parts: seq<string>): string {
    if parts == [] then "" else if |parts| == 1 then parts[0] else parts[0] + sep + Join(sep, parts[1..])
  }

  // ------------------------------------------------------------------
  // normalize_lookup_text
  // ------------------------------------------------------------------

  predicate WordChar(c: char) { ('a' <= c <= 'z') || ('0' <= c <= '9') }

  /** Lower case, every other character a separator, runs of separators one space. */
  function Normalize(s: string): string { Squeeze(Lower(s), true) }

  function Squeeze(s: string, atGap: bool): string {
    if s == "" then ""
    else if WordChar(s[0]) then [s[0]] + Squeeze(s[1..], false)
    else if atGap || Squeeze(s[1..], true) == "" then Squeeze(s[1..], true)
    else " " + Squeeze(s[1..], true)
  }

  // ------------------------------------------------------------------
  // internal_free_text
  // ------------------------------------------------------------------

  /** A line the copilot wrote rather than the user. */
  predicate Internal(line: string) {
    Contains(Lower(line), INTERNAL_LINE_MARKER)
    || exists i :: 0 <= i < |META_PHRASES| && Contains(Normalize(line), META_PHRASES[i])
  }

  function UserLine(): string -> seq<string> {
    (line: string) => if Strip(line) == "" || Internal(Strip(line)) then [] else [Strip(line)]
  }

  /** The user's own lines, trimmed. */
  function UserLines(s: string): seq<string> { FlatMap(UserLine(), SplitLines(s)) }

  function FreeText(value: string): string {
    var cleaned := Strip(value);
    if UserLines(cleaned) != [] then Join(" ", UserLines(cleaned)) else cleaned
  }

  /** internal_free_text. */
  method InternalFreeText(value: string) returns (text: string)
    ensures text == FreeText(value)
  {
    var cleaned := Strip(value);
    if cleaned == "" { return ""; }
    var userLines: seq<string> := [];
    var lines := SplitLines(cleaned);
    for i := 0 to |lines|
      invariant userLines == FlatMap(UserLine(), lines[..i])
    {
      FlatMapStep(UserLine(), lines, i);
      var line := Strip(lines[i]);
      if line == "" { continue; }
      if Internal(line) { continue; }
      userLines := userLines + [line];
    }
    assert lines[..|lines|] == lines;
    text := if userLines != [] then Join(" ", userLines) else cleaned;
  }

  // ------------------------------------------------------------------
  // Facts about them
  // ------------------------------------------------------------------

  /** Nothing to strip at either end. */
  predicate Trimmed(s: string) { s != "" && !Space(s[0]) && !Space(s[|s| - 1]) }

  lemma TrimmedIsStripped(s: string)
    requires Trimmed(s)
    ensures Strip(s) == s
  {
  }

  predicate SingleLine(s: string) { forall i :: 0 <= i < |s| ==> !LineBreak(s[i]) }

  lemma SingleLineSplit(s: string)
    requires s != "" && SingleLine(s)
    ensures SplitLines(s) == [s]
  {
  }

  lemma {:induction false} FirstBreakAt(s: string, i: nat)
    requires i <= |s| && (forall k :: 0 <= k < i ==> !LineBreak(s[k])) && (i < |s| ==> LineBreak(s[i]))
    ensures FirstBreak(s) == i
  {
  }

  /** A break inside the first text is the same break in the whole. */
  lemma FeedKeepsBreak(a: string, b: string, i: nat)
    requires i < |a| && LineBreak(a[i]) && !LineBreak(a[|a| - 1])
    ensures var s, j := a + "\n" + b, AfterBreak(a, i);
            AfterBreak(s, i) == j < |a| && s[..i] == a[..i] && s[j..] == a[j..] + "\n" + b
  {
    var s := a + "\n" + b;
    assert s[i] == a[i] && s[i + 1] == a[i + 1];
  }

  /** The first line of a text, and the rest. */
  lemma FirstLine(s: string, i: nat)
    requires i < |s| && (forall k :: 0 <= k < i ==> !LineBreak(s[k])) && LineBreak(s[i])
    ensures SplitLines(s) == [s[..i]] + SplitLines(s[AfterBreak(s, i)..])
  {
    FirstBreakAt(s, i);
  }

  lemma FeedAfterOneLine(a: string, b: string)
    requires a != "" && SingleLine(a)
    ensures SplitLines(a + "\n" + b) == SplitLines(a) + SplitLines(b)
  {
    var s := a + "\n" + b;
    assert s[|a|] == '\n';
    FirstLine(s, |a|);
    assert s[..|a|] == a && s[|a| + 1..] == b;
    SingleLineSplit(a);
  }

  /** Where the first line of the first text ends, so does that of the whole. */
  lemma FeedAfterMore(a: string, b: string, i: nat) returns (rest: string)
    requires i < |a| && (forall k :: 0 <= k < i ==> !LineBreak(a[k])) && LineBreak(a[i]) && !LineBreak(a[|a| - 1])
    ensures 0 < |rest| < |a| && rest[|rest| - 1] == a[|a| - 1]
    ensures SplitLines(a) == [a[..i]] + SplitLines(rest)
    ensures SplitLines(a + "\n" + b) == [a[..i]] + SplitLines(rest + "\n" + b)
  {
    FeedKeepsBreak(a, b, i);
    rest := a[AfterBreak(a, i)..];
    FirstLine(a, i);
    FirstLine(a + "\n" + b, i);
  }

  /** A single-line prefix joins the first line of a text. */
  lemma PrefixFirstLine(p: string, s: string)
    requires SingleLine(p) && s != ""
    ensures SplitLines(s) != [] && SplitLines(p + s) == [p + SplitLines(s)[0]] + SplitLines(s)[1..]
  {
    var i := FirstBreak(s);
    if i == |s| {
      SingleLineSplit(s);
      SingleLineSplit(p + s);
      assert [p + s] == [p + [s][0]] + [s][1..];
    } else {
      PrefixFirstOfMore(p, s, i);
    }
  }

  lemma PrefixFirstOfMore(p: string, s: string, i: nat)
    requires SingleLine(p) && i < |s| && (forall k :: 0 <= k < i ==> !LineBreak(s[k])) && LineBreak(s[i])
    ensures SplitLines(s) != [] && SplitLines(p + s) == [p + SplitLines(s)[0]] + SplitLines(s)[1..]
  {
    var rest := SplitLines(s[AfterBreak(s, i)..]);
    FirstLine(s, i);
    PrefixShiftsBreak(p, s, i);
    FirstLine(p + s, |p| + i);
    HeadOf(s[..i], rest);
  }

  lemma HeadOf(x: string, rest: seq<string>)
    ensures ([x] + rest)[0] == x && ([x] + rest)[1..] == rest
  {
  }

  lemma PrefixShiftsBreak(p: string, s: string, i: nat)
    requires SingleLine(p) && i < |s| && (forall k :: 0 <= k < i ==> !LineBreak(s[k])) && LineBreak(s[i])
    ensures (forall k :: 0 <= k < |p| + i ==> !LineBreak((p + s)[k])) && LineBreak((p + s)[|p| + i])
    ensures (p + s)[..|p| + i] == p + s[..i]
    ensures (p + s)[AfterBreak(p + s, |p| + i)..] == s[AfterBreak(s, i)..]
  {
    var whole := p + s;
    assert i + 1 < |s| ==> whole[|p| + i + 1] == s[i + 1];
    assert AfterBreak(whole, |p| + i) == |p| + AfterBreak(s, i);
  }

  /** Stripping the end of a text keeps a prefix that ends in a non-space. */
  lemma {:induction false} RStripKeeps(prefix: string, s: string) returns (kept: string)
    requires prefix != "" && !Space(prefix[|prefix| - 1])
    ensures RStrip(prefix + s) == prefix + kept
  {
    if s != "" && Space(s[|s| - 1]) {
      assert (prefix + s)[..|prefix + s| - 1] == prefix + s[..|s| - 1];
      kept := RStripKeeps(prefix, s[..|s| - 1]);
    } else {
      kept := s;
    }
  }

  lemma {:induction false} SqueezeShrinks(s: string, atGap: bool)
    ensures |Squeeze(s, atGap)| <= |s|
  {
    if s != "" {
      SqueezeShrinks(s[1..], true);
      SqueezeShrinks(s[1..], false);
    }
  }

  lemma {:induction false} LStripIs(s: string) returns (i: nat)
    ensures i <= |s| && LStrip(s) == s[i..] && forall k :: 0 <= k < i ==> Space(s[k])
    ensures i < |s| ==> !Space(s[i])
  {
    i := 0;
    if s != "" && Space(s[0]) {
      var j := LStripIs(s[1..]);
      i := j + 1;
      assert s[1..][j..] == s[i..];
    }
  }

  lemma {:induction false} RStripIs(s: string) returns (j: nat)
    ensures j <= |s| && RStrip(s) == s[..j] && forall k :: j <= k < |s| ==> Space(s[k])
    ensures j > 0 ==> !Space(s[j - 1])
  {
    j := |s|;
    if s != "" && Space(s[|s| - 1]) {
      j := RStripIs(s[..|s| - 1]);
      assert s[..|s| - 1][..j] == s[..j];
    }
  }

  /** Stripping takes away the spaces at both ends and nothing else. */
  lemma StripIs(s: string) returns (i: nat, j: nat)
    ensures i <= j <= |s| && Strip(s) == s[i..j]
    ensures forall k :: 0 <= k < i || j <= k < |s| ==> Space(s[k])
    ensures i < j ==> !Space(s[i]) && !Space(s[j - 1])
  {
    i := LStripIs(s);
    var n := RStripIs(s[i..]);
    j := i + n;
    assert s[i..][..n] == s[i..j];
    forall k | j <= k < |s| ensures Space(s[k]) { assert s[i..][k - i] == s[k]; }
  }

  predicate Words(s: string) { forall i :: 0 <= i < |s| ==> 'a' <= s[i] <= 'z' || '0' <= s[i] <= '9' }
  predicate Gap(s: string) { s != "" && forall i :: 0 <= i < |s| ==> !('a' <= s[i] <= 'z') && !('0' <= s[i] <= '9') }

  /** Two texts with a space between them, or the one that is not empty. */
  function Spaced(a: string, b: string): string { if a == "" then b else if b == "" then a else a + " " + b }

  lemma {:induction false} SqueezeWord(s: string, atGap: bool)
    requires Words(s)
    ensures Squeeze(s, atGap) == s
  {
    if s != "" {
      SqueezeWord(s[1..], false);
      assert s == [s[0]] + s[1..];
    }
  }

  lemma {:induction false} SqueezeGap(sep: string, b: string, atGap: bool)
    requires Gap(sep)
    ensures Squeeze(sep + b, atGap)
         == if atGap || Squeeze(b, true) == "" then Squeeze(b, true) else " " + Squeeze(b, true)
  {
    var s := sep + b;
    assert s[0] == sep[0] && s[1..] == sep[1..] + b;
    if |sep| > 1 { SqueezeGap(sep[1..], b, true); } else { assert s[1..] == b; }
  }

  lemma {:induction false} SqueezeJoins(a: string, sep: string, b: string, atGap: bool)
    requires Gap(sep)
    ensures Squeeze(a + sep + b, atGap)
         == if Squeeze(a, atGap) == "" && !atGap && Squeeze(b, true) != "" then " " + Squeeze(b, true)
            else Spaced(Squeeze(a, atGap), Squeeze(b, true))
  {
    var s := a + sep + b;
    if a == "" {
      assert s == sep + b;
      SqueezeGap(sep, b, atGap);
    } else {
      assert s[0] == a[0] && s[1..] == a[1..] + sep + b;
      SqueezeJoins(a[1..], sep, b, !WordChar(a[0]));
    }
  }

  lemma LowerJoins(a: string, b: string)
    ensures Lower(a + b) == Lower(a) + Lower(b)
  {
  }

  /**
   * Normalising keeps words and puts one space where anything else stood between two of them: a word is
   * itself in lower case, and a gap joins what stands on its sides.
   */
  lemma NormalizeJoins(a: string, sep: string, b: string)
    requires Gap(Lower(sep))
    ensures Normalize(a + sep + b) == Spaced(Normalize(a), Normalize(b))
    ensures Words(Lower(a)) ==> Normalize(a) == Lower(a)
  {
    LowerJoins(a + sep, b);
    LowerJoins(a, sep);
    SqueezeJoins(Lower(a), Lower(sep), Lower(b), true);
    if Words(Lower(a)) { SqueezeWord(Lower(a), true); }
  }

  /** A line the user wrote: not blank, not marked, and no meta phrase. */
  predicate Own(line: string) { Strip(line) != "" && !Internal(Strip(line)) }

  /** A text has a user line exactly when some line of it is the user's own. */
  lemma UserLinesIff(s: string)
    ensures UserLines(s) != [] <==> exists line :: line in SplitLines(s) && Own(line)
  {
    FlatMapNonEmpty(UserLine(), SplitLines(s));
    forall line ensures UserLine()(line) != [] <==> Own(line) {
      OwnLine(line);
    }
  }

  /** The characters that end a line, and those stripped from the ends of a text, by code point. */
  predicate BreakCode(n: int) { 10 <= n <= 13 || 28 <= n <= 30 || n == 133 || n == 8232 || n == 8233 }
  predicate SpaceCode(n: int) {
    BreakCode(n) || n == 9 || n == 31 || n == 32 || n == 160 || n == 5760 || 8192 <= n <= 8202 || n == 8239 || n == 8287
    || n == 12288
  }

  lemma CodesAre(c: char)
    ensures LineBreak(c) <==> BreakCode(c as int)
    ensures Space(c) <==> SpaceCode(c as int)
    ensures LowerChar(c) as int == if 65 <= c as int <= 90 then c as int + 32 else c as int
  {
  }

  /** The text up to its first break is its first line; a carriage return takes a line feed behind it along. */
  lemma LineEnds(a: string, br: string, b: string)
    requires forall i :: 0 <= i < |a| ==> !BreakCode(a[i] as int)
    requires br == "\r\n" || (|br| == 1 && BreakCode(br[0] as int) && (br == "\r" && b != "" ==> b[0] != '\n'))
    ensures SplitLines(a + br + b) == [a] + SplitLines(b)
    ensures a != "" ==> SplitLines(a) == [a]
  {
    var s := a + br + b;
    CodesAre(br[0]);
    forall i | 0 <= i < |a| ensures !LineBreak(s[i]) && !LineBreak(a[i]) { CodesAre(a[i]); }
    assert s[|a|] == br[0];
    FirstLine(s, |a|);
    if br == "\r" && b != "" { assert s[|a| + 1] == b[0]; }
    if br == "\r\n" { assert s[|a| + 1] == '\n'; }
    assert s[..|a|] == a && s[|a| + |br|..] == b;
    if a != "" { SingleLineSplit(a); }
  }

  /** Which lines are the user's own, with the marker and the phrases the copilot writes. */
  lemma OwnMeans(line: string)
    ensures Own(line) <==>
            && Strip(line) != "" && !Contains(Lower(Strip(line)), "[internal]")
            && forall phrase :: Contains(Normalize(Strip(line)), phrase) ==> !MetaPhrase(phrase)
  {
    if i :| 0 <= i < |META_PHRASES| && Contains(Normalize(Strip(line)), META_PHRASES[i]) {
      assert MetaPhrase(META_PHRASES[i]);
    }
    if phrase :| Contains(Normalize(Strip(line)), phrase) && MetaPhrase(phrase) { PhraseListed(phrase); }
  }

  predicate MetaPhrase(phrase: string) {
    || phrase == "user provided missing clarification detail" || phrase == "user selected clarification option"
    || phrase == "use exactly this canonical selected value" || phrase == "selected lookup field"
    || phrase == "selected option context only" || phrase == "resolved pending clarification"
    || phrase == "resolved raw lookup phrase" || phrase == "lookup entity resolution needs clarification"
    || phrase == "proceed to sql planning" || phrase == "reply with the option number only"
  }

  lemma PhraseListed(phrase: string)
    requires MetaPhrase(phrase)
    ensures exists i :: 0 <= i < |META_PHRASES| && META_PHRASES[i] == phrase
  {
    var all := META_PHRASES;
    assert phrase == all[0] || phrase == all[1] || phrase == all[2] || phrase == all[3] || phrase == all[4]
        || phrase == all[5] || phrase == all[6] || phrase == all[7] || phrase == all[8] || phrase == all[9];
  }

  lemma OwnLine(line: string)
    ensures UserLine()(line) != [] <==> Own(line)
  {
  }

  /** A plain one-line question is its own only user line. */
  lemma PlainQuestion(q: string)
    requires Trimmed(q) && SingleLine(q) && !Internal(q)
    ensures UserLines(q) == [q]
  {
    SingleLineSplit(q);
    TrimmedIsStripped(q);
    assert [q][..0] == [];
    assert FlatMap(UserLine(), [q]) == FlatMap(UserLine(), []) + UserLine()(q);
  }

  /** A line feed after a text that does not end in a break separates its lines from what follows. */
  lemma {:induction false} SplitAtFeed(a: string, b: string)
    requires a != "" && !LineBreak(a[|a| - 1])
    ensures SplitLines(a + "\n" + b) == SplitLines(a) + SplitLines(b)
    decreases |a|
  {
    var i := FirstBreak(a);
    if i == |a| {
      FeedAfterOneLine(a, b);
    } else {
      var rest := FeedAfterMore(a, b, i);
      SplitAtFeed(rest, b);
      Regroup([a[..i]], SplitLines(rest), SplitLines(b));
    }
  }

  lemma Regroup(x: seq<string>, y: seq<string>, z: seq<string>)
    ensures x + (y + z) == (x + y) + z
  {
  }

  lemma UserLinesAtFeed(a: string, b: string)
    requires a != "" && !LineBreak(a[|a| - 1])
    ensures UserLines(a + "\n" + b) == UserLines(a) + UserLines(b)
  {
    SplitAtFeed(a, b);
    FlatMapAppend(UserLine(), SplitLines(a), SplitLines(b));
  }

  lemma {:induction false} JoinLonger(sep: string, us: seq<string>, vs: seq<string>)
    requires us != [] && vs != [] && sep != ""
    ensures |Join(sep, us + vs)| > |Join(sep, us)|
  {
    if |us| == 1 {
      assert us + vs == [us[0]] + vs;
      assert (us + vs)[1..] == vs;
    } else {
      assert (us + vs)[1..] == us[1..] + vs;
      JoinLonger(sep, us[1..], vs);
    }
  }
}
