/** The rollback's edit of the env file, and exactly when the parser reads back what it wrote. */
module EnvEdit {
  import opened Wrappers
  import opened EnvFile

  // ---------------------------------------------------------------- the editor

  predicate Assigns(line: string, key: string) {
    key + "=" <= line
  }

  function Matches(lines: seq<string>, key: string): (r: seq<int>)
    ensures forall i :: i in r <==> 0 <= i < |lines| && Assigns(lines[i], key)
    ensures forall a, b :: 0 <= a < b < |r| ==> r[a] < r[b]
  {
    if lines == [] then []
    else
      var n := |lines| - 1;
      var before := Matches(lines[..n], key);
      assert forall a :: 0 <= a < |before| ==> before[a] in before;
      before + if Assigns(lines[n], key) then [n] else []
  }

  function Line(key: string, value: string): string {
    key + "=" + value
  }

  function AppendLine(text: string, line: string): string {
    (if text != [] && text[|text| - 1] != '\n' then text + "\n" else text) + line + "\n"
  }

  // None: a duplicate blocks the rollback.
  function Edit(text: string, key: string, value: string): Option<string> {
    var lines := Split(text, NEWLINE);
    var matches := Matches(lines, key);
    if |matches| > 1 then None
    else if matches != [] then
      assert matches[0] in matches;
      Some(Join(lines[matches[0] := Line(key, value)]))
    else Some(AppendLine(text, Line(key, value)))
  }

  function EditAll(text: string, previous: seq<(string, string)>): Option<string> {
    if previous == [] then Some(text)
    else
      var n := |previous| - 1;
      var before := EditAll(text, previous[..n]);
      if before.None? then None else Edit(before.value, previous[n].0, previous[n].1)
  }

  method RollbackText(text: string, previous: seq<(string, string)>) returns (r: Option<string>)
    ensures r == EditAll(text, previous)
  {
    hide Edit;
    var edited := text;
    for i := 0 to |previous|
      invariant EditAll(text, previous[..i]) == Some(edited)
    {
      assert previous[..i + 1][..i] == previous[..i];
      var next := Edit(edited, previous[i].0, previous[i].1);
      if next.None? {
        BlockedStays(text, previous, i + 1);
        return None;
      }
      edited := next.value;
    }
    assert previous[..|previous|] == previous;
    return Some(edited);
  }

  lemma {:induction false} BlockedStays(text: string, previous: seq<(string, string)>, k: nat)
    requires k <= |previous| && EditAll(text, previous[..k]).None?
    ensures EditAll(text, previous).None?
    decreases |previous| - k
  {
    if k == |previous| {
      assert previous[..k] == previous;
    } else {
      assert previous[..k + 1][..k] == previous[..k];
      BlockedStays(text, previous, k + 1);
    }
  }

  // ---------------------------------------------------------------- lines that assign

  // Normalised configuration values are booleans and decimals.
  predicate Plain(value: string) {
    forall i :: 0 <= i < |value| ==> IsLetter(value[i]) || '0' <= value[i] <= '9'
  }

  lemma {:induction false} SplitKeepsPrefix(p: string, s: string)
    requires p <= s && forall i :: 0 <= i < |p| ==> !IsBreak(p[i])
    ensures p <= Split(s, IsBreak)[0]
  {
    if p != [] {
      SplitKeepsPrefix(p[1..], s[1..]);
      assert s[0] == p[0];
      assert p == [p[0]] + p[1..];
    }
  }

  lemma {:induction false} NoBreakNoSplit(s: string)
    requires forall i :: 0 <= i < |s| ==> !IsBreak(s[i])
    ensures Split(s, IsBreak) == [s]
  {
    if s != [] { NoBreakNoSplit(s[1..]); assert s == [s[0]] + s[1..]; }
  }

  lemma {:induction false} StripRightKeeps(p: string, s: string)
    requires p <= s && p != [] && !IsSpace(p[|p| - 1])
    ensures p <= StripRight(s)
  {
    if IsSpace(s[|s| - 1]) {
      assert |p| < |s|;
      assert p <= s[..|s| - 1];
      StripRightKeeps(p, s[..|s| - 1]);
    }
  }

  lemma IndexIs(s: string, k: string)
    requires k + "=" <= s && '=' !in k
    ensures IndexOf(s, '=') == |k|
  {
    assert s[|k|] == '=';
    assert forall i :: 0 <= i < |k| ==> s[i] == k[i];
    assert forall i :: 0 <= i < |k| ==> s[i] in k;
  }

  lemma KeyChars(key: string)
    requires IsKey(key)
    ensures '=' !in key && key[0] != '#' && !IsSpace(key[0]) && !IsSpace(key[|key| - 1]) && !IsSpace('=')
    ensures forall i :: 0 <= i < |key| ==> !IsBreak(key[i])
  {
  }

  lemma StripKeepsKey(key: string)
    requires IsKey(key)
    ensures Strip(key) == key
  {
    KeyChars(key);
    hide IsKey, IsSpace;
  }

  lemma StripKeepsAssignment(raw: string, key: string)
    requires IsKey(key) && Assigns(raw, key)
    ensures Strip(raw) == StripRight(raw) && key + "=" <= StripRight(raw)
    ensures IndexOf(StripRight(raw), '=') == |key|
  {
    KeyChars(key);
    hide IsKey, IsSpace;
    var p := key + "=";
    assert p[|p| - 1] == '=' && raw[0] == p[0] == key[0];
    assert StripLeft(raw) == raw;
    StripRightKeeps(p, raw);
    IndexIs(StripRight(raw), key);
  }

  // A line beginning with the key and '=' is read as that key.
  lemma AssignmentParses(raw: string, key: string)
    requires IsKey(key) && Assigns(raw, key)
    ensures var line := StripRight(raw);
            key + "=" <= line && ParseLine(raw) == Pair(key, Unquote(line[|key| + 1..]))
  {
    KeyChars(key);
    StripKeepsKey(key);
    StripKeepsAssignment(raw, key);
    hide IsKey, Strip, StripRight, IndexOf, Unquote;
    var line := Strip(raw);
    assert line[..|key|] == key && line[0] == key[0];
  }

  lemma AssignmentEntry(line: string, key: string)
    requires IsKey(key) && Assigns(line, key)
    ensures EntriesOf(line) != [] && EntriesOf(line)[0].Pair? && EntriesOf(line)[0].key == key
  {
    var p := key + "=";
    assert forall i :: 0 <= i < |p| ==> !IsBreak(p[i]);
    SplitKeepsPrefix(p, line);
    AssignmentParses(Split(line, IsBreak)[0], key);
    hide ParseLine;
  }

  lemma LineChars(key: string, value: string)
    requires IsKey(key) && Plain(value)
    ensures forall i :: 0 <= i < |Line(key, value)| ==> !IsSpace(Line(key, value)[i]) && !IsBreak(Line(key, value)[i])
    ensures Unquote(value) == value
  {
  }

  lemma PlainLineParses(key: string, value: string)
    requires IsKey(key) && Plain(value)
    ensures ParseLine(Line(key, value)) == Pair(key, value)
  {
    LineChars(key, value);
    AssignmentParses(Line(key, value), key);
    hide ParseLine, IsSpace, IsKey, Plain;
    assert Line(key, value)[|key| + 1..] == value;
  }

  // The first character that is no space, if there is one.
  predicate FirstAt(s: string, i: nat) {
    i < |s| && !IsSpace(s[i]) && forall k :: 0 <= k < i ==> IsSpace(s[k])
  }

  lemma {:induction false} StripLeftFirst(s: string)
    ensures StripLeft(s) == [] <==> forall i :: 0 <= i < |s| ==> IsSpace(s[i])
    ensures StripLeft(s) != [] ==> exists i: nat :: FirstAt(s, i) && s[i] == StripLeft(s)[0]
  {
    if s != [] && IsSpace(s[0]) {
      StripLeftFirst(s[1..]);
      hide IsSpace;
      assert s == [s[0]] + s[1..];
      if StripLeft(s[1..]) != [] {
        var i: nat :| FirstAt(s[1..], i) && s[1..][i] == StripLeft(s[1..])[0];
        assert FirstAt(s, i + 1);
      }
    } else if s != [] {
      assert FirstAt(s, 0);
    }
  }

  /** A line is passed over exactly when it is blank or its first character that is no space is '#'. */
  lemma SkippedIff(raw: string)
    ensures ParseLine(raw).Skip? <==>
              (forall i :: 0 <= i < |raw| ==> IsSpace(raw[i])) || exists i: nat :: FirstAt(raw, i) && raw[i] == '#'
  {
    StripLeftFirst(raw);
    var left := StripLeft(raw);
    if left != [] {
      var i: nat :| FirstAt(raw, i) && raw[i] == left[0];
      StripRightKeeps([left[0]], left);
      assert Strip(raw)[0] == left[0];
      hide Strip, IsKey, Unquote;
      forall k: nat | FirstAt(raw, k) ensures k == i {}
    }
  }

  predicate IsQuote(c: char) {
    c == '"' || c == '\''
  }

  function Quoted(quote: char, text: string): string {
    [quote] + text + [quote]
  }

  /** A pair of equal quotes around a value is taken off, once; anything else is left alone. */
  lemma UnquotedIff(value: string, text: string)
    ensures Unquote(value) == text <==>
              || (exists quote :: IsQuote(quote) && value == Quoted(quote, text))
              || (value == text && forall quote, inner :: IsQuote(quote) ==> value != Quoted(quote, inner))
  {
    forall quote, inner | IsQuote(quote) && value == Quoted(quote, inner) ensures Unquote(value) == inner {
      assert value[1..|value| - 1] == inner;
    }
    if Unquote(value) != value {
      assert value == Quoted(value[0], value[1..|value| - 1]);
    }
  }

  /** So any text between quotes is read as it is, with its spaces and its '=' and without another look at it. */
  lemma QuotedLineParses(key: string, quote: char, text: string)
    requires IsKey(key) && IsQuote(quote)
    ensures ParseLine(Line(key, Quoted(quote, text))) == Pair(key, text)
  {
    var raw := Line(key, Quoted(quote, text));
    assert !IsSpace(quote) && raw[|raw| - 1] == quote;
    assert StripRight(raw) == raw;
    AssignmentParses(raw, key);
    UnquotedIff(Quoted(quote, text), text);
    hide ParseLine, IsSpace, IsKey, Unquote, StripRight;
    assert raw[|key| + 1..] == Quoted(quote, text);
  }

  lemma WrittenEntry(key: string, value: string)
    requires IsKey(key) && Plain(value)
    ensures EntriesOf(Line(key, value)) == [Pair(key, value)]
    ensures '\n' !in Line(key, value)
  {
    hide ParseLine, IsSpace, IsKey, Plain, Line;
    LineChars(key, value);
    PlainLineParses(key, value);
    NoBreakNoSplit(Line(key, value));
  }

  // ---------------------------------------------------------------- loading around one line

  lemma {:induction false} LoadLinesAppend(a: seq<string>, b: seq<string>)
    ensures LoadLines(a + b) == Both(LoadLines(a), LoadLines(b))
  {
    hide EntriesOf, Collect, Both;
    if a == [] {
      assert a + b == b;
      NothingBefore(LoadLines(b));
    } else {
      LoadLinesAppend(a[1..], b);
      assert (a + b)[1..] == a[1..] + b && (a + b)[0] == a[0];
      BothAssociates(Collect(EntriesOf(a[0])), LoadLines(a[1..]), LoadLines(b));
    }
  }

  lemma NothingBefore(a: Option<Values>)
    ensures Both(Some(map[]), a) == a
  {
    if a.Some? { assert map[] + a.value == a.value; }
  }

  lemma BothAssociates(a: Option<Values>, b: Option<Values>, c: Option<Values>)
    ensures Both(a, Both(b, c)) == Both(Both(a, b), c)
  {
    if a.Some? && b.Some? && c.Some? {
      assert (a.value + b.value).Keys == a.value.Keys + b.value.Keys;
      assert (b.value + c.value).Keys == b.value.Keys + c.value.Keys;
      if a.value.Keys !! b.value.Keys && (a.value + b.value).Keys !! c.value.Keys {
        assert a.value + (b.value + c.value) == (a.value + b.value) + c.value;
      }
    }
  }

  lemma LoadAround(lines: seq<string>, i: nat)
    requires i < |lines|
    ensures LoadLines(lines) ==
            Both(LoadLines(lines[..i]), Both(Collect(EntriesOf(lines[i])), LoadLines(lines[i + 1..])))
  {
    assert lines == lines[..i] + lines[i..];
    LoadLinesAppend(lines[..i], lines[i..]);
    assert lines[i..][1..] == lines[i + 1..];
  }

  predicate AllSkip(entries: seq<Entry>) {
    forall i :: 0 <= i < |entries| ==> entries[i].Skip?
  }

  lemma {:induction false} EmptyIffSkips(entries: seq<Entry>)
    ensures Collect(entries) == Some(map[]) <==> AllSkip(entries)
  {
    if entries != [] {
      var n := |entries| - 1;
      EmptyIffSkips(entries[..n]);
      assert entries == entries[..n] + [entries[n]];
      if entries[n].Pair? && Collect(entries).Some? { assert entries[n].key in Collect(entries).value; }
    }
  }

  // The line holds nothing besides its one assignment, even where the parser breaks it further.
  predicate Alone(line: string) {
    AllSkip(EntriesOf(line)[1..])
  }

  predicate Canonical(lines: seq<string>, key: string) {
    exists i :: 0 <= i < |lines| && Assigns(lines[i], key) && Alone(lines[i])
  }

  // ---------------------------------------------------------------- one edit

  // Where a line assigns the key, the whole text loads as what is around that line, plus that line.
  lemma LineLoads(lines: seq<string>, i: nat, key: string) returns (before: Values, was: string, tail: Values, after: Values)
    requires LoadLines(lines).Some? && i < |lines| && IsKey(key) && Assigns(lines[i], key)
    ensures LoadLines(lines[..i]) == Some(before) && LoadLines(lines[i + 1..]) == Some(after)
    ensures Collect(EntriesOf(lines[i])) == Both(Some(map[key := was]), Some(tail))
    ensures LoadLines(lines) == Both(Some(before), Both(Both(Some(map[key := was]), Some(tail)), Some(after)))
    ensures tail == map[] <==> Alone(lines[i])
    ensures key !in after && key in LoadLines(lines).value
  {
    LoadAround(lines, i);
    AssignmentEntry(lines[i], key);
    var entries := EntriesOf(lines[i]);
    assert entries == [entries[0]] + entries[1..];
    CollectAppend([entries[0]], entries[1..]);
    EmptyIffSkips(entries[1..]);
    OneEntry(key, entries[0].value);
    hide EntriesOf, Assigns;
    before, was, after := LoadLines(lines[..i]).value, entries[0].value, LoadLines(lines[i + 1..]).value;
    tail := Collect(entries[1..]).value;
  }

  lemma OneEntry(key: string, value: string)
    ensures Collect([Pair(key, value)]) == Some(map[key := value])
  {
    assert [Pair(key, value)][..0] == [];
  }

  lemma ReplacedLineLoads(lines: seq<string>, i: nat, key: string, value: string)
    requires i < |lines| && IsKey(key) && Plain(value)
    ensures LoadLines(lines[i := Line(key, value)]) ==
            Both(LoadLines(lines[..i]), Both(Some(map[key := value]), LoadLines(lines[i + 1..])))
  {
    var edited := lines[i := Line(key, value)];
    LoadAround(edited, i);
    assert edited[..i] == lines[..i] && edited[i + 1..] == lines[i + 1..];
    WrittenEntry(key, value);
    OneEntry(key, value);
    hide EntriesOf, Line;
  }

  lemma PartsOverwrite(before: Values, key: string, was: string, tail: Values, after: Values, value: string, whole: Values)
    requires Both(Some(before), Both(Both(Some(map[key := was]), Some(tail)), Some(after))) == Some(whole)
    ensures key in whole
    ensures Both(Some(before), Both(Some(map[key := value]), Some(after))) == Some(whole[key := value]) <==> tail == map[]
  {
    var edited := before + (map[key := value] + after);
    assert (map[key := was] + tail).Keys == {key} + tail.Keys;
    assert (map[key := was] + tail + after).Keys == {key} + tail.Keys + after.Keys;
    assert (map[key := value] + after).Keys == {key} + after.Keys;
    if tail == map[] {
      assert edited == whole[key := value];
    } else {
      var k :| k in tail;
      assert k in whole[key := value] && k !in edited;
    }
  }

  lemma AtMostOneMatch(lines: seq<string>, key: string, i: nat, k: nat)
    requires LoadLines(lines).Some? && IsKey(key) && i < k < |lines| && Assigns(lines[i], key)
    ensures !Assigns(lines[k], key)
  {
    hide LoadLines, EntriesOf, Collect, Both, Alone, Assigns, IsKey;
    if Assigns(lines[k], key) {
      var before, was, tail, after := LineLoads(lines, i, key);
      assert lines[i + 1..][k - i - 1] == lines[k];
      var b, o, t, a := LineLoads(lines[i + 1..], k - i - 1, key);
    }
  }

  lemma LinesOf(text: string) returns (lines: seq<string>)
    ensures lines == Split(text, NEWLINE) && Join(lines) == text && Load(text) == LoadLines(lines)
    ensures forall line :: line in lines ==> '\n' !in line
  {
    lines := Split(text, NEWLINE);
    JoinSplit(text);
    LoadByLines(lines);
  }

  lemma EditInPlace(text: string, key: string, value: string, i: nat, whole: Values)
    requires Load(text) == Some(whole) && IsKey(key) && Plain(value)
    requires i < |Split(text, NEWLINE)| && Assigns(Split(text, NEWLINE)[i], key)
    ensures key in whole && Edit(text, key, value).Some?
    ensures Load(Edit(text, key, value).value) == Some(whole[key := value]) <==> Alone(Split(text, NEWLINE)[i])
    ensures Split(Edit(text, key, value).value, NEWLINE) == Split(text, NEWLINE)[i := Line(key, value)]
  {
    var lines := LinesOf(text);
    var edited := lines[i := Line(key, value)];
    OnlyMatch(lines, key, i);
    WrittenEntry(key, value);
    forall line | line in edited ensures '\n' !in line { assert line == Line(key, value) || line in lines; }
    LoadByLines(edited);
    SplitJoin(edited);
    ReplacedLineLoads(lines, i, key, value);
    var before, was, tail, after := LineLoads(lines, i, key);
    hide Load, LoadLines, Split, EntriesOf, Both, Assigns, Line;
    PartsOverwrite(before, key, was, tail, after, value, whole);
  }

  lemma OnlyMatch(lines: seq<string>, key: string, i: nat)
    requires LoadLines(lines).Some? && IsKey(key) && i < |lines| && Assigns(lines[i], key)
    ensures Matches(lines, key) == [i]
  {
    hide LoadLines, Assigns;
    var m := Matches(lines, key);
    forall k | 0 <= k < |lines| && k != i ensures !Assigns(lines[k], key) {
      if Assigns(lines[k], key) {
        if i < k { AtMostOneMatch(lines, key, i, k); } else { AtMostOneMatch(lines, key, k, i); }
      }
    }
    SingleMatch(lines, key, i);
  }

  lemma {:induction false} SingleMatch(lines: seq<string>, key: string, i: nat)
    requires i < |lines| && forall k :: 0 <= k < |lines| ==> (Assigns(lines[k], key) <==> k == i)
    ensures Matches(lines, key) == [i]
  {
    var n := |lines| - 1;
    if n == i { NoMatch(lines[..n], key); } else { SingleMatch(lines[..n], key, i); }
  }

  lemma {:induction false} NoMatch(lines: seq<string>, key: string)
    requires forall k :: 0 <= k < |lines| ==> !Assigns(lines[k], key)
    ensures Matches(lines, key) == []
  {
    if lines != [] { NoMatch(lines[..|lines| - 1], key); }
  }

  // ---------------------------------------------------------------- appending

  // The lines after the new one was appended.
  function Appended(lines: seq<string>, line: string): seq<string>
    requires lines != []
  {
    var n := |lines| - 1;
    (if lines[n] == [] then lines[..n] else lines) + [line, ""]
  }

  lemma {:induction false} JoinAppend(a: seq<string>, b: seq<string>)
    requires a != [] && b != []
    ensures Join(a + b) == Join(a) + "\n" + Join(b)
  {
    if |a| == 1 {
      assert (a + b)[1..] == b;
    } else {
      JoinAppend(a[1..], b);
      assert (a + b)[1..] == a[1..] + b;
      assert Join(a + b) == a[0] + "\n" + (Join(a[1..]) + "\n" + Join(b));
    }
  }

  lemma {:induction false} LastLine(lines: seq<string>)
    requires lines != [] && '\n' !in lines[|lines| - 1]
    ensures var text := Join(lines); var last := lines[|lines| - 1];
            last == [] <==> text == [] || text[|text| - 1] == '\n'
  {
    if |lines| > 1 {
      LastLine(lines[1..]);
      assert Join(lines) == lines[0] + "\n" + Join(lines[1..]);
    } else {
      assert Join(lines) == lines[0];
    }
  }

  lemma AppendedText(lines: seq<string>, line: string)
    requires lines != [] && forall l :: l in lines ==> '\n' !in l
    ensures AppendLine(Join(lines), line) == Join(Appended(lines, line))
  {
    var n := |lines| - 1;
    LastLine(lines);
    var tail := [line, ""];
    assert Join(tail) == line + "\n" by { assert tail[1..] == [""]; }
    if lines[n] != [] {
      JoinAppend(lines, tail);
      assert Join(lines) + "\n" + (line + "\n") == (Join(lines) + "\n") + line + "\n";
    } else if n == 0 {
      assert lines[..0] + tail == tail;
      assert Join(lines) == [];
    } else {
      JoinAppend(lines[..n], tail);
      JoinAppend(lines[..n], [lines[n]]);
      assert lines == lines[..n] + [lines[n]];
      assert Join(lines) == Join(lines[..n]) + "\n" + [];
    }
  }

  lemma BlankLine()
    ensures LoadLines([""]) == Some(map[])
  {
    assert Split("", IsBreak) == [""];
    assert ParseLine("") == Skip;
    assert EntriesOf("") == [Skip];
    assert [Skip][..0] == [];
    assert Collect([Skip]) == Some(map[]);
    BothEmpty(Some(map[]));
  }

  lemma AppendedLoads(lines: seq<string>, key: string, value: string)
    requires lines != [] && IsKey(key) && Plain(value)
    ensures LoadLines(Appended(lines, Line(key, value))) == Both(LoadLines(lines), Some(map[key := value]))
  {
    var n := |lines| - 1;
    var line := Line(key, value);
    var kept := if lines[n] == [] then lines[..n] else lines;
    BlankLine();
    WrittenEntry(key, value);
    OneEntry(key, value);
    hide EntriesOf, Collect, Line, Both;
    assert [line, ""][1..] == [""];
    LoadLinesAppend(kept, [line, ""]);
    BothEmpty(Some(map[key := value]));
    if lines[n] == [] {
      assert lines == kept + [""];
      LoadLinesAppend(kept, [""]);
      BothEmpty(LoadLines(kept));
    }
  }

  lemma EditAppends(text: string, key: string, value: string, whole: Values)
    requires Load(text) == Some(whole) && IsKey(key) && Plain(value)
    requires forall i :: 0 <= i < |Split(text, NEWLINE)| ==> !Assigns(Split(text, NEWLINE)[i], key)
    ensures Edit(text, key, value).Some?
    ensures Load(Edit(text, key, value).value) == Both(Some(whole), Some(map[key := value]))
    ensures Split(Edit(text, key, value).value, NEWLINE) == Appended(Split(text, NEWLINE), Line(key, value))
  {
    var lines := LinesOf(text);
    NoMatch(lines, key);
    WrittenEntry(key, value);
    var line := Line(key, value);
    var edited := Appended(lines, line);
    forall l | l in edited ensures '\n' !in l { assert l in lines || l == line || l == ""; }
    AppendedText(lines, line);
    LoadByLines(edited);
    SplitJoin(edited);
    AppendedLoads(lines, key, value);
  }

  // ---------------------------------------------------------------- the law

  /** Loading the edited text gives the old map with one key overwritten exactly when that key is new or stands
      on a line of its own, in the first column and directly followed by '='. */
  lemma EditThenLoad(text: string, key: string, value: string, whole: Values)
    requires Load(text) == Some(whole) && IsKey(key) && Plain(value)
    ensures Edit(text, key, value).Some?
    ensures Load(Edit(text, key, value).value) == Some(whole[key := value])
            <==> key !in whole || Canonical(Split(text, NEWLINE), key)
  {
    var lines := Split(text, NEWLINE);
    if i :| 0 <= i < |lines| && Assigns(lines[i], key) {
      EditInPlace(text, key, value, i, whole);
      OnlyAssigning(text, key, i);
      hide Load, Edit, Split, Assigns, Alone;
    } else {
      EditAppends(text, key, value, whole);
      hide Load, Edit, Split, Assigns, Alone;
      assert whole + map[key := value] == whole[key := value];
    }
  }

  lemma OnlyAssigning(text: string, key: string, i: nat)
    requires Load(text).Some? && IsKey(key) && i < |Split(text, NEWLINE)| && Assigns(Split(text, NEWLINE)[i], key)
    ensures Canonical(Split(text, NEWLINE), key) <==> Alone(Split(text, NEWLINE)[i])
  {
    var lines := LinesOf(text);
    hide Load, LoadLines, Assigns, Alone, Split, EntriesOf;
    forall k | 0 <= k < |lines| && k != i ensures !Assigns(lines[k], key) {
      if Assigns(lines[k], key) {
        if i < k { AtMostOneMatch(lines, key, i, k); } else { AtMostOneMatch(lines, key, k, i); }
      }
    }
  }

  /** An edit rewrites one line or adds one at the end; every other line is as it was. */
  lemma EditTouchesOneLine(text: string, key: string, value: string)
    requires Load(text).Some? && IsKey(key) && Plain(value)
    ensures var lines := Split(text, NEWLINE);
            Edit(text, key, value).Some? &&
            var edited := Split(Edit(text, key, value).value, NEWLINE);
            || (exists i :: 0 <= i < |lines| && Assigns(lines[i], key) && edited == lines[i := Line(key, value)])
            || ((forall i :: 0 <= i < |lines| ==> !Assigns(lines[i], key)) && edited == Appended(lines, Line(key, value)))
  {
    var lines := Split(text, NEWLINE);
    if i :| 0 <= i < |lines| && Assigns(lines[i], key) {
      EditInPlace(text, key, value, i, Load(text).value);
    } else {
      EditAppends(text, key, value, Load(text).value);
    }
  }

  lemma OneKeyPerLine(line: string, a: string, b: string)
    requires IsKey(a) && IsKey(b) && Assigns(line, a) && Assigns(line, b)
    ensures a == b
  {
    IndexIs(line, a);
    IndexIs(line, b);
    assert a == line[..|a|] && b == line[..|b|];
  }

  lemma IndentedParses(key: string, was: string)
    requires IsKey(key) && Plain(was)
    ensures var raw := " " + Line(key, was);
            ParseLine(raw) == Pair(key, was) && !Assigns(raw, key) && (forall i :: 0 <= i < |raw| ==> !IsBreak(raw[i]))
  {
    hide ParseLine, Line, Plain, IsKey;
    var raw := " " + Line(key, was);
    LineChars(key, was);
    PlainLineParses(key, was);
    assert raw[1..] == Line(key, was);
    IndentIgnored(raw);
    KeyChars(key);
    assert raw[0] != (key + "=")[0];
  }

  lemma IndentIgnored(raw: string)
    requires raw != [] && raw[0] == ' '
    ensures ParseLine(raw) == ParseLine(raw[1..])
  {
    assert StripLeft(raw) == StripLeft(raw[1..]);
    hide StripLeft, StripRight, IndexOf;
  }

  /** A file that shows where the law stops: the parser accepts an indented assignment, the editor does not see
      it, and what the rollback writes does not load as the previous value. */
  lemma IndentedAssignmentBlocksRollback(key: string, was: string, value: string)
    requires IsKey(key) && Plain(was) && Plain(value)
    ensures var text := " " + Line(key, was);
            && Load(text) == Some(map[key := was])
            && Edit(text, key, value).Some? && Load(Edit(text, key, value).value) != Some(map[key := value])
  {
    var text := " " + Line(key, was);
    IndentedParses(key, was);
    NoBreakNoSplit(text);
    SplitJoin([text]);
    OneEntry(key, was);
    hide ParseLine, Edit, Split, Collect, Assigns, Line;
    assert Parsed([text]) == [Pair(key, was)];
    assert Join([text]) == text;
    EditThenLoad(text, key, value, map[key := was]);
    assert map[key := was][key := value] == map[key := value];
  }
}
