/** The whole rollback of the env file: every previous value edited in, and exactly when the parser reads back the
    old values overwritten with the previous ones. */
module EnvRollback {
  import opened Wrappers
  import opened EnvFile
  import opened EnvEdit

  ghost predicate Reviewed(previous: seq<(string, string)>) {
    && (forall i :: 0 <= i < |previous| ==> IsKey(previous[i].0) && Plain(previous[i].1))
    && (forall i, k :: 0 <= i < k < |previous| ==> previous[i].0 != previous[k].0)
  }

  function KeysOf(previous: seq<(string, string)>): (keys: set<string>)
    ensures forall key :: key in keys <==> exists i :: 0 <= i < |previous| && previous[i].0 == key
  {
    set i | 0 <= i < |previous| :: previous[i].0
  }

  ghost function Overwritten(whole: Values, previous: seq<(string, string)>): Values {
    if previous == [] then whole
    else Overwritten(whole, previous[..|previous| - 1])[previous[|previous| - 1].0 := previous[|previous| - 1].1]
  }

  lemma OneKeyMore(previous: seq<(string, string)>)
    requires previous != []
    ensures KeysOf(previous) == KeysOf(previous[..|previous| - 1]) + {previous[|previous| - 1].0}
  {
    var n := |previous| - 1;
    forall k ensures k in KeysOf(previous) <==> k in KeysOf(previous[..n]) || k == previous[n].0 {
      if i :| 0 <= i < n && previous[i].0 == k { assert previous[..n][i].0 == k; }
      if i :| 0 <= i < n && previous[..n][i].0 == k { assert previous[i].0 == k; }
    }
  }

  lemma {:induction false} OverwrittenIsSum(whole: Values, previous: seq<(string, string)>)
    ensures Overwritten(whole, previous) == whole + Overwritten(map[], previous)
    ensures Overwritten(map[], previous).Keys == KeysOf(previous)
  {
    if previous == [] {
      assert whole + map[] == whole;
      assert KeysOf(previous) == {};
    } else {
      hide KeysOf;
      var n := |previous| - 1;
      OverwrittenIsSum(whole, previous[..n]);
      OneKeyMore(previous);
      var part := Overwritten(map[], previous[..n]);
      assert (whole + part)[previous[n].0 := previous[n].1] == whole + part[previous[n].0 := previous[n].1];
    }
  }

  // ---------------------------------------------------------------- some of the lines

  // The editor finds a restored key at the start of the line.
  ghost predicate Begins(line: string, keys: set<string>) {
    exists key :: key in keys && Assigns(line, key)
  }

  ghost function Included(line: string, keys: set<string>, inside: bool): Option<Values> {
    if Begins(line, keys) == inside then Collect(EntriesOf(line)) else Some(map[])
  }

  // What loads from the lines that do, or do not, begin with one of the keys.
  ghost function LoadSome(lines: seq<string>, keys: set<string>, inside: bool): Option<Values> {
    if lines == [] then Some(map[])
    else Both(Included(lines[0], keys, inside), LoadSome(lines[1..], keys, inside))
  }

  lemma BothCommutes(a: Option<Values>, b: Option<Values>)
    ensures Both(a, b) == Both(b, a)
  {
    if a.Some? && b.Some? && a.value.Keys !! b.value.Keys { assert a.value + b.value == b.value + a.value; }
  }

  // (a + b) + (c + d) in another order.
  lemma BothRegroups(a: Option<Values>, b: Option<Values>, c: Option<Values>, d: Option<Values>)
    ensures Both(Both(a, b), Both(c, d)) == Both(Both(a, c), Both(b, d))
  {
    hide Both;
    BothAssociates(a, b, Both(c, d));
    BothAssociates(b, c, d);
    BothCommutes(b, c);
    BothAssociates(c, b, d);
    BothAssociates(a, c, Both(b, d));
  }

  lemma {:induction false} LoadInParts(lines: seq<string>, keys: set<string>)
    ensures LoadLines(lines) == Both(LoadSome(lines, keys, true), LoadSome(lines, keys, false))
  {
    hide EntriesOf, Collect, Both, Begins;
    if lines == [] {
      BothEmpty(Some(map[]));
    } else {
      var here := Collect(EntriesOf(lines[0]));
      LoadInParts(lines[1..], keys);
      BothRegroups(Included(lines[0], keys, true), LoadSome(lines[1..], keys, true),
                   Included(lines[0], keys, false), LoadSome(lines[1..], keys, false));
      BothEmpty(here);
      NothingBefore(here);
    }
  }

  lemma {:induction false} LoadSomeAppend(a: seq<string>, b: seq<string>, keys: set<string>, inside: bool)
    ensures LoadSome(a + b, keys, inside) == Both(LoadSome(a, keys, inside), LoadSome(b, keys, inside))
  {
    hide Included, Both;
    if a == [] {
      assert a + b == b;
      NothingBefore(LoadSome(b, keys, inside));
    } else {
      LoadSomeAppend(a[1..], b, keys, inside);
      assert (a + b)[1..] == a[1..] + b && (a + b)[0] == a[0];
      BothAssociates(Included(a[0], keys, inside), LoadSome(a[1..], keys, inside), LoadSome(b, keys, inside));
    }
  }

  lemma LoadSomeAround(lines: seq<string>, i: nat, keys: set<string>, inside: bool)
    requires i < |lines|
    ensures LoadSome(lines, keys, inside) ==
            Both(LoadSome(lines[..i], keys, inside), Both(Included(lines[i], keys, inside), LoadSome(lines[i + 1..], keys, inside)))
  {
    assert lines == lines[..i] + lines[i..];
    LoadSomeAppend(lines[..i], lines[i..], keys, inside);
    assert lines[i..][1..] == lines[i + 1..];
  }

  // A line and its replacement that count for the same make no difference.
  lemma SameInPlace(lines: seq<string>, i: nat, line: string, keys: set<string>, inside: bool)
    requires i < |lines| && Included(lines[i], keys, inside) == Included(line, keys, inside)
    ensures LoadSome(lines[i := line], keys, inside) == LoadSome(lines, keys, inside)
  {
    hide Included, Both;
    var edited := lines[i := line];
    LoadSomeAround(lines, i, keys, inside);
    LoadSomeAround(edited, i, keys, inside);
    assert edited[..i] == lines[..i] && edited[i + 1..] == lines[i + 1..];
  }

  lemma LoadOne(line: string, keys: set<string>, inside: bool)
    ensures LoadSome([line], keys, inside) == Included(line, keys, inside)
  {
    assert [line][1..] == [];
    BothEmpty(Included(line, keys, inside));
    hide Included, Both;
  }

  lemma BlankCountsForNothing(keys: set<string>, inside: bool)
    ensures Included("", keys, inside) == Some(map[])
  {
    BlankLine();
    BothEmpty(Collect(EntriesOf("")));
    assert LoadLines([""]) == Both(Collect(EntriesOf("")), Some(map[])) by { assert [""][1..] == []; }
  }

  // Appending a line adds what that line counts for.
  lemma AppendedCounts(lines: seq<string>, line: string, keys: set<string>, inside: bool)
    requires lines != []
    ensures LoadSome(Appended(lines, line), keys, inside) == Both(LoadSome(lines, keys, inside), Included(line, keys, inside))
  {
    hide Included, Both;
    var n := |lines| - 1;
    var kept := if lines[n] == [] then lines[..n] else lines;
    var none: Option<Values> := Some(map[]);
    BlankCountsForNothing(keys, inside);
    BothEmpty(Included(line, keys, inside));
    LoadSomeAppend(kept, [line, ""], keys, inside);
    assert [line, ""] == [line] + [""];
    LoadSomeAppend([line], [""], keys, inside);
    LoadOne(line, keys, inside);
    LoadOne("", keys, inside);
    if lines[n] == [] {
      assert lines == kept + [""];
      LoadSomeAppend(kept, [""], keys, inside);
      BothEmpty(LoadSome(kept, keys, inside));
    }
  }

  // One more key brings in the lines that begin with it.
  lemma {:induction false} OneMoreKey(lines: seq<string>, keys: set<string>, key: string)
    requires key !in keys && IsKey(key) && forall k :: k in keys ==> IsKey(k)
    ensures LoadSome(lines, keys + {key}, true) == Both(LoadSome(lines, keys, true), LoadSome(lines, {key}, true))
  {
    hide EntriesOf, Collect, Both, Assigns, IsKey;
    if lines == [] {
      BothEmpty(Some(map[]));
    } else {
      var line := lines[0];
      OneMoreKey(lines[1..], keys, key);
      if Begins(line, keys) && Assigns(line, key) {
        var k :| k in keys && Assigns(line, k);
        OneKeyPerLine(line, k, key);
      }
      assert Begins(line, {key}) <==> Assigns(line, key) by {
        if Assigns(line, key) { assert key in {key}; }
      }
      BeginsWithOneMore(line, keys, key);
      BothRegroups(Included(line, keys, true), LoadSome(lines[1..], keys, true),
                   Included(line, {key}, true), LoadSome(lines[1..], {key}, true));
      BothEmpty(Included(line, keys, true));
      NothingBefore(Included(line, {key}, true));
    }
  }

  lemma BeginsWithOneMore(line: string, keys: set<string>, key: string)
    ensures Begins(line, keys + {key}) <==> Begins(line, keys) || Assigns(line, key)
  {
    hide Assigns;
    if Assigns(line, key) { assert key in keys + {key}; }
    if Begins(line, keys) {
      var k :| k in keys && Assigns(line, k);
      assert k in keys + {key};
    }
  }

  // ---------------------------------------------------------------- one edit, on the lines

  ghost predicate AtMostOnce(lines: seq<string>, key: string) {
    forall i, k :: 0 <= i < k < |lines| ==> !(Assigns(lines[i], key) && Assigns(lines[k], key))
  }

  ghost predicate EditedTo(lines: seq<string>, key: string, value: string, edited: seq<string>)
    requires lines != []
  {
    || (exists i :: 0 <= i < |lines| && Assigns(lines[i], key) && edited == lines[i := Line(key, value)])
    || ((forall i :: 0 <= i < |lines| ==> !Assigns(lines[i], key)) && edited == Appended(lines, Line(key, value)))
  }

  lemma EditsLines(text: string, key: string, value: string)
    requires IsKey(key) && Plain(value) && AtMostOnce(Split(text, NEWLINE), key)
    ensures Edit(text, key, value).Some?
    ensures EditedTo(Split(text, NEWLINE), key, value, Split(Edit(text, key, value).value, NEWLINE))
  {
    hide IsKey, Plain, Assigns, Line;
    var lines := Split(text, NEWLINE);
    var line := Line(key, value);
    JoinSplit(text);
    WrittenEntry(key, value);
    if i :| 0 <= i < |lines| && Assigns(lines[i], key) {
      SingleMatch(lines, key, i);
      var edited := lines[i := line];
      forall l | l in edited ensures '\n' !in l { assert l == line || l in lines; }
      SplitJoin(edited);
    } else {
      NoMatch(lines, key);
      var edited := Appended(lines, line);
      forall l | l in edited ensures '\n' !in l { assert l in lines || l == line || l == ""; }
      AppendedText(lines, line);
      SplitJoin(edited);
    }
  }

  lemma LineAssignsItsKey(key: string, value: string, other: string)
    requires IsKey(key) && IsKey(other)
    ensures Assigns(Line(key, value), other) <==> other == key
  {
    assert key + "=" <= Line(key, value);
    if Assigns(Line(key, value), other) { OneKeyPerLine(Line(key, value), key, other); }
  }

  lemma StillAtMostOnce(lines: seq<string>, key: string, value: string, edited: seq<string>, other: string)
    requires lines != [] && IsKey(key) && IsKey(other) && EditedTo(lines, key, value, edited) && AtMostOnce(lines, other)
    ensures AtMostOnce(edited, other)
  {
    LineAssignsItsKey(key, value, other);
    assert !Assigns("", other);
    hide Assigns, Line, IsKey;
    if i :| 0 <= i < |lines| && Assigns(lines[i], key) && edited == lines[i := Line(key, value)] {
      forall a, b | 0 <= a < b < |edited| ensures !(Assigns(edited[a], other) && Assigns(edited[b], other)) {
        assert !(Assigns(lines[a], other) && Assigns(lines[b], other));
      }
    }
  }

  lemma EditCounts(lines: seq<string>, key: string, value: string, edited: seq<string>, keys: set<string>)
    requires lines != [] && IsKey(key) && Plain(value) && EditedTo(lines, key, value, edited)
    requires forall k :: k in keys ==> IsKey(k)
    ensures key !in keys ==> LoadSome(edited, keys, true) == LoadSome(lines, keys, true)
    ensures key in keys ==> LoadSome(edited, keys, false) == LoadSome(lines, keys, false)
  {
    var line := Line(key, value);
    BeginsIff(line, key, value, keys);
    hide Assigns, Line, IsKey, Plain, Both, Collect, EntriesOf;
    var inside := key !in keys;
    if i :| 0 <= i < |lines| && Assigns(lines[i], key) && edited == lines[i := line] {
      AssigningBeginsIff(lines[i], key, keys);
      SameInPlace(lines, i, line, keys, inside);
    } else {
      AppendedCounts(lines, line, keys, inside);
      BothEmpty(LoadSome(lines, keys, inside));
    }
  }

  lemma AssigningBeginsIff(line: string, key: string, keys: set<string>)
    requires IsKey(key) && Assigns(line, key) && forall k :: k in keys ==> IsKey(k)
    ensures Begins(line, keys) <==> key in keys
  {
    hide IsKey;
    if Begins(line, keys) {
      var k :| k in keys && Assigns(line, k);
      OneKeyPerLine(line, key, k);
    }
  }

  lemma BeginsIff(line: string, key: string, value: string, keys: set<string>)
    requires IsKey(key) && line == Line(key, value) && forall k :: k in keys ==> IsKey(k)
    ensures Begins(line, keys) <==> key in keys
  {
    assert key + "=" <= line;
    AssigningBeginsIff(line, key, keys);
  }

  // After the edit exactly one line begins with the key, and it holds the value.
  lemma {:induction false} EditedKeyCounts(lines: seq<string>, key: string, value: string, edited: seq<string>)
    requires lines != [] && IsKey(key) && Plain(value) && AtMostOnce(lines, key) && EditedTo(lines, key, value, edited)
    ensures LoadSome(edited, {key}, true) == Some(map[key := value])
  {
    var line := Line(key, value);
    var one: Option<Values> := Some(map[key := value]);
    BeginsIff(line, key, value, {key});
    WrittenEntry(key, value);
    OneEntry(key, value);
    assert Included(line, {key}, true) == one;
    assert forall l :: Begins(l, {key}) ==> Assigns(l, key);
    hide Assigns, Line, IsKey, Plain, Both, Collect, EntriesOf;
    if i :| 0 <= i < |lines| && Assigns(lines[i], key) && edited == lines[i := line] {
      LoadSomeAround(edited, i, {key}, true);
      NoneBegin(edited[..i], key);
      NoneBegin(edited[i + 1..], key);
      BothEmpty(one);
      NothingBefore(one);
    } else {
      AppendedCounts(lines, line, {key}, true);
      NoneBegin(lines, key);
      NothingBefore(one);
    }
  }

  lemma {:induction false} NoneBegin(lines: seq<string>, key: string)
    requires forall i :: 0 <= i < |lines| ==> !Assigns(lines[i], key)
    ensures LoadSome(lines, {key}, true) == Some(map[])
  {
    hide Assigns;
    if lines != [] {
      NoneBegin(lines[1..], key);
      BothEmpty(Some(map[]));
      hide Both, Collect, EntriesOf;
    }
  }

  // ---------------------------------------------------------------- all the edits

  // The lines that begin with no restored key, blank ones aside.
  ghost function OtherLines(lines: seq<string>, keys: set<string>): seq<string> {
    if lines == [] then []
    else
      var n := |lines| - 1;
      OtherLines(lines[..n], keys) + if lines[n] == [] || Begins(lines[n], keys) then [] else [lines[n]]
  }

  lemma {:induction false} OtherLinesAppend(a: seq<string>, b: seq<string>, keys: set<string>)
    ensures OtherLines(a + b, keys) == OtherLines(a, keys) + OtherLines(b, keys)
  {
    hide Begins;
    if b == [] {
      assert a + b == a;
    } else {
      var n := |b| - 1;
      OtherLinesAppend(a, b[..n], keys);
      assert (a + b)[..|a| + n] == a + b[..n] && (a + b)[|a| + n] == b[n];
    }
  }

  lemma OtherLinesOne(line: string, keys: set<string>)
    requires line == [] || Begins(line, keys)
    ensures OtherLines([line], keys) == []
  {
    assert [line][..0] == [];
  }

  lemma OtherLinesInPlace(lines: seq<string>, i: nat, line: string, keys: set<string>)
    requires i < |lines| && Begins(lines[i], keys) && Begins(line, keys)
    ensures OtherLines(lines[i := line], keys) == OtherLines(lines, keys)
  {
    hide Begins;
    var edited := lines[i := line];
    assert lines == lines[..i] + ([lines[i]] + lines[i + 1..]) && edited == lines[..i] + ([line] + lines[i + 1..]);
    hide OtherLines;
    OtherLinesOne(line, keys);
    OtherLinesOne(lines[i], keys);
    OtherLinesAppend(lines[..i], [lines[i]] + lines[i + 1..], keys);
    OtherLinesAppend(lines[..i], [line] + lines[i + 1..], keys);
    OtherLinesAppend([lines[i]], lines[i + 1..], keys);
    OtherLinesAppend([line], lines[i + 1..], keys);
  }

  lemma OtherLinesAppended(lines: seq<string>, line: string, keys: set<string>)
    requires lines != [] && Begins(line, keys)
    ensures OtherLines(Appended(lines, line), keys) == OtherLines(lines, keys)
  {
    hide Begins, OtherLines;
    var n := |lines| - 1;
    var kept := if lines[n] == [] then lines[..n] else lines;
    OtherLinesOne(line, keys);
    OtherLinesOne("", keys);
    assert [line, ""] == [line] + [""];
    OtherLinesAppend(kept, [line, ""], keys);
    OtherLinesAppend([line], [""], keys);
    if lines[n] == [] {
      assert lines == lines[..n] + [""];
      OtherLinesAppend(lines[..n], [""], keys);
    }
  }

  lemma OtherLinesKept(lines: seq<string>, key: string, value: string, edited: seq<string>, keys: set<string>)
    requires lines != [] && IsKey(key) && EditedTo(lines, key, value, edited) && key in keys
    ensures OtherLines(edited, keys) == OtherLines(lines, keys)
  {
    var line := Line(key, value);
    assert Assigns(line, key) && Begins(line, keys);
    hide Assigns, Line, IsKey, OtherLines, Appended;
    if i :| 0 <= i < |lines| && Assigns(lines[i], key) && edited == lines[i := line] {
      OtherLinesInPlace(lines, i, line, keys);
    } else {
      OtherLinesAppended(lines, line, keys);
    }
  }

  // What the first n edits have come to.
  ghost predicate Progress(lines: seq<string>, previous: seq<(string, string)>, n: nat, text: string)
    requires n <= |previous|
  {
    var keys := KeysOf(previous);
    var edited := Split(text, NEWLINE);
    && (forall key :: key in keys ==> AtMostOnce(edited, key))
    && LoadSome(edited, KeysOf(previous[..n]), true) == Some(Overwritten(map[], previous[..n]))
    && LoadSome(edited, keys, false) == LoadSome(lines, keys, false)
    && OtherLines(edited, keys) == OtherLines(lines, keys)
  }

  lemma KeysAreKeys(previous: seq<(string, string)>, n: nat)
    requires Reviewed(previous) && n < |previous|
    ensures forall key :: key in KeysOf(previous) ==> IsKey(key)
    ensures previous[n].0 in KeysOf(previous) && previous[n].0 !in KeysOf(previous[..n])
    ensures KeysOf(previous[..n]) <= KeysOf(previous)
    ensures KeysOf(previous[..n + 1]) == KeysOf(previous[..n]) + {previous[n].0}
  {
    hide IsKey, Plain;
    forall key ensures key in KeysOf(previous[..n + 1]) <==> key in KeysOf(previous[..n]) || key == previous[n].0 {
      if key in KeysOf(previous[..n + 1]) && key != previous[n].0 {
        var i :| 0 <= i < n + 1 && previous[..n + 1][i].0 == key;
        assert previous[..n][i].0 == key;
      }
      if key in KeysOf(previous[..n]) {
        var i :| 0 <= i < n && previous[..n][i].0 == key;
        assert previous[..n + 1][i].0 == key;
      }
      assert previous[..n + 1][n] == previous[n];
    }
    forall key | key in KeysOf(previous[..n]) ensures key in KeysOf(previous) && key != previous[n].0 {
      var i :| 0 <= i < n && previous[..n][i].0 == key;
      assert previous[i].0 == key;
    }
  }

  lemma OneEditOn(lines: seq<string>, previous: seq<(string, string)>, n: nat, text: string)
    requires Reviewed(previous) && n < |previous| && Progress(lines, previous, n, text)
    ensures Edit(text, previous[n].0, previous[n].1).Some?
    ensures Progress(lines, previous, n + 1, Edit(text, previous[n].0, previous[n].1).value)
  {
    hide IsKey, Plain, Edit, Split, LoadSome, OtherLines, AtMostOnce, EditedTo, Both;
    var (key, value) := previous[n];
    var keys, done := KeysOf(previous), KeysOf(previous[..n]);
    KeysAreKeys(previous, n);
    EditsLines(text, key, value);
    var was, edited := Split(text, NEWLINE), Split(Edit(text, key, value).value, NEWLINE);
    forall other | other in keys ensures AtMostOnce(edited, other) { StillAtMostOnce(was, key, value, edited, other); }
    EditCounts(was, key, value, edited, done);
    EditCounts(was, key, value, edited, keys);
    EditedKeyCounts(was, key, value, edited);
    OneMoreKey(edited, done, key);
    OtherLinesKept(was, key, value, edited, keys);
    assert previous[..n + 1][..n] == previous[..n] && previous[..n + 1][n] == previous[n];
    OverwrittenIsSum(map[], previous[..n]);
    SumsUp(Overwritten(map[], previous[..n]), key, value);
  }

  lemma SumsUp(values: Values, key: string, value: string)
    requires key !in values
    ensures Both(Some(values), Some(map[key := value])) == Some(values[key := value])
  {
    assert values + map[key := value] == values[key := value];
  }

  lemma {:induction false} EditsOn(text: string, previous: seq<(string, string)>, n: nat)
    requires Load(text).Some? && Reviewed(previous) && n <= |previous|
    ensures EditAll(text, previous[..n]).Some?
    ensures Progress(Split(text, NEWLINE), previous, n, EditAll(text, previous[..n]).value)
  {
    hide Progress, Edit, Split, IsKey, Plain;
    if n == 0 {
      NothingEdited(text, previous);
      assert previous[..0] == [];
    } else {
      EditsOn(text, previous, n - 1);
      OneEditOn(Split(text, NEWLINE), previous, n - 1, EditAll(text, previous[..n - 1]).value);
      assert previous[..n][..n - 1] == previous[..n - 1] && previous[..n][n - 1] == previous[n - 1];
    }
  }

  lemma NothingEdited(text: string, previous: seq<(string, string)>)
    requires Load(text).Some? && Reviewed(previous)
    ensures Progress(Split(text, NEWLINE), previous, 0, text)
  {
    var lines := LinesOf(text);
    hide IsKey, Plain, Split, Load, LoadLines, Assigns;
    assert previous[..0] == [];
    assert KeysOf([]) == {};
    forall key | key in KeysOf(previous) ensures AtMostOnce(lines, key) {
      forall i, k | 0 <= i < k < |lines| ensures !(Assigns(lines[i], key) && Assigns(lines[k], key)) {
        if Assigns(lines[i], key) { AtMostOneMatch(lines, key, i, k); }
      }
    }
    NoKeysNoLines(lines);
  }

  lemma {:induction false} NoKeysNoLines(lines: seq<string>)
    ensures LoadSome(lines, {}, true) == Some(map[])
  {
    if lines != [] {
      NoKeysNoLines(lines[1..]);
      BothEmpty(Some(map[]));
      hide Both, Collect, EntriesOf;
    }
  }

  // ---------------------------------------------------------------- the law

  // The keys a line assigns, however the parser breaks it.
  ghost function AssignedKeys(line: string): set<string> {
    set e | e in EntriesOf(line) && e.Pair? :: e.key
  }

  lemma {:induction false} CollectKeys(entries: seq<Entry>)
    requires Collect(entries).Some?
    ensures Collect(entries).value.Keys == set e | e in entries && e.Pair? :: e.key
  {
    if entries != [] {
      var n := |entries| - 1;
      CollectKeys(entries[..n]);
      assert entries == entries[..n] + [entries[n]];
    }
  }

  lemma {:induction false} LoadSomeKeys(lines: seq<string>, keys: set<string>, inside: bool)
    requires LoadSome(lines, keys, inside).Some?
    ensures forall key :: key in LoadSome(lines, keys, inside).value <==>
              exists i :: 0 <= i < |lines| && Begins(lines[i], keys) == inside && key in AssignedKeys(lines[i])
  {
    if lines != [] {
      LoadSomeKeys(lines[1..], keys, inside);
      if Begins(lines[0], keys) == inside { CollectKeys(EntriesOf(lines[0])); }
      hide EntriesOf, Begins, Collect, AssignedKeys;
      forall key
        ensures key in LoadSome(lines, keys, inside).value <==>
                exists i :: 0 <= i < |lines| && Begins(lines[i], keys) == inside && key in AssignedKeys(lines[i])
      {
        if i :| 0 <= i < |lines| && Begins(lines[i], keys) == inside && key in AssignedKeys(lines[i]) {
          if i > 0 { assert lines[1..][i - 1] == lines[i]; }
        }
        if i :| 0 <= i < |lines[1..]| && Begins(lines[1..][i], keys) == inside && key in AssignedKeys(lines[1..][i]) {
          assert lines[i + 1] == lines[1..][i];
        }
      }
    }
  }

  // A line that begins with a restored key assigns restored keys only, and any other line none of them.
  ghost predicate Restorable(lines: seq<string>, keys: set<string>) {
    forall i :: 0 <= i < |lines| ==>
      if Begins(lines[i], keys) then AssignedKeys(lines[i]) <= keys else AssignedKeys(lines[i]) !! keys
  }

  lemma RestorableIff(lines: seq<string>, keys: set<string>)
    requires LoadSome(lines, keys, true).Some? && LoadSome(lines, keys, false).Some?
    ensures Restorable(lines, keys) <==>
              LoadSome(lines, keys, true).value.Keys <= keys && LoadSome(lines, keys, false).value.Keys !! keys
  {
    LoadSomeKeys(lines, keys, true);
    LoadSomeKeys(lines, keys, false);
    hide LoadSome, Begins, AssignedKeys;
  }

  lemma OverwritesIff(begun: Values, rest: Values, previous: Values)
    requires begun.Keys !! rest.Keys
    ensures Both(Some(previous), Some(rest)) == Some(begun + rest + previous) <==>
              begun.Keys <= previous.Keys && rest.Keys !! previous.Keys
  {
    var whole := begun + rest + previous;
    if begun.Keys <= previous.Keys && rest.Keys !! previous.Keys {
      assert previous + rest == whole;
    }
    if previous.Keys !! rest.Keys && previous + rest == whole {
      forall key | key in begun ensures key in previous { assert key in previous + rest; }
    }
  }

  /** The edits always succeed and leave every other line as it was. What then loads is the old values overwritten
      with the previous ones exactly when each line that begins with a restored key assigns restored keys only, and
      every other line none of them. */
  lemma RollbackThenLoad(text: string, previous: seq<(string, string)>, whole: Values)
    requires Load(text) == Some(whole) && Reviewed(previous)
    ensures EditAll(text, previous).Some?
    ensures Load(EditAll(text, previous).value) == Some(Overwritten(whole, previous))
            <==> Restorable(Split(text, NEWLINE), KeysOf(previous))
    ensures OtherLines(Split(EditAll(text, previous).value, NEWLINE), KeysOf(previous)) ==
            OtherLines(Split(text, NEWLINE), KeysOf(previous))
  {
    hide Load, Split, Edit, Both, IsKey, Plain, LoadSome, OtherLines, Restorable, LoadLines;
    var keys := KeysOf(previous);
    EditsOn(text, previous, |previous|);
    assert previous[..|previous|] == previous;
    var lines := LinesOf(text);
    var edited := LinesOf(EditAll(text, previous).value);
    LoadInParts(lines, keys);
    LoadInParts(edited, keys);
    PartsLoad(LoadSome(lines, keys, true), LoadSome(lines, keys, false), whole);
    RestorableIff(lines, keys);
    OverwrittenIsSum(whole, previous);
    OverwritesIff(LoadSome(lines, keys, true).value, LoadSome(lines, keys, false).value, Overwritten(map[], previous));
  }

  lemma PartsLoad(a: Option<Values>, b: Option<Values>, whole: Values)
    requires Both(a, b) == Some(whole)
    ensures a.Some? && b.Some? && a.value.Keys !! b.value.Keys && whole == a.value + b.value
  {
  }
}
