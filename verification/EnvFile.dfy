/** The operator env file: how it is parsed, how the rollback edits it, and when the two agree.
    A text is what reading the file yields, its lines separated by '\n' alone; the parser also breaks
    lines at the other separators, the editor does not. */
module EnvFile {
  import opened Wrappers

  type Values = map<string, string>

  // ---------------------------------------------------------------- characters and lines

  predicate IsBreak(c: char) {
    c == '\n' || c == '\r' || '\U{000B}' <= c <= '\U{000C}' || '\U{001C}' <= c <= '\U{001E}' || c == '\U{0085}'
    || c == '\U{2028}' || c == '\U{2029}'
  }

  predicate IsSpace(c: char) {
    IsBreak(c) || c == ' ' || c == '\t' || c == '\U{001F}' || c == '\U{00A0}' || c == '\U{1680}'
    || '\U{2000}' <= c <= '\U{200A}' || c == '\U{202F}' || c == '\U{205F}' || c == '\U{3000}'
  }

  predicate IsLetter(c: char) {
    'a' <= c <= 'z' || 'A' <= c <= 'Z' || c == '_'
  }

  predicate IsKey(s: string) {
    s != [] && IsLetter(s[0]) && forall i :: 0 <= i < |s| ==> IsLetter(s[i]) || '0' <= s[i] <= '9'
  }

  // The pieces between the characters that are breaks.
  function Split(s: string, isBreak: char -> bool): (r: seq<string>)
    ensures r != []
  {
    if s == [] then [""]
    else if isBreak(s[0]) then [""] + Split(s[1..], isBreak)
    else var rest := Split(s[1..], isBreak); [[s[0]] + rest[0]] + rest[1..]
  }

  function Join(lines: seq<string>): string
    requires lines != []
  {
    if |lines| == 1 then lines[0] else lines[0] + "\n" + Join(lines[1..])
  }

  const NEWLINE: char -> bool := c => c == '\n'

  lemma {:induction false} JoinSplit(s: string)
    ensures Join(Split(s, NEWLINE)) == s
    ensures forall line :: line in Split(s, NEWLINE) ==> '\n' !in line
  {
    if s != [] {
      JoinSplit(s[1..]);
      var rest := Split(s[1..], NEWLINE);
      assert s == [s[0]] + s[1..];
      if s[0] == '\n' {
        assert ([""] + rest)[1..] == rest;
      } else {
        var first := [s[0]] + rest[0];
        assert ([first] + rest[1..])[1..] == rest[1..];
        assert |rest| > 1 ==> first + "\n" + Join(rest[1..]) == [s[0]] + (rest[0] + "\n" + Join(rest[1..]));
        assert rest[0] in rest;
      }
    }
  }

  lemma {:induction false} SplitJoin(lines: seq<string>)
    requires lines != [] && forall line :: line in lines ==> '\n' !in line
    ensures Split(Join(lines), NEWLINE) == lines
    decreases |lines|, |lines[0]|
  {
    var line := lines[0];
    if line == [] {
      if |lines| > 1 {
        SplitJoin(lines[1..]);
        assert Join(lines)[1..] == Join(lines[1..]);
      }
    } else {
      assert line[0] in line;
      var shorter := [line[1..]] + lines[1..];
      assert forall c :: c in line[1..] ==> c in line;
      forall l | l in shorter ensures '\n' !in l { assert l == line[1..] || l in lines; }
      SplitJoin(shorter);
      assert shorter[1..] == lines[1..] && line == [line[0]] + line[1..];
      assert Join(lines) == [line[0]] + Join(shorter);
      assert lines == [line] + lines[1..];
    }
  }

  // ---------------------------------------------------------------- the parser

  datatype Entry = Skip | Pair(key: string, value: string) | Bad

  function StripLeft(s: string): string {
    if s != [] && IsSpace(s[0]) then StripLeft(s[1..]) else s
  }

  function StripRight(s: string): (r: string)
    ensures r <= s
  {
    if s != [] && IsSpace(s[|s| - 1]) then StripRight(s[..|s| - 1]) else s
  }

  function Strip(s: string): string {
    StripRight(StripLeft(s))
  }

  function IndexOf(s: string, c: char): (i: nat)
    ensures i <= |s|
    ensures forall k :: 0 <= k < i ==> s[k] != c
    ensures i < |s| ==> s[i] == c
  {
    if s == [] || s[0] == c then 0 else 1 + IndexOf(s[1..], c)
  }

  function Unquote(value: string): string {
    if |value| >= 2 && value[0] == value[|value| - 1] && (value[0] == '"' || value[0] == '\'')
    then value[1..|value| - 1] else value
  }

  function ParseLine(raw: string): Entry {
    var line := Strip(raw);
    var at := IndexOf(line, '=');
    if line == [] || line[0] == '#' then Skip
    else if at == |line| then Bad
    else
      var key := Strip(line[..at]);
      if IsKey(key) then Pair(key, Unquote(line[at + 1..])) else Bad
  }

  function Parsed(lines: seq<string>): (r: seq<Entry>)
    ensures |r| == |lines|
    ensures forall i :: 0 <= i < |lines| ==> r[i] == ParseLine(lines[i])
  {
    seq(|lines|, i requires 0 <= i < |lines| => ParseLine(lines[i]))
  }

  // None stands for the parser raising: an invalid line, an invalid key or a duplicate.
  function Collect(entries: seq<Entry>): Option<Values> {
    if entries == [] then Some(map[])
    else
      var n := |entries| - 1;
      var before := Collect(entries[..n]);
      if before.None? then None
      else match entries[n]
           case Skip => before
           case Bad => None
           case Pair(key, value) => if key in before.value then None else Some(before.value[key := value])
  }

  function Load(text: string): Option<Values> {
    Collect(Parsed(Split(text, IsBreak)))
  }

  method LoadEnvFile(text: string) returns (values: Option<Values>)
    ensures values == Load(text)
  {
    hide ParseLine, Split;
    var lines := Split(text, IsBreak);
    ghost var entries := Parsed(lines);
    var loaded: Values := map[];
    for i := 0 to |lines|
      invariant Collect(entries[..i]) == Some(loaded)
    {
      assert entries[..i + 1][..i] == entries[..i];
      var entry := ParseLine(lines[i]);
      assert entry == entries[..i + 1][i];
      match entry {
        case Skip =>
        case Bad => StopsAt(entries, i + 1); return None;
        case Pair(key, value) =>
          if key in loaded {
            StopsAt(entries, i + 1);
            return None;
          }
          loaded := loaded[key := value];
      }
    }
    assert entries[..|lines|] == entries;
    return Some(loaded);
  }

  lemma {:induction false} StopsAt(entries: seq<Entry>, k: nat)
    requires k <= |entries| && Collect(entries[..k]).None?
    ensures Collect(entries).None?
    decreases |entries| - k
  {
    if k == |entries| {
      assert entries[..k] == entries;
    } else {
      assert entries[..k + 1][..k] == entries[..k];
      StopsAt(entries, k + 1);
    }
  }

  // ---------------------------------------------------------------- loading in parts

  function Both(a: Option<Values>, b: Option<Values>): Option<Values> {
    if a.Some? && b.Some? && a.value.Keys !! b.value.Keys then Some(a.value + b.value) else None
  }

  lemma {:induction false} CollectAppend(a: seq<Entry>, b: seq<Entry>)
    ensures Collect(a + b) == Both(Collect(a), Collect(b))
  {
    BothEmpty(Collect(a));
    if b == [] {
      assert a + b == a;
    } else {
      var n := |b| - 1;
      CollectAppend(a, b[..n]);
      assert (a + b)[..|a| + n] == a + b[..n] && (a + b)[|a| + n] == b[n];
      var left, right := Collect(a), Collect(b[..n]);
      if left.Some? && right.Some? && b[n].Pair? {
        var key, value := b[n].key, b[n].value;
        assert (left.value + right.value)[key := value] == left.value + right.value[key := value];
        assert key in right.value[key := value];
      }
    }
  }

  lemma BothEmpty(a: Option<Values>)
    ensures Both(a, Some(map[])) == a
  {
    if a.Some? { assert a.value + map[] == a.value; }
  }

  // The entries of one line of the editor, which the parser may break further.
  function EntriesOf(line: string): seq<Entry> {
    Parsed(Split(line, IsBreak))
  }

  function LoadLines(lines: seq<string>): Option<Values> {
    if lines == [] then Some(map[]) else Both(Collect(EntriesOf(lines[0])), LoadLines(lines[1..]))
  }

  lemma {:induction false} SplitTwice(s: string)
    ensures Split(s, IsBreak) == Split(Split(s, NEWLINE)[0], IsBreak)
                                 + if |Split(s, NEWLINE)| == 1 then [] else Split(Join(Split(s, NEWLINE)[1..]), IsBreak)
  {
    if s != [] {
      JoinSplit(s[1..]);
      var rest := Split(s[1..], NEWLINE);
      if s[0] == '\n' {
        assert ([""] + rest)[1..] == rest;
      } else {
        SplitTwice(s[1..]);
        var first := [s[0]] + rest[0];
        assert first[1..] == rest[0];
        assert ([first] + rest[1..])[1..] == rest[1..];
      }
    }
  }

  /** Loading a text is loading its lines one by one, however the parser breaks each of them. */
  lemma {:induction false} LoadByLines(lines: seq<string>)
    requires lines != [] && forall line :: line in lines ==> '\n' !in line
    ensures Load(Join(lines)) == LoadLines(lines)
  {
    SplitJoin(lines);
    SplitTwice(Join(lines));
    if |lines| == 1 {
      BothEmpty(Collect(EntriesOf(lines[0])));
      assert lines[1..] == [];
      assert Split(Join(lines), IsBreak) == Split(lines[0], IsBreak);
    } else {
      LoadByLines(lines[1..]);
      var first, rest := Split(lines[0], IsBreak), Split(Join(lines[1..]), IsBreak);
      assert Parsed(first + rest) == Parsed(first) + Parsed(rest);
      CollectAppend(Parsed(first), Parsed(rest));
    }
  }
}
