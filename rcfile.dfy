/**
 * The gEDA resource-file record syntax: a stripped line of the form
 * `(NAME VALUE)` declares VALUE for the property NAME.
 */
module RcFile {
  import PyStrings

  /** Regular files by path, each given as the lines `readlines` would return. */
  type FileSystem = map<string, seq<string>>

  /** Characters that mean something in a regular expression outside a character class. */
  const RegexMeta: set<char> := {'\\', '.', '^', '$', '*', '+', '?', '{', '}', '[', ']', '|', '(', ')'}

  /** A property name that, pasted into the record pattern, matches itself literally. */
  predicate LiteralName(name: string)
  {
    forall i :: 0 <= i < |name| ==> name[i] !in RegexMeta
  }

  /** The text a record for `name` opens with: "(", the name and one space. */
  function Opening(name: string): string
  {
    "(" + name + " "
  }

  /**
   * The anchored pattern `^\(NAME (.+?)\)$` on a stripped line: the opening,
   * a non-empty middle without a newline (which '.' does not match), and a
   * closing ')' as the last character.
   */
  predicate IsRecord(name: string, line: string)
  {
    |line| >= |name| + 4 &&
    line[..|name| + 2] == Opening(name) &&
    line[|line| - 1] == ')' &&
    '\n' !in line[|name| + 2..|line| - 1]
  }

  /**
   * The captured group: the whole middle, up to the LAST ')' because the
   * pattern is anchored at the end; it may itself contain parentheses.
   */
  function RecordValue(name: string, line: string): (v: string)
    requires IsRecord(name, line)
    ensures v != [] && '\n' !in v
    ensures Opening(name) + v + ")" == line
  {
    var v := line[|name| + 2..|line| - 1];
    assert line == line[..|name| + 2] + v + [line[|line| - 1]];
    v
  }

  /** Writing a record for a value and reading it back gives the value. */
  lemma RecordRoundTrip(name: string, v: string)
    requires v != [] && '\n' !in v
    ensures IsRecord(name, Opening(name) + v + ")")
    ensures RecordValue(name, Opening(name) + v + ")") == v
  {
    var line := Opening(name) + v + ")";
    assert line[..|name| + 2] == Opening(name);
    assert line[|name| + 2..|line| - 1] == v;
  }

  /** What one raw line contributes: its value if the stripped line is a record. */
  function LineValues(name: string, raw: string): seq<string>
  {
    var line := PyStrings.Strip(raw);
    if IsRecord(name, line) then [RecordValue(name, line)] else []
  }

  /** Whether a raw line is a record for `name` once stripped. */
  predicate Matches(name: string, raw: string)
  {
    IsRecord(name, PyStrings.Strip(raw))
  }

  /** The value of a matching raw line. */
  function ValueOf(name: string, raw: string): string
    requires Matches(name, raw)
  {
    RecordValue(name, PyStrings.Strip(raw))
  }

  /** The values of all matching lines, in file order. */
  function Values(name: string, lines: seq<string>): seq<string>
  {
    if lines == [] then []
    else Values(name, lines[..|lines| - 1]) + LineValues(name, lines[|lines| - 1])
  }

  /** How many lines are records for `name`. */
  function MatchCount(name: string, lines: seq<string>): nat
  {
    if lines == [] then 0
    else MatchCount(name, lines[..|lines| - 1]) + (if Matches(name, lines[|lines| - 1]) then 1 else 0)
  }

  /** The property values of a resource file; a missing file has none. */
  function Properties(name: string, fs: FileSystem, path: string): seq<string>
  {
    if path in fs then Values(name, fs[path]) else []
  }

  /** Reading two consecutive parts of a file is reading each in turn. */
  lemma {:induction false} ValuesAppend(name: string, a: seq<string>, b: seq<string>)
    ensures Values(name, a + b) == Values(name, a) + Values(name, b)
    decreases |b|
  {
    if b != [] {
      var b' := b[..|b| - 1];
      ValuesAppend(name, a, b');
      assert (a + b)[..|a + b| - 1] == a + b';
      assert (a + b)[|a + b| - 1] == b[|b| - 1];
    } else {
      assert a + b == a;
    }
  }

  /** Exactly one value per matching line. */
  lemma {:induction false} ValuesLength(name: string, lines: seq<string>)
    ensures |Values(name, lines)| == MatchCount(name, lines)
    decreases |lines|
  {
    if lines != [] {
      ValuesLength(name, lines[..|lines| - 1]);
    }
  }

  /**
   * The value of the matching line `i` sits right after the values of the
   * lines before it: values come in file order.
   */
  lemma ValuesAt(name: string, lines: seq<string>, i: nat)
    requires i < |lines| && Matches(name, lines[i])
    ensures |Values(name, lines[..i])| < |Values(name, lines)|
    ensures Values(name, lines)[|Values(name, lines[..i])|] == ValueOf(name, lines[i])
  {
    assert lines == lines[..i] + [lines[i]] + lines[i + 1..];
    ValuesAppend(name, lines[..i] + [lines[i]], lines[i + 1..]);
    ValuesAppend(name, lines[..i], [lines[i]]);
    assert Values(name, [lines[i]]) == [ValueOf(name, lines[i])] by {
      assert [lines[i]][..0] == [];
    }
  }

  /** Of two matching lines, the earlier one's value comes first. */
  lemma ValuesInOrder(name: string, lines: seq<string>, i: nat, j: nat)
    requires i < j < |lines|
    requires Matches(name, lines[i]) && Matches(name, lines[j])
    ensures |Values(name, lines[..i])| < |Values(name, lines[..j])|
  {
    assert lines[..j] == lines[..i] + [lines[i]] + lines[i + 1..j];
    ValuesAppend(name, lines[..i] + [lines[i]], lines[i + 1..j]);
    ValuesAppend(name, lines[..i], [lines[i]]);
    assert Values(name, [lines[i]]) == [ValueOf(name, lines[i])] by {
      assert [lines[i]][..0] == [];
    }
  }

  /** Every value returned comes from a matching line of the file. */
  lemma {:induction false} ValuesSound(name: string, lines: seq<string>, v: string)
    requires v in Values(name, lines)
    ensures exists i :: 0 <= i < |lines| && Matches(name, lines[i]) && ValueOf(name, lines[i]) == v
    decreases |lines|
  {
    var n := |lines| - 1;
    if v in Values(name, lines[..n]) {
      ValuesSound(name, lines[..n], v);
      var i :| 0 <= i < n && Matches(name, lines[..n][i]) && ValueOf(name, lines[..n][i]) == v;
      assert lines[..n][i] == lines[i];
    } else {
      assert Matches(name, lines[n]) && ValueOf(name, lines[n]) == v;
    }
  }

  /** A file without any matching line yields no values. */
  lemma {:induction false} ValuesNone(name: string, lines: seq<string>)
    requires forall i :: 0 <= i < |lines| ==> !Matches(name, lines[i])
    ensures Values(name, lines) == []
    decreases |lines|
  {
    if lines != [] {
      ValuesNone(name, lines[..|lines| - 1]);
    }
  }
}
