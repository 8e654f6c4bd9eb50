/** The string building the configuration dumps use. */
module Text {

  /** C#'s `bool.ToString()`. */
  function BoolText(b: bool): (r: string)
    ensures r == "True" || r == "False"
    ensures '\n' !in r
  {
    if b then "True" else "False"
  }

  /** `n` spaces. */
  function Spaces(n: nat): (r: string)
    ensures |r| == n
    ensures forall i :: 0 <= i < n ==> r[i] == ' '
  {
    if n == 0 then "" else " " + Spaces(n - 1)
  }

  /** The lines joined by newlines, with no newline after the last one. */
  function Join(lines: seq<string>): string {
    if |lines| == 0 then ""
    else if |lines| == 1 then lines[0]
    else lines[0] + "\n" + Join(lines[1..])
  }

  /** The position of the first newline of `s`, or |s| when it has none. */
  function NewlineAt(s: string): (i: nat)
    ensures i <= |s|
    ensures forall j :: 0 <= j < i ==> s[j] != '\n'
    ensures i < |s| ==> s[i] == '\n'
  {
    if s == [] then 0 else if s[0] == '\n' then 0 else 1 + NewlineAt(s[1..])
  }

  /** The newline-separated lines of `s`: the inverse of Join for lines without newlines. */
  function Split(s: string): (r: seq<string>)
    ensures |r| > 0
    decreases |s|
  {
    var i := NewlineAt(s);
    if i == |s| then [s] else [s[..i]] + Split(s[i + 1..])
  }

  lemma NewlineAfter(a: string, b: string)
    requires '\n' !in a
    ensures NewlineAt(a + "\n" + b) == |a|
  {
    var s := a + "\n" + b;
    var i := NewlineAt(s);
    assert s[|a|] == '\n';
  }

  /** Splitting the join gives back the lines. */
  lemma {:induction false} SplitJoin(lines: seq<string>)
    requires |lines| > 0
    requires forall i :: 0 <= i < |lines| ==> '\n' !in lines[i]
    ensures Split(Join(lines)) == lines
  {
    if |lines| == 1 {
      assert NewlineAt(lines[0]) == |lines[0]|;
    } else {
      var rest := Join(lines[1..]);
      var s := lines[0] + "\n" + rest;
      NewlineAfter(lines[0], rest);
      assert |s| == |lines[0]| + 1 + |rest|;
      assert Split(s) == [s[..|lines[0]|]] + Split(s[|lines[0]| + 1..]);
      assert s[..|lines[0]|] == lines[0];
      assert s[|lines[0]| + 1..] == rest;
      SplitJoin(lines[1..]);
    }
  }

  /** A joined text never ends with a newline when its last line is non-empty. */
  lemma {:induction false} JoinLastChar(lines: seq<string>)
    requires |lines| > 0 && |lines[|lines| - 1]| > 0
    ensures |Join(lines)| > 0
    ensures Join(lines)[|Join(lines)| - 1] == lines[|lines| - 1][|lines[|lines| - 1]| - 1]
  {
    if |lines| > 1 {
      JoinLastChar(lines[1..]);
    }
  }

  /** `name` padded with spaces to `column`, then `= ` and the value: one line of a configuration dump. */
  function Aligned(name: string, column: nat, value: bool): string
    requires |name| <= column
  {
    name + Spaces(column - |name|) + "= " + BoolText(value)
  }

  lemma AlignedNoNewline(name: string, column: nat, value: bool)
    requires |name| <= column && '\n' !in name
    ensures '\n' !in Aligned(name, column, value)
  {
    var pad := Spaces(column - |name|);
    assert '\n' !in pad;
  }
}
