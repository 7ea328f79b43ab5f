/**
 The preload trace: an append-only list of lines (`_preload_logs`), the
 `_log` append and the `'\n'.join` rendering of `_get_preload_logs`, with
 the line splitting that undoes the rendering.
 */
module DiagnosticLog {

  predicate IsPrefix<T(==)>(a: seq<T>, b: seq<T>) {
    |a| <= |b| && b[..|a|] == a
  }

  predicate NoNewline(s: string) {
    forall i :: 0 <= i < |s| ==> s[i] != '\n'
  }

  /** `_log(msg)`: the new line goes at the end; earlier lines keep their
      places and contents. */
  function Append(logs: seq<string>, msg: string): (r: seq<string>)
    ensures IsPrefix(logs, r)
    ensures |r| == |logs| + 1 && r[|logs|] == msg
  {
    logs + [msg]
  }

  lemma PrefixTransitive<T>(a: seq<T>, b: seq<T>, c: seq<T>)
    requires IsPrefix(a, b) && IsPrefix(b, c)
    ensures IsPrefix(a, c)
  {
    assert c[..|a|] == c[..|b|][..|a|];
  }

  lemma AppendAssoc<T>(a: seq<T>, b: seq<T>, c: seq<T>)
    ensures (a + b) + c == a + (b + c)
  {
  }

  /** Every line of a prefix is still a line of the longer log. */
  lemma PrefixKeepsLines<T>(a: seq<T>, b: seq<T>, x: T)
    requires IsPrefix(a, b) && x in a
    ensures x in b
  {
    var i :| 0 <= i < |a| && a[i] == x;
    assert b[i] == b[..|a|][i];
  }

  /** `'\n'.join(lines)` */
  function Render(lines: seq<string>): string
    decreases |lines|
  {
    if |lines| == 0 then ""
    else if |lines| == 1 then lines[0]
    else lines[0] + "\n" + Render(lines[1..])
  }

  /** Index of the first '\n' in `s`, or |s| when there is none. */
  function FirstNewline(s: string): (k: nat)
    ensures k <= |s|
    ensures k < |s| ==> s[k] == '\n'
    ensures forall j :: 0 <= j < k ==> s[j] != '\n'
  {
    if |s| == 0 || s[0] == '\n' then 0 else 1 + FirstNewline(s[1..])
  }

  /** `s.split('\n')` */
  function Split(s: string): (r: seq<string>)
    ensures |r| > 0
    ensures forall i :: 0 <= i < |r| ==> NoNewline(r[i])
    decreases |s|
  {
    var k := FirstNewline(s);
    if k == |s| then [s] else [s[..k]] + Split(s[k + 1..])
  }

  lemma SplitAfterLine(x: string, rest: string)
    requires NoNewline(x)
    ensures Split(x + "\n" + rest) == [x] + Split(rest)
  {
    var s := x + "\n" + rest;
    var k := FirstNewline(s);
    assert s[|x|] == '\n';
    assert k == |x|;
    assert s[..k] == x;
    assert s[k + 1..] == rest;
  }

  /** Splitting the rendered log gives back its lines, provided there is at
      least one line and no line holds a newline itself. */
  lemma {:induction false} SplitRender(lines: seq<string>)
    requires |lines| > 0
    requires forall i :: 0 <= i < |lines| ==> NoNewline(lines[i])
    ensures Split(Render(lines)) == lines
    decreases |lines|
  {
    if |lines| == 1 {
      assert FirstNewline(lines[0]) == |lines[0]|;
    } else {
      SplitRender(lines[1..]);
      SplitAfterLine(lines[0], Render(lines[1..]));
    }
  }

  /** Splitting at a joining newline splits the two sides separately. */
  lemma {:induction false} SplitJoin(x: string, y: string)
    ensures Split(x + "\n" + y) == Split(x) + Split(y)
    decreases |x|
  {
    var k := FirstNewline(x);
    if k == |x| {
      assert Split(x) == [x];
      SplitAfterLine(x, y);
    } else {
      var head, tail := x[..k], x[k + 1..];
      assert NoNewline(head) by {
        forall j | 0 <= j < |head| ensures head[j] != '\n' {
          assert head[j] == x[j];
        }
      }
      assert Split(x) == [head] + Split(tail);
      assert x + "\n" + y == head + "\n" + (tail + "\n" + y) by {
        assert x == head + "\n" + tail;
      }
      SplitAfterLine(head, tail + "\n" + y);
      SplitJoin(tail, y);
      AppendAssoc([head], Split(tail), Split(y));
    }
  }

  /** Reference for splitting a rendered log: every line split on its own,
      the pieces kept in order. */
  function Pieces(lines: seq<string>): seq<string>
    requires |lines| > 0
    decreases |lines|
  {
    if |lines| == 1 then Split(lines[0]) else Split(lines[0]) + Pieces(lines[1..])
  }

  /** Lines without newlines are their own pieces. */
  lemma {:induction false} PlainPieces(lines: seq<string>)
    requires |lines| > 0
    ensures (forall i :: 0 <= i < |lines| ==> NoNewline(lines[i])) ==> Pieces(lines) == lines
    decreases |lines|
  {
    if forall i :: 0 <= i < |lines| ==> NoNewline(lines[i]) {
      assert FirstNewline(lines[0]) == |lines[0]|;
      if |lines| > 1 {
        assert forall i :: 0 <= i < |lines[1..]| ==> lines[1..][i] == lines[i + 1];
        PlainPieces(lines[1..]);
      }
    }
  }

  /** Splitting the rendered log gives the pieces of its lines, whatever
      newlines the lines themselves hold. */
  lemma {:induction false} SplitRenderPieces(lines: seq<string>)
    requires |lines| > 0
    ensures Split(Render(lines)) == Pieces(lines)
    decreases |lines|
  {
    if |lines| > 1 {
      SplitRenderPieces(lines[1..]);
      SplitJoin(lines[0], Render(lines[1..]));
    }
  }

  /** Rendering the pieces of a split string gives back the string. */
  lemma {:induction false} RenderSplit(s: string)
    ensures Render(Split(s)) == s
    decreases |s|
  {
    var k := FirstNewline(s);
    if k < |s| {
      RenderSplit(s[k + 1..]);
      var r := Split(s);
      assert r == [s[..k]] + Split(s[k + 1..]);
      assert r[1..] == Split(s[k + 1..]);
      assert s == s[..k] + "\n" + s[k + 1..];
    }
  }
}
