/** Text vocabulary of the event-stream decoder: carriage returns, lines, and blank lines. */
module SseText {

  /** The text without any carriage return. */
  function DropCR(s: string): (r: string)
    ensures '\r' !in r
  {
    if s == "" then "" else (if s[0] == '\r' then "" else [s[0]]) + DropCR(s[1..])
  }

  lemma {:induction false} DropCRConcat(a: string, b: string)
    ensures DropCR(a + b) == DropCR(a) + DropCR(b)
  {
    if a == "" {
      assert a + b == b;
    } else {
      var first := if a[0] == '\r' then "" else [a[0]];
      assert (a + b)[1..] == a[1..] + b && (a + b)[0] == a[0];
      calc {
        DropCR(a + b);
        first + DropCR(a[1..] + b);
        { DropCRConcat(a[1..], b); }
        first + (DropCR(a[1..]) + DropCR(b));
        (first + DropCR(a[1..])) + DropCR(b);
        DropCR(a) + DropCR(b);
      }
    }
  }

  lemma {:induction false} DropCRIdentity(s: string)
    requires '\r' !in s
    ensures DropCR(s) == s
  {
    if s == "" {
    } else {
      DropCRIdentity(s[1..]);
    }
  }

  function Concat(parts: seq<string>): string {
    if parts == [] then "" else parts[0] + Concat(parts[1..])
  }

  lemma {:induction false} ConcatSnoc(parts: seq<string>, last: string)
    ensures Concat(parts + [last]) == Concat(parts) + last
  {
    if parts == [] {
      assert [last][1..] == [];
    } else {
      assert (parts + [last])[1..] == parts[1..] + [last];
      ConcatSnoc(parts[1..], last);
    }
  }

  /** A blank line: two newlines in a row, the first of them at index i. */
  predicate BlankAt(s: string, i: int) {
    0 <= i < |s| - 1 && s[i] == '\n' && s[i + 1] == '\n'
  }

  ghost predicate NoBlank(s: string) {
    forall i :: !BlankAt(s, i)
  }

  /** std::string::find("\n\n", from): the leftmost blank line, or -1. */
  function FindBlank(s: string, from: nat): (e: int)
    requires from <= |s|
    ensures e < 0 ==> forall i :: from <= i ==> !BlankAt(s, i)
    ensures e >= 0 ==> from <= e && BlankAt(s, e) && forall i :: from <= i < e ==> !BlankAt(s, i)
    decreases |s| - from
  {
    if BlankAt(s, from) then from else if from == |s| then -1 else FindBlank(s, from + 1)
  }

  /** std::string::find('\n', from): the leftmost newline, or -1. */
  function FindNewline(s: string, from: nat): (e: int)
    requires from <= |s|
    ensures e < 0 ==> forall i :: from <= i < |s| ==> s[i] != '\n'
    ensures e >= 0 ==> from <= e < |s| && s[e] == '\n' && forall i :: from <= i < e ==> s[i] != '\n'
    decreases |s| - from
  {
    if from == |s| then -1 else if s[from] == '\n' then from else FindNewline(s, from + 1)
  }

  /** The newline-separated lines of a text; always at least one. */
  function Lines(s: string): (ls: seq<string>)
    ensures |ls| >= 1
    decreases |s|
  {
    var e := FindNewline(s, 0);
    if e < 0 then [s] else [s[..e]] + Lines(s[e + 1..])
  }

  /** The lines put back together with a newline between neighbours. */
  function Join(ls: seq<string>): string {
    if |ls| == 0 then "" else if |ls| == 1 then ls[0] else ls[0] + "\n" + Join(ls[1..])
  }

  ghost predicate OneLiners(ls: seq<string>) {
    forall i :: 0 <= i < |ls| ==> '\n' !in ls[i]
  }

  /** Splitting and joining undo each other, and no split part contains a newline. */
  lemma {:induction false} JoinLines(s: string)
    ensures Join(Lines(s)) == s
    ensures OneLiners(Lines(s))
    decreases |s|
  {
    var e := FindNewline(s, 0);
    if e < 0 {
    } else {
      JoinLines(s[e + 1..]);
      assert Lines(s)[1..] == Lines(s[e + 1..]);
      assert s == s[..e] + "\n" + s[e + 1..];
    }
  }

  /** The first newline of a text whose first line is known. */
  lemma FirstNewline(line: string, rest: string)
    requires '\n' !in line
    ensures FindNewline(line, 0) < 0
    ensures FindNewline(line + "\n" + rest, 0) == |line|
  {
    var s := line + "\n" + rest;
    assert s[|line|] == '\n';
    assert forall i :: 0 <= i < |line| ==> s[i] == line[i];
  }

  lemma LinesCons(line: string, rest: string)
    requires '\n' !in line
    ensures Lines(line + "\n" + rest) == [line] + Lines(rest)
  {
    FirstNewline(line, rest);
    var s := line + "\n" + rest;
    assert s[..|line|] == line && s[|line| + 1..] == rest;
  }

  lemma {:induction false} LinesJoin(ls: seq<string>)
    requires |ls| >= 1 && OneLiners(ls)
    ensures Lines(Join(ls)) == ls
  {
    if |ls| == 1 {
      FirstNewline(ls[0], "");
    } else {
      LinesJoin(ls[1..]);
      LinesCons(ls[0], Join(ls[1..]));
      assert ls == [ls[0]] + ls[1..];
    }
  }

  lemma {:induction false} JoinSnoc(ls: seq<string>, last: string)
    ensures Join(ls + [last]) == if ls == [] then last else Join(ls) + "\n" + last
  {
    if |ls| > 1 {
      JoinSnoc(ls[1..], last);
      assert (ls + [last])[1..] == ls[1..] + [last];
    } else if |ls| == 1 {
      assert (ls + [last])[1..] == [last];
    }
  }
}
