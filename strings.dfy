/** Text helpers shared by the modules: first-occurrence search (Rust's `str::find`),
    joining with a separator (`[String]::join`), newline-terminated lines (`writeln!`),
    and splitting, which is what lets a reader take an aggregated error apart again. */
module Strings {
  import opened Base

  predicate OccursAt(s: string, pattern: string, i: nat) {
    i + |pattern| <= |s| && s[i..i + |pattern|] == pattern
  }

  /** The first index at or after `from` where `pattern` occurs (that it is an occurrence,
      and the first, is `FindFromLeast`). */
  function FindFrom(s: string, pattern: string, from: nat): (r: Option<nat>)
    requires from <= |s|
    ensures r.Some? ==> from <= r.value && r.value + |pattern| <= |s|
    decreases |s| - from
  {
    if OccursAt(s, pattern, from) then Some(from)
    else if from == |s| then None
    else FindFrom(s, pattern, from + 1)
  }

  /** Rust's `s.find(pattern)`: the index of the first occurrence, if any. */
  function Find(s: string, pattern: string): (r: Option<nat>)
    ensures r.Some? ==> r.value + |pattern| <= |s|
  {
    FindFrom(s, pattern, 0)
  }

  /** Nothing is skipped: no occurrence before the one found, none at all when none is. */
  lemma {:induction false} FindFromLeast(s: string, pattern: string, from: nat)
    requires from <= |s|
    ensures FindFrom(s, pattern, from).Some? ==> OccursAt(s, pattern, FindFrom(s, pattern, from).value)
    ensures FindFrom(s, pattern, from).Some? ==>
              forall j :: from <= j < FindFrom(s, pattern, from).value ==> !OccursAt(s, pattern, j)
    ensures FindFrom(s, pattern, from).None? ==> forall j :: from <= j <= |s| ==> !OccursAt(s, pattern, j)
    decreases |s| - from
  {
    if !OccursAt(s, pattern, from) && from < |s| {
      FindFromLeast(s, pattern, from + 1);
    }
  }

  lemma FindLeast(s: string, pattern: string)
    ensures Find(s, pattern).Some? ==> OccursAt(s, pattern, Find(s, pattern).value)
    ensures Find(s, pattern).Some? ==> forall j :: 0 <= j < Find(s, pattern).value ==> !OccursAt(s, pattern, j)
    ensures Find(s, pattern).None? ==> forall j :: 0 <= j <= |s| ==> !OccursAt(s, pattern, j)
  {
    FindFromLeast(s, pattern, 0);
  }

  /** An occurrence with none before it is the one `FindFrom` returns. */
  lemma {:induction false} FindFromIs(s: string, pattern: string, from: nat, k: nat)
    requires from <= k <= |s| && OccursAt(s, pattern, k)
    requires forall j :: from <= j < k ==> !OccursAt(s, pattern, j)
    ensures FindFrom(s, pattern, from) == Some(k)
    decreases k - from
  {
    if from < k {
      FindFromIs(s, pattern, from + 1, k);
    }
  }

  lemma FindIs(s: string, pattern: string, k: nat)
    requires k <= |s| && OccursAt(s, pattern, k)
    requires forall j :: 0 <= j < k ==> !OccursAt(s, pattern, j)
    ensures Find(s, pattern) == Some(k)
  {
    FindFromIs(s, pattern, 0, k);
  }

  lemma {:induction false} FindFromNone(s: string, pattern: string, from: nat)
    requires from <= |s|
    requires forall j :: from <= j <= |s| ==> !OccursAt(s, pattern, j)
    ensures FindFrom(s, pattern, from).None?
    decreases |s| - from
  {
    if from < |s| {
      FindFromNone(s, pattern, from + 1);
    }
  }

  /** Separator-joined concatenation, as Rust's `join`. */
  function Join(parts: seq<string>, separator: string): (r: string)
    ensures |parts| == 1 ==> r == parts[0]
    ensures parts == [] ==> r == ""
  {
    if parts == [] then ""
    else if |parts| == 1 then parts[0]
    else parts[0] + separator + Join(parts[1..], separator)
  }

  /** The text `writeln!` accumulates: every line followed by a newline. */
  function Lines(lines: seq<string>): string {
    if lines == [] then "" else lines[0] + "\n" + Lines(lines[1..])
  }

  /** Splitting at every `c`, as Rust's `s.split(c)`. */
  function Split(s: string, c: char): (r: seq<string>)
    ensures |r| >= 1
    decreases |s|
  {
    match Find(s, [c])
    case None => [s]
    case Some(i) => [s[..i]] + Split(s[i + 1..], c)
  }

  predicate FreeOf(parts: seq<string>, c: char) {
    forall k :: 0 <= k < |parts| ==> c !in parts[k]
  }

  lemma FindAbsent(s: string, c: char)
    requires c !in s
    ensures Find(s, [c]).None?
  {
    forall j | 0 <= j <= |s| ensures !OccursAt(s, [c], j) {
      if j + 1 <= |s| { assert s[j..j + 1] == [s[j]]; }
    }
    FindFromNone(s, [c], 0);
  }

  lemma FindFirst(x: string, rest: string, c: char)
    requires c !in x
    ensures Find(x + [c] + rest, [c]) == Some(|x|)
  {
    var s := x + [c] + rest;
    assert OccursAt(s, [c], |x|) by { assert s[|x|..|x| + 1] == [c]; }
    forall j | 0 <= j < |x| ensures !OccursAt(s, [c], j) {
      assert s[j..j + 1] == [x[j]];
    }
    FindIs(s, [c], |x|);
  }

  /** Splitting undoes joining when no part contains the separator. */
  lemma {:induction false} SplitJoin(parts: seq<string>, c: char)
    requires |parts| >= 1 && FreeOf(parts, c)
    ensures Split(Join(parts, [c]), c) == parts
  {
    if |parts| == 1 {
      FindAbsent(parts[0], c);
    } else {
      var tail := Join(parts[1..], [c]);
      assert Join(parts, [c]) == parts[0] + [c] + tail;
      FindFirst(parts[0], tail, c);
      var s := parts[0] + [c] + tail;
      assert s[..|parts[0]|] == parts[0];
      assert s[|parts[0]| + 1..] == tail;
      SplitJoin(parts[1..], c);
    }
  }

  /** Newline-terminated lines are the lines joined with newlines, plus a final newline. */
  lemma {:induction false} LinesIsJoin(lines: seq<string>)
    ensures Lines(lines) == Join(lines + [""], "\n")
  {
    if lines != [] {
      LinesIsJoin(lines[1..]);
      assert (lines + [""])[1..] == lines[1..] + [""];
    }
  }

  /** Splitting `writeln!` output at newlines gives back every line, then an empty rest. */
  lemma SplitLines(lines: seq<string>)
    requires FreeOf(lines, '\n')
    ensures Split(Lines(lines), '\n') == lines + [""]
  {
    LinesIsJoin(lines);
    SplitJoin(lines + [""], '\n');
  }
}
