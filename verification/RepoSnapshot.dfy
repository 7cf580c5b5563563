/** The Dev agent's read-only snapshot of a repository: one capped pass over its files. */
module RepoSnapshot {
  import opened Text

  /** A file in path order; `text` is None when it cannot be read. */
  datatype File = File(path: string, hidden: bool, text: Option<string>)

  datatype Line =
    | Unavailable(repo: string)
    | Title(repo: string) | Blank | Name(path: string) | Unreadable | Fence | Snippet(text: string) | CapReached

  /** The cap is named in bytes and applied to characters. */
  const CAP: nat := 32768

  function First(n: int, s: string): string {
    if n <= 0 then "" else if n < |s| then s[..n] else s
  }

  /** The lines for the files, with `used` characters taken already. */
  function Lines(files: seq<File>, used: nat): seq<Line> {
    if files == [] then []
    else
      var f := files[0];
      if f.hidden then Lines(files[1..], used)
      else if f.text.None? then [Name(f.path), Unreadable] + Lines(files[1..], used)
      else if used >= CAP then [Name(f.path), CapReached]
      else
        var snippet := First(CAP - used, f.text.value);
        [Name(f.path), Fence, Snippet(snippet), Fence] + Lines(files[1..], used + |snippet|)
  }

  /** The text of the snippets among some lines. */
  function Shown(lines: seq<Line>): string {
    if lines == [] then ""
    else if lines[0].Snippet? then lines[0].text + Shown(lines[1..])
    else Shown(lines[1..])
  }

  /** Everything there is to read. */
  function Readable(files: seq<File>): string {
    if files == [] then ""
    else if !files[0].hidden && files[0].text.Some? then files[0].text.value + Readable(files[1..])
    else Readable(files[1..])
  }

  /** A readable file begins at or after the cap. */
  predicate Overflows(files: seq<File>, used: nat) {
    files != []
      && (if !files[0].hidden && files[0].text.Some?
          then used >= CAP || Overflows(files[1..], used + |files[0].text.value|)
          else Overflows(files[1..], used))
  }

  /** The snapshot of a path: a notice when it is no directory. */
  function Snapshot(repo: string, dir: Option<seq<File>>): seq<Line> {
    if dir.None? then [Unavailable(repo)] else [Title(repo), Blank] + Lines(dir.value, 0)
  }

  lemma Gather(s: seq<Line>, a: Line, b: Line, rest: seq<Line>)
    ensures s + [a] + [b] + rest == s + ([a, b] + rest)
  {
  }

  lemma GatherFour(s: seq<Line>, a: Line, b: Line, c: Line, d: Line, rest: seq<Line>)
    ensures s + [a] + [b] + [c] + [d] + rest == s + ([a, b, c, d] + rest)
  {
  }

  method ReadSnapshot(repo: string, dir: Option<seq<File>>) returns (lines: seq<Line>)
    ensures lines == Snapshot(repo, dir)
  {
    if dir.None? { return [Unavailable(repo)]; }
    var files := dir.value;
    lines := [Title(repo), Blank];
    var total := 0;
    var i := 0;
    while i < |files|
      invariant 0 <= i <= |files| && 0 <= total
      invariant lines + Lines(files[i..], total) == [Title(repo), Blank] + Lines(files, 0)
    {
      var f := files[i];
      ghost var rest := files[i + 1..];
      ghost var before := lines;
      assert files[i..][1..] == rest;
      i := i + 1;
      if f.hidden { continue; }
      lines := lines + [Name(f.path)];
      if f.text.None? {
        lines := lines + [Unreadable];
        Gather(before, Name(f.path), Unreadable, Lines(rest, total));
        continue;
      }
      var remaining := CAP - total;
      if remaining <= 0 {
        lines := lines + [CapReached];
        return;
      }
      var snippet := First(remaining, f.text.value);
      GatherFour(before, Name(f.path), Fence, Snippet(snippet), Fence, Lines(rest, total + |snippet|));
      total := total + |snippet|;
      lines := lines + [Fence];
      lines := lines + [Snippet(snippet)];
      lines := lines + [Fence];
    }
  }

  lemma FirstConcat(n: int, a: string, b: string)
    ensures First(n, a + b) == First(n, a) + First(n - |First(n, a)|, b)
  {
  }

  lemma ShownCons(line: Line, rest: seq<Line>)
    ensures Shown([line] + rest) == if line.Snippet? then line.text + Shown(rest) else Shown(rest)
    ensures CapReached in [line] + rest <==> line == CapReached || CapReached in rest
  {
  }

  lemma ShownUnreadable(path: string, rest: seq<Line>)
    ensures Shown([Name(path), Unreadable] + rest) == Shown(rest)
    ensures CapReached in [Name(path), Unreadable] + rest <==> CapReached in rest
  {
  }

  lemma ShownSnippet(path: string, text: string, rest: seq<Line>)
    ensures Shown([Name(path), Fence, Snippet(text), Fence] + rest) == text + Shown(rest)
    ensures CapReached in [Name(path), Fence, Snippet(text), Fence] + rest <==> CapReached in rest
  {
    ShownCons(Fence, rest);
    ShownCons(Snippet(text), [Fence] + rest);
    ShownCons(Fence, [Snippet(text)] + ([Fence] + rest));
    ShownCons(Name(path), [Fence] + ([Snippet(text)] + ([Fence] + rest)));
    assert [Name(path), Fence, Snippet(text), Fence] + rest
      == [Name(path)] + ([Fence] + ([Snippet(text)] + ([Fence] + rest)));
  }

  lemma ShownCapped(path: string)
    ensures Shown([Name(path), CapReached]) == ""
  {
    ShownCons(CapReached, []);
    ShownCons(Name(path), [CapReached]);
    assert [CapReached] + [] == [CapReached] && [Name(path)] + [CapReached] == [Name(path), CapReached];
  }

  lemma {:induction false} ShownFrom(files: seq<File>, used: nat)
    ensures Shown(Lines(files, used)) == First(CAP - used, Readable(files))
  {
    if files == [] {
    } else {
      var f, rest := files[0], files[1..];
      if f.hidden {
        ShownFrom(rest, used);
      } else if f.text.None? {
        ShownFrom(rest, used);
        ShownUnreadable(f.path, Lines(rest, used));
      } else if used < CAP {
        var snippet := First(CAP - used, f.text.value);
        ShownFrom(rest, used + |snippet|);
        ShownSnippet(f.path, snippet, Lines(rest, used + |snippet|));
        FirstConcat(CAP - used, f.text.value, Readable(rest));
      } else {
        ShownCapped(f.path);
      }
    }
  }

  lemma {:induction false} CappedFrom(files: seq<File>, used: nat, all: nat)
    requires used == if all < CAP then all else CAP
    ensures CapReached in Lines(files, used) <==> Overflows(files, all)
  {
    if files == [] {
    } else {
      var f, rest := files[0], files[1..];
      if f.hidden {
        CappedFrom(rest, used, all);
      } else if f.text.None? {
        CappedFrom(rest, used, all);
        ShownUnreadable(f.path, Lines(rest, used));
      } else if used < CAP {
        var snippet := First(CAP - used, f.text.value);
        CappedFrom(rest, used + |snippet|, all + |f.text.value|);
        ShownSnippet(f.path, snippet, Lines(rest, used + |snippet|));
      }
    }
  }

  lemma ShownTitled(repo: string, rest: seq<Line>)
    ensures Shown([Title(repo), Blank] + rest) == Shown(rest)
    ensures CapReached in [Title(repo), Blank] + rest <==> CapReached in rest
  {
    ShownCons(Blank, rest);
    ShownCons(Title(repo), [Blank] + rest);
    assert [Title(repo)] + ([Blank] + rest) == [Title(repo), Blank] + rest;
  }

  /**
   The snippets together are the first 32768 characters of the readable files, or all of them;
   the cap is announced exactly when a readable file begins at or after it, so never for a text
   that merely ends there. A path that is no directory shows nothing but that.
   */
  lemma SnapshotShowsPrefix(repo: string, dir: Option<seq<File>>)
    ensures var lines := Snapshot(repo, dir);
      && Shown(lines) == (if dir.Some? then First(32768, Readable(dir.value)) else "")
      && (CapReached in lines <==> dir.Some? && Overflows(dir.value, 0))
      && (Unavailable(repo) == lines[0] <==> dir.None?)
  {
    if dir.None? {
      ShownCons(Unavailable(repo), []);
      assert [Unavailable(repo)] + [] == [Unavailable(repo)];
    } else {
      ShownFrom(dir.value, 0);
      CappedFrom(dir.value, 0, 0);
      ShownTitled(repo, Lines(dir.value, 0));
    }
  }

  /** The paths named among some lines. */
  function Named(lines: seq<Line>): seq<string> {
    if lines == [] then []
    else if lines[0].Name? then [lines[0].path] + Named(lines[1..])
    else Named(lines[1..])
  }

  function Visible(files: seq<File>): seq<string> {
    if files == [] then []
    else if files[0].hidden then Visible(files[1..])
    else [files[0].path] + Visible(files[1..])
  }

  lemma NamedCons(line: Line, rest: seq<Line>)
    ensures Named([line] + rest) == if line.Name? then [line.path] + Named(rest) else Named(rest)
  {
    assert ([line] + rest)[1..] == rest;
  }

  lemma NamedPair(path: string, line: Line, rest: seq<Line>)
    requires !line.Name?
    ensures Named([Name(path), line] + rest) == [path] + Named(rest)
  {
    NamedCons(line, rest);
    NamedCons(Name(path), [line] + rest);
    assert [Name(path), line] + rest == [Name(path)] + ([line] + rest);
  }

  lemma NamedSnippet(path: string, text: string, rest: seq<Line>)
    ensures Named([Name(path), Fence, Snippet(text), Fence] + rest) == [path] + Named(rest)
  {
    NamedCons(Fence, rest);
    NamedCons(Snippet(text), [Fence] + rest);
    NamedPair(path, Fence, [Snippet(text)] + ([Fence] + rest));
    assert [Name(path), Fence, Snippet(text), Fence] + rest
      == [Name(path), Fence] + ([Snippet(text)] + ([Fence] + rest));
  }

  lemma ConsPrefix(path: string, a: seq<string>, b: seq<string>)
    requires a <= b
    ensures [path] + a <= [path] + b
    ensures a == b ==> [path] + a == [path] + b
  {
  }

  /** The visible files are named in order, all of them unless the cap was announced. */
  lemma {:induction false} NamesArePrefix(files: seq<File>, used: nat)
    ensures Named(Lines(files, used)) <= Visible(files)
    ensures CapReached !in Lines(files, used) ==> Named(Lines(files, used)) == Visible(files)
  {
    if files == [] {
    } else {
      var f, rest := files[0], files[1..];
      if f.hidden {
        NamesArePrefix(rest, used);
      } else if f.text.None? {
        NamesArePrefix(rest, used);
        NamedPair(f.path, Unreadable, Lines(rest, used));
        ConsPrefix(f.path, Named(Lines(rest, used)), Visible(rest));
        ShownUnreadable(f.path, Lines(rest, used));
      } else if used < CAP {
        var snippet := First(CAP - used, f.text.value);
        NamesArePrefix(rest, used + |snippet|);
        NamedSnippet(f.path, snippet, Lines(rest, used + |snippet|));
        ConsPrefix(f.path, Named(Lines(rest, used + |snippet|)), Visible(rest));
        ShownSnippet(f.path, snippet, Lines(rest, used + |snippet|));
      } else {
        NamedPair(f.path, CapReached, []);
        assert [Name(f.path), CapReached] + [] == [Name(f.path), CapReached];
        ConsPrefix(f.path, [], Visible(rest));
      }
    }
  }
}
