/** Lexical path cleaning: an in-place buffer algorithm and the component stack it implements. */
module LexPath {
  // --- Elements ------------------------------------------------------------------------------------------

  // Where the first element of `s` ends.
  function ElementEnd(s: string): (k: nat)
    ensures k <= |s| && (k < |s| ==> s[k] == '/') && forall i | 0 <= i < k :: s[i] != '/'
  {
    if |s| == 0 || s[0] == '/' then 0 else 1 + ElementEnd(s[1..])
  }

  // What the separators separate: one more element than there are separators.
  function Elements(s: string): (r: seq<string>)
    ensures |r| > 0
  {
    var k := ElementEnd(s);
    if k == |s| then [s] else [s[..k]] + Elements(s[k + 1..])
  }

  predicate Plain(e: string) {
    e != "" && e != "." && '/' !in e
  }

  // --- The component stack -------------------------------------------------------------------------------

  // One element: an empty or `.` one goes, `..` removes the one before it, or stays where there is
  // none to remove, or goes at the root.
  function Push(rooted: bool, stack: seq<string>, e: string): seq<string> {
    if e == "" || e == "." then stack
    else if e != ".." then stack + [e]
    else if |stack| > 0 && stack[|stack| - 1] != ".." then stack[..|stack| - 1]
    else if rooted then stack
    else stack + [".."]
  }

  function Fold(rooted: bool, stack: seq<string>, elements: seq<string>): seq<string>
    decreases |elements|
  {
    if |elements| == 0 then stack else Fold(rooted, Push(rooted, stack, elements[0]), elements[1..])
  }

  function Joined(stack: seq<string>): string {
    if |stack| == 0 then ""
    else if |stack| == 1 then stack[0]
    else Joined(stack[..|stack| - 1]) + "/" + stack[|stack| - 1]
  }

  function Text(rooted: bool, stack: seq<string>): string {
    (if rooted then "/" else "") + Joined(stack)
  }

  predicate Rooted(path: string) {
    |path| > 0 && path[0] == '/'
  }

  function Components(path: string): seq<string> {
    Fold(Rooted(path), [], Elements(path))
  }

  // The reference: what is on the stack at the end, written out.
  function Cleaned(path: string): string {
    var text := Text(Rooted(path), Components(path));
    if text == "" then "." else text
  }

  // A stack as cleaning leaves it: a run of `..`, none at the root, then other names.
  predicate Canonical(rooted: bool, stack: seq<string>, ups: nat) {
    && ups <= |stack| && (rooted ==> ups == 0)
    && (forall i | 0 <= i < |stack| :: Plain(stack[i]))
    && (forall i | 0 <= i < ups :: stack[i] == "..")
    && forall i | ups <= i < |stack| :: stack[i] != ".."
  }

  // --- Elements and the reading position --------------------------------------------------------------------

  lemma FirstElement(s: string)
    ensures var k := ElementEnd(s);
            && Elements(s)[0] == s[..k]
            && Elements(s[k..]) == [""] + Elements(s)[1..]
  {
    var k := ElementEnd(s);
    if k == |s| {
      assert s[k..] == "" && s[..k] == s;
    } else {
      assert s[k..][0] == '/' && ElementEnd(s[k..]) == 0;
      assert s[k..][1..] == s[k + 1..] && s[k..][..0] == "";
    }
  }

  // Reading past the first element pushes it.
  lemma Advance(rooted: bool, stack: seq<string>, s: string)
    ensures var k := ElementEnd(s);
            Fold(rooted, stack, Elements(s)) == Fold(rooted, Push(rooted, stack, s[..k]), Elements(s[k..]))
  {
    hide Elements, Push;
    var k := ElementEnd(s);
    FirstElement(s);
    var rest := Elements(s)[1..];
    assert ([""] + rest)[1..] == rest;
    PushEmpty(rooted, Push(rooted, stack, s[..k]));
  }

  lemma PushEmpty(rooted: bool, stack: seq<string>)
    ensures Push(rooted, stack, "") == stack
  {
  }

  // A separator is read on its own.
  lemma SkipSeparator(rooted: bool, stack: seq<string>, s: string)
    requires |s| > 0 && s[0] == '/'
    ensures Fold(rooted, stack, Elements(s)) == Fold(rooted, stack, Elements(s[1..]))
  {
    assert ElementEnd(s) == 0 && s[..0] == "";
    var rest := Elements(s[1..]);
    assert Elements(s) == [""] + rest;
    hide Elements;
    assert ([""] + rest)[1..] == rest;
  }

  lemma SameEnd(s: string, k: nat)
    requires k <= |s| && (k < |s| ==> s[k] == '/') && forall i | 0 <= i < k :: s[i] != '/'
    ensures ElementEnd(s) == k
  {
  }

  // --- The buffer and the stack -----------------------------------------------------------------------------------

  lemma JoinedSnoc(stack: seq<string>, e: string)
    ensures Joined(stack + [e]) == if |stack| == 0 then e else Joined(stack) + "/" + e
  {
    assert (stack + [e])[..|stack|] == stack;
  }

  lemma {:induction false} JoinedEmpty(stack: seq<string>)
    requires forall i | 0 <= i < |stack| :: stack[i] != ""
    ensures Joined(stack) == "" <==> |stack| == 0
  {
  }

  // Pushing a name onto the buffer.
  lemma TextSnoc(rooted: bool, stack: seq<string>, e: string)
    requires forall i | 0 <= i < |stack| :: stack[i] != ""
    ensures var out := Text(rooted, stack);
            var more := (rooted && |out| != 1) || (!rooted && out != "");
            Text(rooted, stack + [e]) == out + (if more then "/" else "") + e
  {
    JoinedSnoc(stack, e);
    JoinedEmpty(stack);
    hide Joined;
  }

  // The whole of a stack without its last name, and where it is in the buffer.
  lemma TextPop(rooted: bool, stack: seq<string>)
    requires |stack| > 0
    ensures var front, e := stack[..|stack| - 1], stack[|stack| - 1];
            && Text(rooted, stack) == Text(rooted, front) + (if |front| == 0 then "" else "/") + e
            && |Text(rooted, front)| <= |Text(rooted, stack)|
  {
    var front, e := stack[..|stack| - 1], stack[|stack| - 1];
    assert stack == front + [e];
    JoinedSnoc(front, e);
    hide Joined;
  }

  lemma {:induction false} PrefixShorter(rooted: bool, stack: seq<string>, n: nat)
    requires n <= |stack|
    ensures |Text(rooted, stack[..n])| <= |Text(rooted, stack)|
    decreases |stack|
  {
    if n == |stack| {
      assert stack[..n] == stack;
    } else {
      TextPop(rooted, stack);
      PrefixShorter(rooted, stack[..|stack| - 1], n);
      assert stack[..|stack| - 1][..n] == stack[..n];
    }
  }

  // Past the run of `..` the buffer is longer than it, exactly when there is a name to remove.
  lemma LongerThanUps(rooted: bool, stack: seq<string>, ups: nat)
    requires Canonical(rooted, stack, ups)
    ensures |Text(rooted, stack)| > |Text(rooted, stack[..ups])| <==> ups < |stack|
    ensures ups < |stack| <==> |stack| > 0 && stack[|stack| - 1] != ".."
  {
    if ups < |stack| {
      TextPop(rooted, stack);
      PrefixShorter(rooted, stack[..|stack| - 1], ups);
      assert stack[..|stack| - 1][..ups] == stack[..ups];
      assert Plain(stack[|stack| - 1]);
    } else {
      assert stack[..ups] == stack;
    }
    hide Text;
  }

  // --- Cleaning ---------------------------------------------------------------------------------------------------------

  // The buffer after removing the last name: back to the separator before it, not past `dotdot`.
  method Backtrack(out: string, dotdot: nat, ghost rooted: bool, ghost stack: seq<string>, ghost ups: nat) returns (r: string)
    requires Canonical(rooted, stack, ups) && ups < |stack| && out == Text(rooted, stack) && dotdot == |Text(rooted, stack[..ups])|
    requires dotdot < |out|
    ensures r == Text(rooted, stack[..|stack| - 1])
  {
    ghost var front, e := stack[..|stack| - 1], stack[|stack| - 1];
    ghost var base := |Text(rooted, front)|;
    TextPop(rooted, stack);
    PrefixShorter(rooted, front, ups);
    assert front[..ups] == stack[..ups];
    assert Plain(e);
    NothingLeft(rooted, front, ups);
    hide Text;
    var write := |out| - 1;
    while write > dotdot && out[write] != '/'
      invariant base <= write < |out| && dotdot <= write
      invariant forall i | write < i < |out| :: out[i] != '/'
    {
      write := write - 1;
    }
    assert |front| > 0 ==> out[base] == '/';
    assert write == base;
    return out[..write];
  }

  lemma NothingLeft(rooted: bool, front: seq<string>, ups: nat)
    requires ups <= |front| && (rooted ==> ups == 0)
    ensures |front| == 0 ==> |Text(rooted, front)| == |Text(rooted, front[..ups])|
  {
    if |front| == 0 {
      assert front[..ups] == front;
    }
  }

  method Clean(path: string) returns (out: string)
    ensures out == Cleaned(path)
  {
    hide Elements, Fold, Text, Push, Canonical, Plain, Joined, Components;
    if |path| == 0 {
      EmptyCleaned();
      return ".";
    }
    var rooted := path[0] == '/';
    out := "";
    var read, dotdot := 0, 0;
    ghost var stack: seq<string>, ups: nat := [], 0;
    Start(rooted);
    ComponentsStart(path);
    assert path[0..] == path;
    if rooted {
      out, read, dotdot := "/", 1, 1;
      SkipSeparator(true, [], path);
    }
    while read < |path|
      invariant read <= |path| && ups <= |stack| && Canonical(rooted, stack, ups)
      invariant out == Text(rooted, stack) && dotdot == |Text(rooted, stack[..ups])|
      invariant Components(path) == Fold(rooted, stack, Elements(path[read..]))
      decreases |path| - read
    {
      ghost var s := path[read..];
      if path[read] == '/' {
        SkipSeparator(rooted, stack, s);
        assert s[1..] == path[read + 1..];
        read := read + 1;
      } else if path[read] == '.' && (read + 1 == |path| || path[read + 1] == '/') {
        SameEnd(s, 1);
        assert s[..1] == "." && s[1..] == path[read + 1..];
        Advance(rooted, stack, s);
        PushDot(rooted, stack);
        read := read + 1;
      } else if path[read] == '.' && read + 1 < |path| && path[read + 1] == '.' && (read + 2 == |path| || path[read + 2] == '/') {
        SameEnd(s, 2);
        assert s[..2] == ".." && s[2..] == path[read + 2..];
        Advance(rooted, stack, s);
        read := read + 2;
        out, dotdot, stack, ups := GoUp(out, dotdot, rooted, stack, ups);
      } else {
        var end := NameEnd(path, read);
        SameEnd(s, end - read);
        ghost var e := s[..end - read];
        assert e == path[read..end] && s[end - read..] == path[end..];
        Advance(rooted, stack, s);
        NameIsPlain(path, read, end);
        PushName(rooted, stack, ups, e);
        if (rooted && |out| != 1) || (!rooted && out != "") {
          out := out + "/";
        }
        out := out + path[read..end];
        stack := stack + [e];
        read := end;
      }
    }
    assert path[read..] == "";
    Finish(rooted, stack);
    if out == "" {
      out := ".";
    }
  }

  // `..`: removes the last name, or stays, or goes at the root.
  method GoUp(out: string, dotdot: nat, rooted: bool, ghost stack: seq<string>, ghost ups: nat)
    returns (r: string, mark: nat, ghost next: seq<string>, ghost more: nat)
    requires Canonical(rooted, stack, ups) && out == Text(rooted, stack) && dotdot == |Text(rooted, stack[..ups])|
    ensures next == Push(rooted, stack, "..") && Canonical(rooted, next, more)
    ensures r == Text(rooted, Push(rooted, stack, "..")) && mark == |Text(rooted, next[..more])|
  {
    LongerThanUps(rooted, stack, ups);
    r, mark, next, more := out, dotdot, stack, ups;
    if |out| > dotdot {
      r := Backtrack(out, dotdot, rooted, stack, ups);
      next := stack[..|stack| - 1];
      assert next[..ups] == stack[..ups];
    } else if !rooted {
      TextSnoc(rooted, stack, "..");
      if out != "" {
        r := r + "/";
      }
      r := r + "..";
      next, more := stack + [".."], ups + 1;
      assert next[..more] == next;
      mark := |r|;
    }
  }

  method NameEnd(path: string, read: nat) returns (end: nat)
    requires read < |path| && path[read] != '/'
    ensures read < end <= |path| && (end < |path| ==> path[end] == '/') && forall i | read <= i < end :: path[i] != '/'
  {
    end := read;
    while end < |path| && path[end] != '/'
      invariant read <= end <= |path| && forall i | read <= i < end :: path[i] != '/'
    {
      end := end + 1;
    }
  }

  lemma NameIsPlain(path: string, read: nat, end: nat)
    requires read < end <= |path| && (end < |path| ==> path[end] == '/') && forall i | read <= i < end :: path[i] != '/'
    requires !(path[read] == '.' && (read + 1 == |path| || path[read + 1] == '/'))
    requires !(path[read] == '.' && read + 1 < |path| && path[read + 1] == '.' && (read + 2 == |path| || path[read + 2] == '/'))
    ensures Plain(path[read..end]) && path[read..end] != ".."
  {
    var e := path[read..end];
    assert forall i | 0 <= i < |e| :: e[i] == path[read + i];
    if |e| == 1 {
      assert e[0] == path[read];
    }
    if |e| == 2 {
      assert e[0] == path[read] && e[1] == path[read + 1];
    }
  }

  lemma ComponentsStart(path: string)
    requires |path| > 0
    ensures Components(path) == Fold(path[0] == '/', [], Elements(path))
  {
  }

  lemma Start(rooted: bool)
    ensures Canonical(rooted, [], 0) && Text(rooted, []) == (if rooted then "/" else "") && Text(rooted, [][..0]) == Text(rooted, [])
  {
  }

  lemma EmptyCleaned()
    ensures Cleaned("") == "."
  {
    assert Elements("") == [""];
  }

  lemma PushDot(rooted: bool, stack: seq<string>)
    ensures Push(rooted, stack, ".") == stack
  {
  }

  lemma PushName(rooted: bool, stack: seq<string>, ups: nat, e: string)
    requires Canonical(rooted, stack, ups) && Plain(e) && e != ".."
    ensures Push(rooted, stack, e) == stack + [e] && Canonical(rooted, stack + [e], ups)
    ensures (stack + [e])[..ups] == stack[..ups]
    ensures var out := Text(rooted, stack);
            var more := (rooted && |out| != 1) || (!rooted && out != "");
            Text(rooted, stack + [e]) == out + (if more then "/" else "") + e
  {
    TextSnoc(rooted, stack, e);
    hide Text;
  }

  lemma Finish(rooted: bool, stack: seq<string>)
    ensures Fold(rooted, stack, Elements("")) == stack
  {
    assert Elements("") == [""];
    assert [""][1..] == [];
  }

  // --- What cleaning means ----------------------------------------------------------------------------------------------

  lemma PushCanonical(rooted: bool, stack: seq<string>, ups: nat, e: string) returns (more: nat)
    requires Canonical(rooted, stack, ups) && '/' !in e
    ensures Canonical(rooted, Push(rooted, stack, e), more)
  {
    more := ups;
    if e == ".." && !(|stack| > 0 && stack[|stack| - 1] != "..") && !rooted {
      assert ups == |stack|;
      more := ups + 1;
    }
  }

  lemma {:induction false} FoldCanonical(rooted: bool, stack: seq<string>, ups: nat, elements: seq<string>) returns (more: nat)
    requires Canonical(rooted, stack, ups) && forall i | 0 <= i < |elements| :: '/' !in elements[i]
    ensures Canonical(rooted, Fold(rooted, stack, elements), more)
    decreases |elements|
  {
    hide Canonical, Push;
    more := ups;
    if |elements| > 0 {
      var next := PushCanonical(rooted, stack, ups, elements[0]);
      more := FoldCanonical(rooted, Push(rooted, stack, elements[0]), next, elements[1..]);
    }
  }

  lemma {:induction false} NoSeparators(s: string)
    ensures forall i | 0 <= i < |Elements(s)| :: '/' !in Elements(s)[i]
    decreases |s|
  {
    var k := ElementEnd(s);
    if k < |s| {
      NoSeparators(s[k + 1..]);
    }
  }

  lemma ComponentsCanonical(path: string) returns (ups: nat)
    ensures Canonical(Rooted(path), Components(path), ups)
  {
    NoSeparators(path);
    ups := FoldCanonical(Rooted(path), [], 0, Elements(path));
  }

  // Joining names and splitting again gives the names.
  lemma {:induction false} ElementsJoined(stack: seq<string>)
    requires |stack| > 0 && forall i | 0 <= i < |stack| :: '/' !in stack[i]
    ensures Elements(Joined(stack)) == stack
    decreases |stack|
  {
    hide Elements;
    if |stack| == 1 {
      OneElement(stack[0]);
    } else {
      var front, e := stack[..|stack| - 1], stack[|stack| - 1];
      ElementsJoined(front);
      ElementsSnoc(Joined(front), e);
      assert stack == front + [e];
    }
  }

  lemma OneElement(e: string)
    requires '/' !in e
    ensures Elements(e) == [e]
  {
    SameEnd(e, |e|);
  }

  lemma {:induction false} ElementsSnoc(s: string, e: string)
    requires '/' !in e
    ensures Elements(s + "/" + e) == Elements(s) + [e]
    decreases |s|
  {
    var k, all := ElementEnd(s), s + "/" + e;
    SameEnd(all, k);
    OneElement(e);
    if k == |s| {
      assert all[..k] == s && all[k + 1..] == e;
    } else {
      assert all[..k] == s[..k] && all[k + 1..] == s[k + 1..] + "/" + e;
      ElementsSnoc(s[k + 1..], e);
    }
  }

  // A clean stack folds to itself.
  lemma {:induction false} FoldClean(rooted: bool, stack: seq<string>, ups: nat, n: nat)
    requires Canonical(rooted, stack, ups) && n <= |stack|
    ensures Fold(rooted, stack[..n], stack[n..]) == stack
    decreases |stack| - n
  {
    if n == |stack| {
      assert stack[..n] == stack && stack[n..] == [];
    } else {
      assert stack[n..][0] == stack[n] && stack[n..][1..] == stack[n + 1..];
      assert Plain(stack[n]);
      assert Push(rooted, stack[..n], stack[n]) == stack[..n] + [stack[n]] == stack[..n + 1] by {
        if n > 0 && stack[n] == ".." {
          assert stack[..n][n - 1] == stack[n - 1] == "..";
        }
      }
      FoldClean(rooted, stack, ups, n + 1);
    }
  }

  lemma TextComponents(rooted: bool, stack: seq<string>, ups: nat)
    requires Canonical(rooted, stack, ups) && Text(rooted, stack) != ""
    ensures Rooted(Text(rooted, stack)) == rooted && Components(Text(rooted, stack)) == stack
  {
    var text := Text(rooted, stack);
    FoldClean(rooted, stack, ups, 0);
    assert stack[..0] == [] && stack[0..] == stack;
    if |stack| > 0 {
      JoinedStart(stack);
      ElementsJoined(stack);
    }
    hide Elements, Joined;
    if rooted {
      assert text[1..] == Joined(stack);
      SkipSeparator(true, [], text);
      if |stack| == 0 {
        Finish(true, []);
        assert Joined(stack) == "" by { JoinedNothing(stack); }
      }
    } else {
      assert text == Joined(stack);
      if |stack| == 0 {
        JoinedNothing(stack);
      }
    }
  }

  lemma JoinedNothing(stack: seq<string>)
    requires |stack| == 0
    ensures Joined(stack) == ""
  {
  }

  lemma {:induction false} JoinedStart(stack: seq<string>)
    requires |stack| > 0 && forall i | 0 <= i < |stack| :: Plain(stack[i])
    ensures Joined(stack) != "" && Joined(stack)[0] != '/'
    decreases |stack|
  {
    assert Plain(stack[0]) && stack[0][0] in stack[0];
    if |stack| > 1 {
      JoinedStart(stack[..|stack| - 1]);
    }
  }

  // Cleaning twice is cleaning once.
  lemma CleanedTwice(path: string)
    ensures Cleaned(Cleaned(path)) == Cleaned(path)
  {
    var rooted, stack := Rooted(path), Components(path);
    var ups := ComponentsCanonical(path);
    if Text(rooted, stack) == "" {
      DotCleaned();
    } else {
      TextComponents(rooted, stack, ups);
    }
  }

  lemma DotCleaned()
    ensures Cleaned(".") == "."
  {
    OneElement(".");
    assert ["."][1..] == [];
  }

  // Nothing to clean: no empty, `.` or `..` element.
  predicate NoDots(elements: seq<string>) {
    forall i | 0 <= i < |elements| :: elements[i] != "" && elements[i] != "." && elements[i] != ".."
  }

  lemma RootedText(path: string)
    requires Rooted(path)
    ensures Cleaned(path) == "/" + Joined(Components(path)) && Components(path) == Fold(true, [], Elements(path[1..]))
  {
    hide Elements, Joined;
    RootedParts(path);
  }

  lemma CleanHasNoDots(path: string)
    requires Rooted(path) && Cleaned(path) == path && path != "/"
    ensures NoDots(Elements(path[1..]))
  {
    hide Elements, Components, Joined, Cleaned;
    var stack := Components(path);
    var ups := ComponentsCanonical(path);
    RootedText(path);
    assert path[1..] == Joined(stack);
    if |stack| == 0 {
      JoinedNothing(stack);
    } else {
      ElementsJoined(stack);
    }
  }

  lemma NoDotsIsClean(path: string)
    requires Rooted(path) && NoDots(Elements(path[1..]))
    ensures Cleaned(path) == path
  {
    hide Elements, Components, Joined, Cleaned;
    RootedText(path);
    var elements := Elements(path[1..]);
    NoSeparators(path[1..]);
    FoldClean(true, elements, 0, 0);
    assert elements[..0] == [] && elements[0..] == elements;
    JoinedElements(path[1..]);
    assert "/" + path[1..] == path;
  }

  lemma RootIsClean()
    ensures Cleaned("/") == "/"
  {
    RootedText("/");
    Finish(true, []);
    assert "/"[1..] == "";
    JoinedNothing([]);
  }

  // A rooted path is its own cleaning exactly when it is the root or has no empty, `.` or `..`
  // element.
  lemma RootedIsClean(path: string)
    requires Rooted(path)
    ensures Cleaned(path) == path <==> path == "/" || NoDots(Elements(path[1..]))
  {
    assert |path| > 0;
    hide *;
    RootIsClean();
    if NoDots(Elements(path[1..])) {
      NoDotsIsClean(path);
    }
    if Cleaned(path) == path && path != "/" {
      CleanHasNoDots(path);
    }
  }

  // Splitting and joining gives the string back.
  lemma {:induction false} JoinedElements(s: string)
    ensures Joined(Elements(s)) == s
    decreases |s|
  {
    var k := ElementEnd(s);
    if k < |s| {
      var first, rest := s[..k], s[k + 1..];
      assert s == first + "/" + rest;
      assert '/' !in first;
      hide *;
      ElementsCons(first, rest);
      JoinedElements(rest);
      JoinedCons(first, Elements(rest));
    } else {
      OneElement(s);
      JoinedOne(s);
    }
  }

  lemma JoinedOne(e: string)
    ensures Joined([e]) == e
  {
  }

  lemma {:induction false} JoinedCons(e: string, rest: seq<string>)
    requires |rest| > 0
    ensures Joined([e] + rest) == e + "/" + Joined(rest)
    decreases |rest|
  {
    var all := [e] + rest;
    if |rest| == 1 {
      assert all[..1] == [e];
    } else {
      var front := rest[..|rest| - 1];
      JoinedCons(e, front);
      assert all[..|all| - 1] == [e] + front && all[|all| - 1] == rest[|rest| - 1];
    }
  }

  // --- What each element does ------------------------------------------------------------------------------------------

  lemma {:induction false} FoldSnoc(rooted: bool, stack: seq<string>, elements: seq<string>, e: string)
    ensures Fold(rooted, stack, elements + [e]) == Push(rooted, Fold(rooted, stack, elements), e)
    decreases |elements|
  {
    hide Push;
    var all := elements + [e];
    if |elements| == 0 {
      assert all[0] == e && all[1..] == [];
    } else {
      assert all[0] == elements[0] && all[1..] == elements[1..] + [e];
      FoldSnoc(rooted, Push(rooted, stack, elements[0]), elements[1..], e);
    }
  }

  lemma Snoc(path: string, e: string)
    requires path != "" && '/' !in e
    ensures Components(path + "/" + e) == Push(Rooted(path), Components(path), e)
    ensures Rooted(path + "/" + e) == Rooted(path) && path + "/" + e != ""
  {
    hide Push, Elements, Fold;
    ElementsSnoc(path, e);
    FoldSnoc(Rooted(path), [], Elements(path), e);
  }

  // A trailing separator or `.` changes nothing, and a name followed by `..` is as if neither were there.
  lemma UpUndoes(path: string, e: string)
    requires path != "" && e != "" && '/' !in e && e != "." && e != ".."
    ensures Cleaned(path + "/") == Cleaned(path) && Cleaned(path + "/.") == Cleaned(path)
    ensures Cleaned(path + "/" + e + "/..") == Cleaned(path)
  {
    hide Components, Text, Rooted;
    var stack := Components(path);
    Snoc(path, "");
    Snoc(path, ".");
    Snoc(path, e);
    Snoc(path + "/" + e, "..");
    assert (stack + [e])[..|stack|] == stack;
    assert path + "/" + "" == path + "/" && path + "/" + "." == path + "/." && path + "/" + e + "/" + ".." == path + "/" + e + "/..";
  }

  // Below a leading `..` everything goes on as it would without it.
  lemma {:induction false} FoldBelow(stack: seq<string>, elements: seq<string>)
    ensures Fold(false, [".."] + stack, elements) == [".."] + Fold(false, stack, elements)
    decreases |elements|
  {
    if |elements| > 0 {
      var next := Push(false, stack, elements[0]);
      assert Push(false, [".."] + stack, elements[0]) == [".."] + next by {
        var below := [".."] + stack;
        if |stack| > 0 {
          assert below[..|below| - 1] == [".."] + stack[..|stack| - 1];
        }
        assert below + [elements[0]] == [".."] + (stack + [elements[0]]);
      }
      hide Push;
      FoldBelow(next, elements[1..]);
    }
  }

  lemma ElementsCons(e: string, path: string)
    requires '/' !in e
    ensures Elements(e + "/" + path) == [e] + Elements(path)
  {
    var all := e + "/" + path;
    SameEnd(all, |e|);
    assert all[..|e|] == e && all[|e| + 1..] == path;
  }

  lemma FoldFirst(rooted: bool, stack: seq<string>, e: string, rest: seq<string>)
    ensures Fold(rooted, stack, [e] + rest) == Fold(rooted, Push(rooted, stack, e), rest)
  {
    assert ([e] + rest)[1..] == rest;
    hide Push;
  }

  // `..` in front of a relative path stays in front of it, and in front of a rooted one it goes.
  lemma LeadingUp(path: string)
    ensures !Rooted(path) ==> Cleaned("../" + path) == if Cleaned(path) == "." then ".." else "../" + Cleaned(path)
    ensures Rooted(path) ==> Cleaned("/.." + path) == Cleaned(path)
  {
    if Rooted(path) {
      UpAtRoot(path);
    } else {
      UpBefore(path);
    }
  }

  lemma UpBefore(path: string)
    requires !Rooted(path)
    ensures Cleaned("../" + path) == if Cleaned(path) == "." then ".." else "../" + Cleaned(path)
  {
    var ups := ComponentsCanonical(path);
    UpStays(path);
    CleanedRelative(path);
    var stack, below := Components(path), [".."] + Components(path);
    assert forall i | 0 <= i < |below| :: Plain(below[i]);
    CleanedRelative("../" + path);
    hide *;
    if |stack| == 0 {
      assert below == [".."];
      JoinedOne("..");
    } else {
      JoinedCons("..", stack);
      UpSlash(Joined(stack));
    }
  }

  lemma UpSlash(text: string)
    ensures ".." + "/" + text == "../" + text
  {
  }

  // A relative path is cleaned to its components, joined.
  lemma CleanedRelative(path: string)
    requires !Rooted(path) && forall i | 0 <= i < |Components(path)| :: Plain(Components(path)[i])
    ensures Cleaned(path) == if |Components(path)| == 0 then "." else Joined(Components(path))
    ensures |Components(path)| > 0 ==> Cleaned(path) != "."
  {
    var stack := Components(path);
    hide Components, Joined, Rooted;
    assert "" + Joined(stack) == Joined(stack);
    if |stack| == 0 {
      JoinedNothing(stack);
    } else {
      JoinedStart(stack);
      NotDot(stack);
    }
  }

  lemma UpStays(path: string)
    requires !Rooted(path)
    ensures Components("../" + path) == [".."] + Components(path) && !Rooted("../" + path)
  {
    assert ".." + "/" + path == "../" + path;
    hide Elements, Fold;
    ElementsCons("..", path);
    FoldFirst(false, [], "..", Elements(path));
    FoldBelow([], Elements(path));
    assert [".."] + [] == [".."];
    assert Push(false, [], "..") == [] + [".."] == [".."];
  }

  lemma NotDot(stack: seq<string>)
    requires |stack| > 0 && forall i | 0 <= i < |stack| :: Plain(stack[i])
    ensures Joined(stack) != "."
  {
    if |stack| > 1 {
      JoinedStart(stack[..|stack| - 1]);
      assert |stack[|stack| - 1]| > 0;
    }
  }

  lemma UpAtRoot(path: string)
    requires Rooted(path)
    ensures Cleaned("/.." + path) == Cleaned(path)
  {
    UpAtRootGoes(path, path[1..]);
    hide Components, Text;
  }

  lemma UpAtRootGoes(path: string, rest: string)
    requires Rooted(path) && rest == path[1..]
    ensures Components("/.." + path) == Components(path) && Rooted("/.." + path)
  {
    RootedParts(path);
    RootedParts("/.." + path);
    assert ("/.." + path)[1..] == ".." + "/" + rest;
    hide *;
    ElementsCons("..", rest);
    FoldFirst(true, [], "..", Elements(rest));
    UpOnNothing();
  }

  lemma UpOnNothing()
    ensures Push(true, [], "..") == []
  {
  }

  lemma RootedParts(path: string)
    requires Rooted(path)
    ensures Components(path) == Fold(true, [], Elements(path[1..]))
  {
    hide Elements, Fold;
    SkipSeparator(true, [], path);
  }

  // --- Joining -----------------------------------------------------------------------------------------------------------------

  function NonEmpty(elements: seq<string>): seq<string> {
    if |elements| == 0 then []
    else if elements[0] == "" then NonEmpty(elements[1..])
    else [elements[0]] + NonEmpty(elements[1..])
  }

  // The non-empty elements joined and cleaned; empty when there is none.
  function JoinedClean(elements: seq<string>): string {
    if |NonEmpty(elements)| == 0 then "" else Cleaned(Joined(NonEmpty(elements)))
  }

  method Join(elements: seq<string>) returns (r: string)
    ensures r == JoinedClean(elements)
    ensures r != "" ==> Cleaned(r) == r
  {
    hide Cleaned;
    var joined: seq<string> := [];
    assert elements[0..] == elements;
    for i := 0 to |elements|
      invariant NonEmpty(elements) == joined + NonEmpty(elements[i..])
    {
      assert elements[i..][1..] == elements[i + 1..];
      if elements[i] != "" {
        ghost var later := NonEmpty(elements[i + 1..]);
        assert joined + ([elements[i]] + later) == (joined + [elements[i]]) + later;
        joined := joined + [elements[i]];
      }
    }
    assert elements[|elements|..] == [] && joined + [] == joined;
    if |joined| == 0 {
      return "";
    }
    r := Clean(Joined(joined));
    CleanedTwice(Joined(joined));
  }
}
