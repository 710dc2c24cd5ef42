/**
 * The contents-text-to-outline algorithm of pdf_outline.py.
 *
 * A contents file lists titles and page numbers one per line, each title
 * followed by its page. Every stripped line is classified (not a title, a
 * flat item, or a top, sub or sub-sub level item according to three optional
 * regular expressions), and each emitted title becomes an outline node whose
 * parent is the most recent node of the level above.
 *
 * The PDF writer is reduced to an append-only sequence of nodes: the handle
 * `add_outline_item` returns is the new node's index in that sequence. The
 * regular-expression engine is a parameter (`Engine`), and so is everything
 * the run learns from the file system (`Env`).
 */
module PdfOutline {
  import opened Wrappers
  import opened Text

  /** The exceptions the build can raise; each aborts the run before the
      destination is written. */
  datatype Failure =
    | MissingPageLine     // IndexError: a title is the last line
    | InvalidPageNumber   // ValueError: int() of the line after a title
    | NonePattern         // TypeError: re.compile(None)
    | BadPattern          // re.error: the pattern does not compile
    | ContentsUnreadable  // OSError: the contents file cannot be read

  /** The regular-expression engine: whether a pattern compiles, and
      `re.compile(p).fullmatch(s)` for one that does. */
  datatype Engine = Engine(compiles: string -> bool, fullmatch: (string, string) -> bool)

  /** The `toplevel`, `sublevel` and `subsublevel` entries of the settings. */
  datatype Patterns = Patterns(toplevel: Option<string>, sublevel: Option<string>, subsublevel: Option<string>)

  /** An outline item as handed to the writer; `parent` is the index of an
      earlier item, or None for the outline root. */
  datatype Node = Node(title: string, page: int, parent: Option<nat>)

  /** Python truthiness of an optional pattern: neither None nor "". */
  predicate Truthy(p: Option<string>) {
    p.Some? && p.value != ""
  }

  // ---------------------------------------------------------------------
  // Line classification
  // ---------------------------------------------------------------------

  /** `isName`: a line can be a title unless it is empty, all whitespace or
      all digits. */
  function IsName(line: string): (r: bool)
    ensures r <==> ((exists i :: 0 <= i < |line| && !IsSpaceChar(line[i]))
                    && (exists j :: 0 <= j < |line| && !IsDigitChar(line[j])))
  {
    !(IsNumeric(line) || IsSpace(line) || line == "")
  }

  /** `matchPattern`: a full-string match, consulted only for title lines. */
  function MatchPattern(line: string, pattern: Option<string>, re: Engine): (r: Result<bool, Failure>)
    ensures !IsName(line) ==> r == Success(false)
    ensures r == Failure(NonePattern) <==> IsName(line) && pattern.None?
    ensures r == Failure(BadPattern) <==> IsName(line) && pattern.Some? && !re.compiles(pattern.value)
    ensures r == Success(true) <==>
              IsName(line) && pattern.Some? && re.compiles(pattern.value) && re.fullmatch(pattern.value, line)
    ensures IsName(line) && pattern.Some? && re.compiles(pattern.value) ==>
              r == Success(re.fullmatch(pattern.value, line))
  {
    if !IsName(line) then Success(false)
    else if pattern.None? then Failure(NonePattern)
    else if !re.compiles(pattern.value) then Failure(BadPattern)
    else Success(re.fullmatch(pattern.value, line))
  }

  /** The test at the head of the loop body: no top-level pattern but a
      sub-level one makes every title a parentless item. */
  predicate FlatMode(pats: Patterns) {
    !Truthy(pats.toplevel) && Truthy(pats.sublevel)
  }

  /** What the loop body does with one line. */
  datatype Kind =
    | NotTitle   // isName is false: nothing happens
    | FlatItem   // flat mode: parentless item
    | Top        // matched toplevel: parentless, becomes `parent`
    | Sub        // matched sublevel: child of `parent`, becomes `child`
    | SubSub     // matched subsublevel: child of `child`
    | Fallback   // matched neither, no subsublevel: parentless item
    | Dropped    // matched none of three patterns: nothing happens

  predicate Emits(k: Kind) {
    !k.NotTitle? && !k.Dropped?
  }

  /** The if/elif chain of the loop body, as a classification. The patterns
      are tried in order, and a failure to compile one is raised. */
  function Classify(line: string, pats: Patterns, re: Engine): (r: Result<Kind, Failure>)
    ensures r == Success(NotTitle) <==> !IsName(line)
    ensures r == Success(FlatItem) <==> IsName(line) && FlatMode(pats)
    ensures r.Failure? <==>
              IsName(line) && !FlatMode(pats)
              && (MatchPattern(line, pats.toplevel, re).Failure?
                  || (MatchPattern(line, pats.toplevel, re) == Success(false)
                      && (MatchPattern(line, pats.sublevel, re).Failure?
                          || (MatchPattern(line, pats.sublevel, re) == Success(false) && Truthy(pats.subsublevel)
                              && MatchPattern(line, pats.subsublevel, re).Failure?))))
    ensures r.Failure? ==> r.error == NonePattern || r.error == BadPattern
    ensures IsName(line) && !FlatMode(pats) && MatchPattern(line, pats.toplevel, re).Failure? ==>
              r == Failure(MatchPattern(line, pats.toplevel, re).error)
    ensures IsName(line) && !FlatMode(pats) && MatchPattern(line, pats.toplevel, re) == Success(false)
            && MatchPattern(line, pats.sublevel, re).Failure? ==>
              r == Failure(MatchPattern(line, pats.sublevel, re).error)
    ensures IsName(line) && !FlatMode(pats) && MatchPattern(line, pats.toplevel, re) == Success(false)
            && MatchPattern(line, pats.sublevel, re) == Success(false) && Truthy(pats.subsublevel)
            && MatchPattern(line, pats.subsublevel, re).Failure? ==>
              r == Failure(MatchPattern(line, pats.subsublevel, re).error)
    ensures r == Success(Top) <==>
              IsName(line) && !FlatMode(pats) && MatchPattern(line, pats.toplevel, re) == Success(true)
    ensures r == Success(Sub) <==>
              IsName(line) && !FlatMode(pats) && MatchPattern(line, pats.toplevel, re) == Success(false)
              && MatchPattern(line, pats.sublevel, re) == Success(true)
    ensures r == Success(SubSub) <==>
              IsName(line) && !FlatMode(pats) && MatchPattern(line, pats.toplevel, re) == Success(false)
              && MatchPattern(line, pats.sublevel, re) == Success(false)
              && Truthy(pats.subsublevel) && MatchPattern(line, pats.subsublevel, re) == Success(true)
    ensures r == Success(Dropped) <==>
              IsName(line) && !FlatMode(pats) && MatchPattern(line, pats.toplevel, re) == Success(false)
              && MatchPattern(line, pats.sublevel, re) == Success(false)
              && Truthy(pats.subsublevel) && MatchPattern(line, pats.subsublevel, re) == Success(false)
    ensures r == Success(Fallback) <==>
              IsName(line) && !FlatMode(pats) && MatchPattern(line, pats.toplevel, re) == Success(false)
              && MatchPattern(line, pats.sublevel, re) == Success(false) && !Truthy(pats.subsublevel)
  {
    if !IsName(line) then Success(NotTitle)
    else if FlatMode(pats) then Success(FlatItem)
    else
      var top :- MatchPattern(line, pats.toplevel, re);
      if top then Success(Top)
      else
        var sub :- MatchPattern(line, pats.sublevel, re);
        if sub then Success(Sub)
        else if !Truthy(pats.subsublevel) then Success(Fallback)
        else
          var subsub :- MatchPattern(line, pats.subsublevel, re);
          Success(if subsub then SubSub else Dropped)
  }

  // ---------------------------------------------------------------------
  // The outline a run produces, stated line by line
  // ---------------------------------------------------------------------

  /** `int(lines[i+1])`: the page of the title at index i. */
  function PageNumber(lines: seq<string>, i: nat): (r: Result<int, Failure>)
    requires i < |lines|
    ensures r == Failure(MissingPageLine) <==> i == |lines| - 1
    ensures r.Success? <==> i + 1 < |lines| && ParseInt(lines[i + 1]).Some?
    ensures r.Success? ==> ParseInt(lines[i + 1]) == Some(r.value)
    ensures r == Failure(InvalidPageNumber) <==> i + 1 < |lines| && ParseInt(lines[i + 1]).None?
  {
    if i + 1 >= |lines| then Failure(MissingPageLine)
    else match ParseInt(lines[i + 1])
      case None => Failure(InvalidPageNumber)
      case Some(n) => Success(n)
  }

  /** A line that becomes an outline node, with its classification. */
  datatype Entry = Entry(line: nat, title: string, kind: Kind, page: int)

  /** What line j contributes to the run: an exception, nothing, or one node.
      The patterns are consulted before the next line is read as a page. */
  function Examine(lines: seq<string>, pats: Patterns, re: Engine, j: nat): Result<Option<Entry>, Failure>
    requires j < |lines|
  {
    var kind :- Classify(lines[j], pats, re);
    if !Emits(kind) then Success(None)
    else
      var page :- PageNumber(lines, j);
      Success(Some(Entry(j, lines[j], kind, page)))
  }

  /** A line that is not a title contributes nothing; a title contributes
      nothing exactly when it is dropped; a node records its own line, title,
      kind and the page read from the next line; a missing page line can only
      be past the last title. */
  lemma ExamineSpec(lines: seq<string>, pats: Patterns, re: Engine, j: nat)
    requires j < |lines|
    ensures !IsName(lines[j]) ==> Examine(lines, pats, re, j) == Success(None)
    ensures Examine(lines, pats, re, j) == Success(None) <==>
              Classify(lines[j], pats, re) in {Success(NotTitle), Success(Dropped)}
    ensures Examine(lines, pats, re, j).Success? && Examine(lines, pats, re, j).value.Some? ==>
              var e := Examine(lines, pats, re, j).value.value;
              e.line == j && e.title == lines[j] && IsName(lines[j]) && Emits(e.kind)
              && Classify(lines[j], pats, re) == Success(e.kind)
              && j + 1 < |lines| && ParseInt(lines[j + 1]) == Some(e.page)
    ensures Examine(lines, pats, re, j) == Failure(MissingPageLine) ==> j == |lines| - 1
  {
  }

  /** The first exception among lines 0 .. n-1, if any. */
  function FirstError(lines: seq<string>, pats: Patterns, re: Engine, n: nat): Option<Failure>
    requires n <= |lines|
  {
    if n == 0 then None
    else match FirstError(lines, pats, re, n - 1)
      case Some(e) => Some(e)
      case None =>
        match Examine(lines, pats, re, n - 1)
        case Failure(e) => Some(e)
        case Success(_) => None
  }

  /** FirstError finds nothing exactly when no line before n raises, and
      otherwise reports the exception of the first line that does. */
  lemma {:induction false} FirstErrorSpec(lines: seq<string>, pats: Patterns, re: Engine, n: nat)
    requires n <= |lines|
    ensures FirstError(lines, pats, re, n).None? <==> forall j :: 0 <= j < n ==> Examine(lines, pats, re, j).Success?
    ensures FirstError(lines, pats, re, n).Some? ==>
              exists j :: 0 <= j < n && Examine(lines, pats, re, j) == Failure(FirstError(lines, pats, re, n).value)
                          && forall j' :: 0 <= j' < j ==> Examine(lines, pats, re, j').Success?
  {
    if n > 0 {
      FirstErrorSpec(lines, pats, re, n - 1);
    }
  }

  /** The nodes lines 0 .. n-1 contribute, in line order. */
  function Entries(lines: seq<string>, pats: Patterns, re: Engine, n: nat): seq<Entry>
    requires n <= |lines|
  {
    if n == 0 then []
    else
      var es := Entries(lines, pats, re, n - 1);
      match Examine(lines, pats, re, n - 1)
      case Success(Some(e)) => es + [e]
      case _ => es
  }

  /** Every entry is the node its own line contributes, and the entries are
      in strictly increasing line order. */
  lemma {:induction false} EntriesSpec(lines: seq<string>, pats: Patterns, re: Engine, n: nat)
    requires n <= |lines|
    ensures forall k :: 0 <= k < |Entries(lines, pats, re, n)| ==>
              Entries(lines, pats, re, n)[k].line < n
              && Examine(lines, pats, re, Entries(lines, pats, re, n)[k].line) == Success(Some(Entries(lines, pats, re, n)[k]))
    ensures forall k, k' :: 0 <= k < k' < |Entries(lines, pats, re, n)| ==>
              Entries(lines, pats, re, n)[k].line < Entries(lines, pats, re, n)[k'].line
  {
    if n > 0 {
      EntriesSpec(lines, pats, re, n - 1);
      var es := Entries(lines, pats, re, n - 1);
      var ex := Examine(lines, pats, re, n - 1);
      if ex.Success? && ex.value.Some? {
        var e := ex.value.value;
        assert Entries(lines, pats, re, n) == es + [e];
        assert e.line == n - 1;
        assert forall k :: 0 <= k < |es| ==> (es + [e])[k] == es[k];
      } else {
        assert Entries(lines, pats, re, n) == es;
      }
    }
  }

  /** Every node a line before n contributes is among the entries. */
  lemma {:induction false} EntriesComplete(lines: seq<string>, pats: Patterns, re: Engine, n: nat, j: nat)
    requires j < n <= |lines|
    requires Examine(lines, pats, re, j).Success? && Examine(lines, pats, re, j).value.Some?
    ensures Examine(lines, pats, re, j).value.value in Entries(lines, pats, re, n)
  {
    var x := Examine(lines, pats, re, j).value.value;
    if j < n - 1 {
      EntriesComplete(lines, pats, re, n - 1, j);
      EntriesGrow(lines, pats, re, n);
    } else {
      assert Entries(lines, pats, re, n) == Entries(lines, pats, re, j) + [x];
    }
  }

  lemma EntriesGrow(lines: seq<string>, pats: Patterns, re: Engine, n: nat)
    requires 0 < n <= |lines|
    ensures Entries(lines, pats, re, n - 1) <= Entries(lines, pats, re, n)
  {
  }

  /** The index of the last entry of kind t: the running handle for level t. */
  function LastOf(es: seq<Entry>, t: Kind): (r: Option<nat>)
    ensures r.None? <==> forall k :: 0 <= k < |es| ==> es[k].kind != t
    ensures r.Some? ==> r.value < |es| && es[r.value].kind == t
                        && forall k :: r.value < k < |es| ==> es[k].kind != t
  {
    if es == [] then None
    else if es[|es| - 1].kind == t then Some(|es| - 1)
    else LastOf(es[..|es| - 1], t)
  }

  /** The handle a node of entry k is given as its parent: the most recent
      top-level node for a sub-level one, the most recent sub-level node for a
      sub-sub-level one, and the root otherwise. */
  function ParentOf(es: seq<Entry>, k: nat): (p: Option<nat>)
    requires k < |es|
    ensures p.Some? ==> p.value < k
  {
    match es[k].kind
    case Sub => LastOf(es[..k], Top)
    case SubSub => LastOf(es[..k], Sub)
    case _ => None
  }

  /** The writer's outline once the given entries have been added. */
  function Link(es: seq<Entry>): (nodes: seq<Node>) {
    seq(|es|, k requires 0 <= k < |es| => Node(es[k].title, es[k].page, ParentOf(es, k)))
  }

  /** The outline a run over the stripped lines builds, or the exception that
      aborts it. */
  function Outline(lines: seq<string>, pats: Patterns, re: Engine): Result<seq<Node>, Failure> {
    match FirstError(lines, pats, re, |lines|)
    case Some(e) => Failure(e)
    case None => Success(Link(Entries(lines, pats, re, |lines|)))
  }

  lemma {:induction false} FirstErrorPersists(lines: seq<string>, pats: Patterns, re: Engine, n: nat, m: nat)
    requires n <= m <= |lines|
    ensures FirstError(lines, pats, re, n).Some? ==>
              FirstError(lines, pats, re, m) == FirstError(lines, pats, re, n)
    decreases m - n
  {
    if n < m {
      FirstErrorPersists(lines, pats, re, n, m - 1);
    }
  }

  /** The entries of a list of per-line contributions. */
  function Collect(steps: seq<Option<Entry>>): seq<Entry> {
    if steps == [] then []
    else Collect(steps[..|steps| - 1]) + (match steps[|steps| - 1] case Some(e) => [e] case None => [])
  }

  lemma CollectAppend(steps: seq<Option<Entry>>, x: Option<Entry>)
    ensures Collect(steps + [x]) == Collect(steps) + (match x case Some(e) => [e] case None => [])
  {
    assert (steps + [x])[..|steps|] == steps;
  }

  /** When no line raises, the outline is read off the lines' contributions. */
  lemma {:induction false} OutlineFromSteps(lines: seq<string>, pats: Patterns, re: Engine, steps: seq<Option<Entry>>)
    requires |steps| == |lines|
    requires forall j :: 0 <= j < |lines| ==> Examine(lines, pats, re, j) == Success(steps[j])
    ensures Outline(lines, pats, re) == Success(Link(Collect(steps)))
  {
    FirstErrorSpec(lines, pats, re, |lines|);
    EntriesFromSteps(lines, pats, re, steps, |lines|);
    assert steps[..|lines|] == steps;
  }

  lemma {:induction false} EntriesFromSteps(lines: seq<string>, pats: Patterns, re: Engine, steps: seq<Option<Entry>>, n: nat)
    requires |steps| == |lines| && n <= |lines|
    requires forall j :: 0 <= j < |lines| ==> Examine(lines, pats, re, j) == Success(steps[j])
    ensures Entries(lines, pats, re, n) == Collect(steps[..n])
  {
    if n > 0 {
      EntriesFromSteps(lines, pats, re, steps, n - 1);
      assert steps[..n][..n - 1] == steps[..n - 1];
    }
  }

  /** How the run's state moves over line i, given no exception before it. */
  lemma ExamineStep(lines: seq<string>, pats: Patterns, re: Engine, i: nat)
    requires i < |lines| && FirstError(lines, pats, re, i) == None
    ensures Examine(lines, pats, re, i).Failure? ==>
              Outline(lines, pats, re) == Failure(Examine(lines, pats, re, i).error)
    ensures Examine(lines, pats, re, i).Success? ==> FirstError(lines, pats, re, i + 1) == None
    ensures Examine(lines, pats, re, i) == Success(None) ==>
              Entries(lines, pats, re, i + 1) == Entries(lines, pats, re, i)
    ensures Examine(lines, pats, re, i).Success? && Examine(lines, pats, re, i).value.Some? ==>
              Entries(lines, pats, re, i + 1) == Entries(lines, pats, re, i) + [Examine(lines, pats, re, i).value.value]
  {
    if Examine(lines, pats, re, i).Failure? {
      ExamineFails(lines, pats, re, i);
    }
  }

  /** An exception on line i, with none before it, is the run's exception. */
  lemma ExamineFails(lines: seq<string>, pats: Patterns, re: Engine, i: nat)
    requires i < |lines| && FirstError(lines, pats, re, i) == None && Examine(lines, pats, re, i).Failure?
    ensures Outline(lines, pats, re) == Failure(Examine(lines, pats, re, i).error)
  {
    FirstErrorAt(lines, pats, re, i);
    FirstErrorPersists(lines, pats, re, i + 1, |lines|);
    OutlineOfError(lines, pats, re);
  }

  lemma FirstErrorAt(lines: seq<string>, pats: Patterns, re: Engine, i: nat)
    requires i < |lines| && FirstError(lines, pats, re, i) == None && Examine(lines, pats, re, i).Failure?
    ensures FirstError(lines, pats, re, i + 1) == Some(Examine(lines, pats, re, i).error)
  {
  }

  lemma OutlineOfError(lines: seq<string>, pats: Patterns, re: Engine)
    requires FirstError(lines, pats, re, |lines|).Some?
    ensures Outline(lines, pats, re) == Failure(FirstError(lines, pats, re, |lines|).value)
  {
  }

  /** Adding one entry appends one node and moves at most one handle. */
  lemma LinkAppend(es: seq<Entry>, e: Entry)
    ensures Link(es + [e]) == Link(es) + [Node(e.title, e.page, ParentOf(es + [e], |es|))]
    ensures ParentOf(es + [e], |es|) ==
              match e.kind
              case Sub => LastOf(es, Top)
              case SubSub => LastOf(es, Sub)
              case _ => None
    ensures forall t :: LastOf(es + [e], t) == if e.kind == t then Some(|es|) else LastOf(es, t)
  {
    var es' := es + [e];
    assert es'[..|es|] == es;
    forall k | 0 <= k < |es|
      ensures Link(es')[k] == Link(es)[k]
    {
      ParentOfPrefix(es, e, k);
    }
  }

  /** Appending an entry does not change the parents of earlier ones. */
  lemma ParentOfPrefix(es: seq<Entry>, e: Entry, k: nat)
    requires k < |es|
    ensures ParentOf(es + [e], k) == ParentOf(es, k)
  {
    assert (es + [e])[..k] == es[..k];
  }

  // ---------------------------------------------------------------------
  // The loop of writeTableOfContents
  // ---------------------------------------------------------------------

  /** The `for i in range(len(lines))` loop: walks every index, keeps the
      handles `parent` and `child`, and appends one item per emitted title. */
  method BuildOutline(lines: seq<string>, pats: Patterns, re: Engine) returns (r: Result<seq<Node>, Failure>)
    ensures r == Outline(lines, pats, re)
  {
    var items: seq<Node> := [];
    var parent: Option<nat> := None;
    var child: Option<nat> := None;
    for i := 0 to |lines|
      invariant FirstError(lines, pats, re, i) == None
      invariant items == Link(Entries(lines, pats, re, i))
      invariant parent == LastOf(Entries(lines, pats, re, i), Top)
      invariant child == LastOf(Entries(lines, pats, re, i), Sub)
    {
      ExamineStep(lines, pats, re, i);
      ghost var step := Examine(lines, pats, re, i);
      if step.Success? && step.value.Some? {
        LinkAppend(Entries(lines, pats, re, i), step.value.value);
      }
      if IsName(lines[i]) {
        if !Truthy(pats.toplevel) && Truthy(pats.sublevel) {
          var page :- PageNumber(lines, i);
          items := items + [Node(lines[i], page, None)];
        } else {
          var top :- MatchPattern(lines[i], pats.toplevel, re);
          if top {
            var page :- PageNumber(lines, i);
            parent := Some(|items|);
            items := items + [Node(lines[i], page, None)];
          } else {
            var sub :- MatchPattern(lines[i], pats.sublevel, re);
            if sub {
              var page :- PageNumber(lines, i);
              child := Some(|items|);
              items := items + [Node(lines[i], page, parent)];
            } else if Truthy(pats.subsublevel) {
              var subsub :- MatchPattern(lines[i], pats.subsublevel, re);
              if subsub {
                var page :- PageNumber(lines, i);
                items := items + [Node(lines[i], page, child)];
              }
            } else {
              var page :- PageNumber(lines, i);
              items := items + [Node(lines[i], page, None)];
            }
          }
        }
      }
    }
    r := Success(items);
  }

  // ---------------------------------------------------------------------
  // writeTableOfContents and generateOutline
  // ---------------------------------------------------------------------

  /** The settings dictionary `d`: the three paths and the three patterns. */
  datatype Request = Request(src: Option<string>, dst: Option<string>, contents: Option<string>, patterns: Patterns)

  /** What the run learns from outside: whether PdfReader opens the source,
      whether the header it reads names "pdf", and the lines of the contents
      file, or None when it cannot be read. */
  datatype Env = Env(sourceOpens: bool, headerNamesPdf: bool, contentsFile: Option<seq<string>>)

  /** The effect of one run on the destination file. */
  datatype Outcome =
    | Untouched                  // the destination is never opened
    | Aborted(error: Failure)    // opened for writing (so emptied), exception caught, nothing written
    | Written(outline: seq<Node>) // writer.write ran once, after the whole loop

  /** `[line.strip() for line in c]`. */
  function StrippedLines(raw: seq<string>): seq<string> {
    seq(|raw|, i requires 0 <= i < |raw| => Strip(raw[i]))
  }

  /** The effect of writeTableOfContents on the destination. The reader is
      kept once PdfReader has opened the source: the exception the header
      check raises is caught after the assignment, so the header does not
      decide anything. */
  function TableOfContents(d: Request, env: Env, re: Engine): Outcome {
    if d.src.None? || !env.sourceOpens || d.dst.None? || d.contents.None? then Untouched
    else if env.contentsFile.None? then Aborted(ContentsUnreadable)
    else match Outline(StrippedLines(env.contentsFile.value), d.patterns, re)
      case Failure(e) => Aborted(e)
      case Success(nodes) => Written(nodes)
  }

  /** writeTableOfContents: open the reader, open the destination, read and
      strip the contents lines, run the loop, and write once it completes.
      Every exception after the destination is opened is caught. */
  method WriteTableOfContents(d: Request, env: Env, re: Engine) returns (outcome: Outcome)
    ensures outcome == TableOfContents(d, env, re)
  {
    var readerOpened := false;
    if d.src.Some? {
      // `reader = PdfReader(src)` either raises, leaving reader None, or
      // succeeds; the header check that follows can only raise, and its
      // exception is caught with `reader` already assigned.
      readerOpened := env.sourceOpens;
    }
    if !readerOpened || d.dst.None? || d.contents.None? {
      return Untouched;
    }
    if env.contentsFile.None? {
      return Aborted(ContentsUnreadable);
    }
    var lines := StrippedLines(env.contentsFile.value);
    var built := BuildOutline(lines, d.patterns, re);
    match built
    case Failure(e) => outcome := Aborted(e);
    case Success(nodes) => outcome := Written(nodes);
  }

  /** How generateOutline stores an optional pattern: a falsy one becomes None. */
  function Normalise(p: Option<string>): (r: Option<string>)
    ensures Truthy(r) == Truthy(p)
    ensures r.None? || r.value != ""
    ensures Truthy(p) ==> r == p
  {
    if Truthy(p) then p else None
  }

  /** generateOutline: refuses an empty path, then fills the settings
      dictionary step by step and runs writeTableOfContents. */
  method GenerateOutline(src: string, dst: string, contents: string,
                         toplevel: Option<string>, sublevel: Option<string>, subsublevel: Option<string>,
                         env: Env, re: Engine)
    returns (ok: bool, outcome: Outcome)
    ensures ok <==> src != "" && dst != "" && contents != ""
    ensures !ok ==> outcome == Untouched
    ensures ok ==> outcome == TableOfContents(
                     Request(Some(src), Some(dst), Some(contents),
                             Patterns(Normalise(toplevel), Normalise(sublevel), Normalise(subsublevel))),
                     env, re)
  {
    var d := Request(Some(""), Some(""), Some(""), Patterns(None, None, None));
    if src == "" || dst == "" || contents == "" {
      return false, Untouched;
    }
    d := d.(src := Some(src), dst := Some(dst), contents := Some(contents));
    if Truthy(toplevel) {
      d := d.(patterns := d.patterns.(toplevel := toplevel));
    }
    if Truthy(sublevel) {
      d := d.(patterns := d.patterns.(sublevel := sublevel));
    }
    if Truthy(subsublevel) {
      d := d.(patterns := d.patterns.(subsublevel := subsublevel));
    }
    outcome := WriteTableOfContents(d, env, re);
    ok := true;
  }
}
