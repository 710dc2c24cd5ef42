/**
 * What a run of the outline builder promises, stated over the reference
 * definition `Outline` that BuildOutline is proved to compute.
 */
module OutlineProperties {
  import opened Wrappers
  import opened Text
  import opened PdfOutline

  /** Handle p is the most recent entry of kind t strictly before entry k,
      or None when there is no such entry. */
  ghost predicate MostRecent(es: seq<Entry>, k: nat, t: Kind, p: Option<nat>)
    requires k <= |es|
  {
    match p
    case None => forall q :: 0 <= q < k ==> es[q].kind != t
    case Some(q) => q < k && es[q].kind == t && forall q' :: q < q' < k ==> es[q'].kind != t
  }

  // ---------------------------------------------------------------------
  // Line tests
  // ---------------------------------------------------------------------

  /** Once stripped, a line is a title exactly when it is non-empty and not
      all digits: a stripped line cannot be all whitespace. */
  lemma StrippedTitle(raw: string)
    ensures IsName(Strip(raw)) <==> Strip(raw) != "" && !IsNumeric(Strip(raw))
  {
    var s := Strip(raw);
    if s != "" {
      assert !IsSpaceChar(s[0]);
    }
  }

  /** A page number written in decimal is never taken for a title. */
  lemma DecimalPageIsNotTitle(n: nat)
    ensures !IsName(ShowNat(n)) && ParseInt(ShowNat(n)) == Some(n)
  {
  }

  /** matchPattern never consults the pattern, not even a missing one, for a
      line that cannot be a title, and such a line is skipped whatever the
      three patterns are. */
  lemma NonTitleNeverMatches(line: string, pattern: Option<string>, pats: Patterns, re: Engine)
    requires !IsName(line)
    ensures MatchPattern(line, pattern, re) == Success(false)
    ensures Classify(line, pats, re) == Success(NotTitle)
  {
  }

  // ---------------------------------------------------------------------
  // Failure
  // ---------------------------------------------------------------------

  /** The run fails exactly when some line raises, and then with the
      exception of the first such line. */
  lemma OutlineFailsAtFirstError(lines: seq<string>, pats: Patterns, re: Engine)
    ensures Outline(lines, pats, re).Failure? <==>
              exists j :: 0 <= j < |lines| && Examine(lines, pats, re, j).Failure?
    ensures Outline(lines, pats, re).Failure? ==>
              exists j :: 0 <= j < |lines| && Examine(lines, pats, re, j) == Failure(Outline(lines, pats, re).error)
                          && forall j' :: 0 <= j' < j ==> Examine(lines, pats, re, j').Success?
  {
    FirstErrorSpec(lines, pats, re, |lines|);
  }

  /** A line that raises after lines that do not aborts the whole run. */
  lemma FirstFailureAborts(lines: seq<string>, pats: Patterns, re: Engine, j: nat)
    requires j < |lines| && Examine(lines, pats, re, j).Failure?
    requires forall j' :: 0 <= j' < j ==> Examine(lines, pats, re, j').Success?
    ensures Outline(lines, pats, re) == Failure(Examine(lines, pats, re, j).error)
  {
    FirstErrorPersists(lines, pats, re, j + 1, |lines|);
    FailingLineIsFirstError(lines, pats, re, j);
  }

  /** A raising line after lines that do not is the first error. */
  lemma FailingLineIsFirstError(lines: seq<string>, pats: Patterns, re: Engine, j: nat)
    requires j < |lines| && Examine(lines, pats, re, j).Failure?
    requires forall j' :: 0 <= j' < j ==> Examine(lines, pats, re, j').Success?
    ensures FirstError(lines, pats, re, j + 1) == Some(Examine(lines, pats, re, j).error)
  {
    FirstErrorSpec(lines, pats, re, j);
  }

  /** An emitted title on the last line has no page line: IndexError. */
  lemma TitleOnLastLine(lines: seq<string>, pats: Patterns, re: Engine)
    requires |lines| > 0
    requires forall j :: 0 <= j < |lines| - 1 ==> Examine(lines, pats, re, j).Success?
    requires Classify(lines[|lines| - 1], pats, re).Success? && Emits(Classify(lines[|lines| - 1], pats, re).value)
    ensures Outline(lines, pats, re) == Failure(MissingPageLine)
  {
    FirstFailureAborts(lines, pats, re, |lines| - 1);
  }

  /** An emitted title followed by a line int() rejects: ValueError. */
  lemma NonIntegerPage(lines: seq<string>, pats: Patterns, re: Engine, j: nat)
    requires j + 1 < |lines| && ParseInt(lines[j + 1]).None?
    requires forall j' :: 0 <= j' < j ==> Examine(lines, pats, re, j').Success?
    requires Classify(lines[j], pats, re).Success? && Emits(Classify(lines[j], pats, re).value)
    ensures Outline(lines, pats, re) == Failure(InvalidPageNumber)
  {
    FirstFailureAborts(lines, pats, re, j);
  }

  /** With neither a top-level nor a sub-level pattern the first title calls
      matchPattern with None (TypeError); only a contents without titles
      builds, and then builds nothing. */
  lemma NoLevelPatterns(lines: seq<string>, pats: Patterns, re: Engine)
    requires pats.toplevel.None? && !Truthy(pats.sublevel)
    ensures Outline(lines, pats, re) ==
              if exists j :: 0 <= j < |lines| && IsName(lines[j]) then Failure(NonePattern) else Success([])
  {
    forall j | 0 <= j < |lines|
      ensures Examine(lines, pats, re, j) == if IsName(lines[j]) then Failure(NonePattern) else Success(None)
    {
    }
    OutlineFailsAtFirstError(lines, pats, re);
    FirstErrorSpec(lines, pats, re, |lines|);
    EntriesSpec(lines, pats, re, |lines|);
    var es := Entries(lines, pats, re, |lines|);
    if es != [] {
      assert Examine(lines, pats, re, es[0].line) == Success(Some(es[0]));
    }
  }

  /** With a top-level pattern but no sub-level one, a title the top-level
      pattern rejects calls matchPattern with None (TypeError). */
  lemma MissingSublevelPattern(lines: seq<string>, pats: Patterns, re: Engine, j: nat)
    requires Truthy(pats.toplevel) && pats.sublevel.None?
    requires j < |lines| && IsName(lines[j]) && MatchPattern(lines[j], pats.toplevel, re) == Success(false)
    requires forall j' :: 0 <= j' < j ==> Examine(lines, pats, re, j').Success?
    ensures Examine(lines, pats, re, j) == Failure(NonePattern)
    ensures Outline(lines, pats, re) == Failure(NonePattern)
  {
    FirstFailureAborts(lines, pats, re, j);
  }

  // ---------------------------------------------------------------------
  // Which lines become nodes
  // ---------------------------------------------------------------------

  /** Every node is a title line, in line order, paired with the integer on
      the line after it; every title line that is not dropped becomes a
      node, including one that was also read as the previous title's page. */
  lemma NodeProvenance(lines: seq<string>, pats: Patterns, re: Engine)
    requires Outline(lines, pats, re).Success?
    ensures |Outline(lines, pats, re).value| == |Entries(lines, pats, re, |lines|)|
    ensures forall k :: 0 <= k < |Entries(lines, pats, re, |lines|)| ==>
              Entries(lines, pats, re, |lines|)[k].line + 1 < |lines|
              && IsName(lines[Entries(lines, pats, re, |lines|)[k].line])
              && Outline(lines, pats, re).value[k].title == lines[Entries(lines, pats, re, |lines|)[k].line]
              && ParseInt(lines[Entries(lines, pats, re, |lines|)[k].line + 1]) == Some(Outline(lines, pats, re).value[k].page)
              && Classify(lines[Entries(lines, pats, re, |lines|)[k].line], pats, re)
                 == Success(Entries(lines, pats, re, |lines|)[k].kind)
    ensures forall k, k' :: 0 <= k < k' < |Entries(lines, pats, re, |lines|)| ==>
              Entries(lines, pats, re, |lines|)[k].line < Entries(lines, pats, re, |lines|)[k'].line
    ensures forall j :: 0 <= j < |lines| ==>
              ((exists k :: 0 <= k < |Entries(lines, pats, re, |lines|)| && Entries(lines, pats, re, |lines|)[k].line == j)
               <==> IsName(lines[j]) && Classify(lines[j], pats, re) != Success(Dropped))
  {
    EntriesSpec(lines, pats, re, |lines|);
    EntryLines(lines, pats, re);
    EmittingLines(lines, pats, re);
  }

  /** What each entry records about its line. */
  lemma EntryLines(lines: seq<string>, pats: Patterns, re: Engine)
    ensures forall k :: 0 <= k < |Entries(lines, pats, re, |lines|)| ==>
              var e := Entries(lines, pats, re, |lines|)[k];
              e.line + 1 < |lines| && IsName(lines[e.line]) && e.title == lines[e.line]
              && ParseInt(lines[e.line + 1]) == Some(e.page) && Classify(lines[e.line], pats, re) == Success(e.kind)
  {
    var es := Entries(lines, pats, re, |lines|);
    EntriesSpec(lines, pats, re, |lines|);
    forall k | 0 <= k < |es|
      ensures es[k].line + 1 < |lines| && IsName(lines[es[k].line]) && es[k].title == lines[es[k].line]
              && ParseInt(lines[es[k].line + 1]) == Some(es[k].page)
              && Classify(lines[es[k].line], pats, re) == Success(es[k].kind)
    {
      assert Examine(lines, pats, re, es[k].line) == Success(Some(es[k]));
      ExamineSpec(lines, pats, re, es[k].line);
    }
  }

  /** When no line raises, exactly the title lines that are not dropped
      have an entry. */
  lemma EmittingLines(lines: seq<string>, pats: Patterns, re: Engine)
    requires FirstError(lines, pats, re, |lines|).None?
    ensures forall j :: 0 <= j < |lines| ==>
              ((exists k :: 0 <= k < |Entries(lines, pats, re, |lines|)| && Entries(lines, pats, re, |lines|)[k].line == j)
               <==> IsName(lines[j]) && Classify(lines[j], pats, re) != Success(Dropped))
  {
    forall j | 0 <= j < |lines|
      ensures (exists k :: 0 <= k < |Entries(lines, pats, re, |lines|)| && Entries(lines, pats, re, |lines|)[k].line == j)
              <==> IsName(lines[j]) && Classify(lines[j], pats, re) != Success(Dropped)
    {
      EmittingLine(lines, pats, re, j);
    }
  }

  lemma EmittingLine(lines: seq<string>, pats: Patterns, re: Engine, j: nat)
    requires FirstError(lines, pats, re, |lines|).None? && j < |lines|
    ensures (exists k :: 0 <= k < |Entries(lines, pats, re, |lines|)| && Entries(lines, pats, re, |lines|)[k].line == j)
            <==> IsName(lines[j]) && Classify(lines[j], pats, re) != Success(Dropped)
  {
    FirstErrorSpec(lines, pats, re, |lines|);
    EntriesSpec(lines, pats, re, |lines|);
    var es := Entries(lines, pats, re, |lines|);
    var ex := Examine(lines, pats, re, j);
    assert ex.Success?;
    ExamineSpec(lines, pats, re, j);
    if IsName(lines[j]) && Classify(lines[j], pats, re) != Success(Dropped) {
      assert ex.value.Some?;
      EntriesComplete(lines, pats, re, |lines|, j);
      var k :| 0 <= k < |es| && es[k] == ex.value.value;
      assert es[k].line == j;
      assert exists k' :: 0 <= k' < |Entries(lines, pats, re, |lines|)| && Entries(lines, pats, re, |lines|)[k'].line == j;
    }
  }

  /** Flat mode: no run consults a pattern, every title line is one
      parentless node, and the handles `parent` and `child` stay None. */
  lemma FlatModeOutline(lines: seq<string>, pats: Patterns, re: Engine)
    requires FlatMode(pats)
    ensures Outline(lines, pats, re).Success? <==>
              forall j :: 0 <= j < |lines| && IsName(lines[j]) ==> PageNumber(lines, j).Success?
    ensures Outline(lines, pats, re).Success? ==>
              && (forall k :: 0 <= k < |Outline(lines, pats, re).value| ==>
                    Outline(lines, pats, re).value[k].parent.None?)
              && (forall k :: 0 <= k < |Entries(lines, pats, re, |lines|)| ==>
                    Entries(lines, pats, re, |lines|)[k].kind == FlatItem)
              && (forall j :: 0 <= j < |lines| ==>
                    (IsName(lines[j]) <==>
                       exists k :: 0 <= k < |Entries(lines, pats, re, |lines|)| && Entries(lines, pats, re, |lines|)[k].line == j))
              && LastOf(Entries(lines, pats, re, |lines|), Top).None?
              && LastOf(Entries(lines, pats, re, |lines|), Sub).None?
  {
    FlatModeFailure(lines, pats, re);
    if Outline(lines, pats, re).Success? {
      FlatModeNodes(lines, pats, re);
    }
  }

  lemma FlatModeFailure(lines: seq<string>, pats: Patterns, re: Engine)
    requires FlatMode(pats)
    ensures Outline(lines, pats, re).Success? <==>
              forall j :: 0 <= j < |lines| && IsName(lines[j]) ==> PageNumber(lines, j).Success?
  {
    OutlineFailsAtFirstError(lines, pats, re);
    forall j | 0 <= j < |lines|
      ensures Examine(lines, pats, re, j).Failure? <==> IsName(lines[j]) && PageNumber(lines, j).Failure?
    {
    }
  }

  lemma FlatModeNodes(lines: seq<string>, pats: Patterns, re: Engine)
    requires FlatMode(pats) && Outline(lines, pats, re).Success?
    ensures forall k :: 0 <= k < |Outline(lines, pats, re).value| ==> Outline(lines, pats, re).value[k].parent.None?
    ensures forall k :: 0 <= k < |Entries(lines, pats, re, |lines|)| ==> Entries(lines, pats, re, |lines|)[k].kind == FlatItem
    ensures forall j :: 0 <= j < |lines| ==>
              (IsName(lines[j]) <==>
                 exists k :: 0 <= k < |Entries(lines, pats, re, |lines|)| && Entries(lines, pats, re, |lines|)[k].line == j)
    ensures LastOf(Entries(lines, pats, re, |lines|), Top).None? && LastOf(Entries(lines, pats, re, |lines|), Sub).None?
  {
    NodeProvenance(lines, pats, re);
    var es := Entries(lines, pats, re, |lines|);
    forall k | 0 <= k < |es| ensures es[k].kind == FlatItem {
      assert Classify(lines[es[k].line], pats, re) == Success(es[k].kind);
    }
    assert Outline(lines, pats, re).value == Link(es);
  }

  /** A title that matches neither the top-level nor the sub-level pattern
      becomes a parentless node when there is no sub-sub-level pattern, and
      otherwise, if that one fails too, is dropped without reading the next
      line: no IndexError even on the last line. */
  lemma UnmatchedTitle(lines: seq<string>, pats: Patterns, re: Engine, j: nat)
    requires j < |lines| && IsName(lines[j]) && !FlatMode(pats)
    requires MatchPattern(lines[j], pats.toplevel, re) == Success(false)
    requires MatchPattern(lines[j], pats.sublevel, re) == Success(false)
    ensures !Truthy(pats.subsublevel) ==>
              Classify(lines[j], pats, re) == Success(Fallback)
              && Examine(lines, pats, re, j) == (match PageNumber(lines, j)
                                                case Success(p) => Success(Some(Entry(j, lines[j], Fallback, p)))
                                                case Failure(e) => Failure(e))
    ensures Truthy(pats.subsublevel) && MatchPattern(lines[j], pats.subsublevel, re) == Success(false) ==>
              Examine(lines, pats, re, j) == Success(None)
  {
  }

  // ---------------------------------------------------------------------
  // Parent links
  // ---------------------------------------------------------------------

  /** Parent links: every parent is an earlier node; top-level, flat and
      fallback nodes are parentless; a sub-level node hangs under the most
      recent top-level node and a sub-sub-level node under the most recent
      sub-level node (which a later top-level node does not reset). */
  lemma ParentLinkage(lines: seq<string>, pats: Patterns, re: Engine)
    requires Outline(lines, pats, re).Success?
    ensures |Outline(lines, pats, re).value| == |Entries(lines, pats, re, |lines|)|
    ensures forall k :: 0 <= k < |Outline(lines, pats, re).value| ==>
              var parent := Outline(lines, pats, re).value[k].parent;
              var kind := Entries(lines, pats, re, |lines|)[k].kind;
              && (parent.Some? ==> parent.value < k)
              && (kind.Top? || kind.FlatItem? || kind.Fallback? ==> parent.None?)
              && (kind.Sub? ==> MostRecent(Entries(lines, pats, re, |lines|), k, Top, parent))
              && (kind.SubSub? ==> MostRecent(Entries(lines, pats, re, |lines|), k, Sub, parent))
  {
    LinkParents(Entries(lines, pats, re, |lines|));
  }

  /** The parent links Link gives any list of entries. */
  lemma LinkParents(es: seq<Entry>)
    ensures forall k :: 0 <= k < |es| ==>
              var parent := Link(es)[k].parent;
              && (parent.Some? ==> parent.value < k)
              && (es[k].kind.Top? || es[k].kind.FlatItem? || es[k].kind.Fallback? ==> parent.None?)
              && (es[k].kind.Sub? ==> MostRecent(es, k, Top, parent))
              && (es[k].kind.SubSub? ==> MostRecent(es, k, Sub, parent))
  {
    forall k | 0 <= k < |es|
      ensures var parent := ParentOf(es, k);
              && (es[k].kind.Sub? ==> MostRecent(es, k, Top, parent))
              && (es[k].kind.SubSub? ==> MostRecent(es, k, Sub, parent))
    {
      var prefix := es[..k];
      assert forall q :: 0 <= q < k ==> prefix[q] == es[q];
    }
  }

  // ---------------------------------------------------------------------
  // The whole run
  // ---------------------------------------------------------------------

  /** The destination is written exactly once, holding the built outline,
      when the source opens, both paths are set, the contents file reads and
      the loop completes; it is left untouched when the source does not open
      or a path is missing, and emptied without an outline otherwise. */
  lemma RunOutcome(d: Request, env: Env, re: Engine)
    ensures TableOfContents(d, env, re).Untouched? <==>
              d.src.None? || !env.sourceOpens || d.dst.None? || d.contents.None?
    ensures TableOfContents(d, env, re).Written? <==>
              d.src.Some? && env.sourceOpens && d.dst.Some? && d.contents.Some? && env.contentsFile.Some?
              && Outline(StrippedLines(env.contentsFile.value), d.patterns, re).Success?
    ensures TableOfContents(d, env, re).Written? ==>
              Outline(StrippedLines(env.contentsFile.value), d.patterns, re) == Success(TableOfContents(d, env, re).outline)
    ensures d.src.Some? && env.sourceOpens && d.dst.Some? && d.contents.Some? && env.contentsFile.None? ==>
              TableOfContents(d, env, re) == Aborted(ContentsUnreadable)
    ensures TableOfContents(d, env, re).Aborted? && env.contentsFile.Some? ==>
              Outline(StrippedLines(env.contentsFile.value), d.patterns, re) == Failure(TableOfContents(d, env, re).error)
  {
  }

  /** The "Not a PDF file" check has no effect: a source PdfReader opens is
      used whatever its header says. */
  lemma HeaderCheckIgnored(d: Request, env: Env, re: Engine, header: bool)
    ensures TableOfContents(d, env.(headerNamesPdf := header), re) == TableOfContents(d, env, re)
    ensures d.src.Some? && env.sourceOpens && !env.headerNamesPdf && d.dst.Some? && d.contents.Some? ==>
              !TableOfContents(d, env, re).Untouched?
  {
  }
}
