/**
 * Concrete runs of the outline builder, including the cases where the code's
 * behaviour differs from what its docstring describes.
 *
 * Each example is proved in three parts: what every line contributes
 * (`...Examined`), the entries those contributions collect into
 * (`...Collected`) and the nodes the entries link into (`...Linked`).
 */
module OutlineExamples {
  import opened Wrappers
  import opened Text
  import opened PdfOutline
  import opened OutlineProperties

  // ---------------------------------------------------------------------
  // Engines
  // ---------------------------------------------------------------------

  /** A tiny regular-expression engine: every pattern compiles, "text.*"
      matches exactly the lines that start with "text", and any other
      pattern matches only itself. */
  function StarMatch(p: string, s: string): bool {
    if |p| >= 2 && p[|p| - 2..] == ".*" then p[..|p| - 2] <= s else p == s
  }

  function Prefixes(): Engine {
    Engine(_ => true, StarMatch)
  }

  lemma FirstCharDiffers(p: string, s: string)
    requires |p| > 2 && |s| > 0 && p[0] != s[0]
    ensures !StarMatch(p, s)
  {
    if |p[..|p| - 2]| <= |s| {
      assert p[..|p| - 2][0] != s[..|p| - 2][0];
    }
  }

  /** What the examples with chapters, sections and items need to know
      about the engine; Python's `re` behaves so, and so does Prefixes. */
  predicate BookEngine(re: Engine) {
    && re.compiles("Chapter .*") && re.compiles("Section .*") && re.compiles("Item .*")
    && re.fullmatch("Chapter .*", "Chapter 1") && re.fullmatch("Chapter .*", "Chapter 2")
    && !re.fullmatch("Chapter .*", "Section 1.1") && re.fullmatch("Section .*", "Section 1.1")
    && !re.fullmatch("Chapter .*", "Item a") && !re.fullmatch("Section .*", "Item a") && re.fullmatch("Item .*", "Item a")
    && !re.fullmatch("Chapter .*", "Appendix") && !re.fullmatch("Section .*", "Appendix")
    && !re.fullmatch("Item .*", "Appendix")
  }

  lemma PrefixesIsBookEngine()
    ensures BookEngine(Prefixes())
  {
    FirstCharDiffers("Chapter .*", "Section 1.1");
    FirstCharDiffers("Chapter .*", "Item a");
    FirstCharDiffers("Section .*", "Item a");
    FirstCharDiffers("Chapter .*", "Appendix");
    FirstCharDiffers("Section .*", "Appendix");
    FirstCharDiffers("Item .*", "Appendix");
  }

  /** A line that starts with a letter is a title. */
  lemma LetterLine(s: string)
    requires |s| > 0 && !IsSpaceChar(s[0]) && !IsDigitChar(s[0])
    ensures IsName(s)
  {
  }

  /** A classified title with a page after it is one entry. */
  lemma TitleAt(lines: seq<string>, pats: Patterns, re: Engine, j: nat, kind: Kind, page: int)
    requires j + 1 < |lines| && Classify(lines[j], pats, re) == Success(kind) && Emits(kind)
    requires ParseInt(lines[j + 1]) == Some(page)
    ensures Examine(lines, pats, re, j) == Success(Some(Entry(j, lines[j], kind, page)))
  {
  }

  /** Number lines are no titles. */
  lemma NumberLines(lines: seq<string>, pats: Patterns, re: Engine, js: seq<nat>)
    requires forall k :: 0 <= k < |js| ==> js[k] < |lines| && IsNumeric(lines[js[k]])
    ensures forall k :: 0 <= k < |js| ==> Examine(lines, pats, re, js[k]) == Success(None)
  {
  }

  // ---------------------------------------------------------------------
  // Flat mode
  // ---------------------------------------------------------------------

  const FlatPatterns := Patterns(None, Some("Section .*"), None)
  const Flat := ["A", "1", "B", "2"]
  const FlatEntries := [Entry(0, "A", FlatItem, 1), Entry(2, "B", FlatItem, 2)]
  const FlatSeen := [Some(FlatEntries[0]), None, Some(FlatEntries[1]), None]

  /** Flat mode (a sub-level pattern but no top-level one): every title is a
      parentless item, whatever the engine. */
  lemma FlatExample(re: Engine)
    ensures Outline(Flat, FlatPatterns, re) == Success([Node("A", 1, None), Node("B", 2, None)])
  {
    FlatExamined(re);
    OutlineFromSteps(Flat, FlatPatterns, re, FlatSeen);
    FlatCollected();
    FlatLinked();
  }

  lemma FlatExamined(re: Engine)
    ensures forall j :: 0 <= j < 4 ==> Examine(Flat, FlatPatterns, re, j) == Success(FlatSeen[j])
  {
    NumberLines(Flat, FlatPatterns, re, [1, 3]);
    assert IsName("A") && IsName("B") && ParseInt("1") == Some(1) && ParseInt("2") == Some(2);
    assert Examine(Flat, FlatPatterns, re, 0) == Success(FlatSeen[0]);
    assert Examine(Flat, FlatPatterns, re, 2) == Success(FlatSeen[2]);
  }

  lemma FlatCollected()
    ensures Collect(FlatSeen) == FlatEntries
  {
    var e0, e2 := FlatEntries[0], FlatEntries[1];
    var s1 := [] + [Some(e0)];
    var s2 := s1 + [None];
    var s3 := s2 + [Some(e2)];
    assert FlatSeen == s3 + [None];
    CollectAppend([], Some(e0));
    CollectAppend(s1, None);
    CollectAppend(s2, Some(e2));
    CollectAppend(s3, None);
  }

  lemma FlatLinked()
    ensures Link(FlatEntries) == [Node("A", 1, None), Node("B", 2, None)]
  {
    var e0, e2 := FlatEntries[0], FlatEntries[1];
    LinkAppend([], e0);
    LinkAppend([e0], e2);
    assert [] + [e0] == [e0] && [e0] + [e2] == FlatEntries;
    assert Link([]) == [];
  }

  /** Without any pattern the same contents raise TypeError at the first
      title: flat mode needs a sub-level pattern. */
  lemma NoPatternsExample(re: Engine)
    ensures Outline(Flat, Patterns(None, None, None), re) == Failure(NonePattern)
  {
    assert IsName("A");
    assert Examine(Flat, Patterns(None, None, None), re, 0) == Failure(NonePattern);
    FirstFailureAborts(Flat, Patterns(None, None, None), re, 0);
  }

  const Signed := ["A", "+1", "2"]
  const SignedPatterns := Patterns(None, Some("S"), None)
  const SignedEntries := [Entry(0, "A", FlatItem, 1), Entry(1, "+1", FlatItem, 2)]
  const SignedSeen := [Some(SignedEntries[0]), Some(SignedEntries[1]), None]

  /** The loop advances one line at a time: "+1" is read as the first
      title's page and then, not being all digits, becomes a title too. */
  lemma PageLineAlsoTitleExample(re: Engine)
    ensures Outline(Signed, SignedPatterns, re) == Success([Node("A", 1, None), Node("+1", 2, None)])
  {
    SignedExamined(re);
    OutlineFromSteps(Signed, SignedPatterns, re, SignedSeen);
    SignedCollected();
    SignedLinked();
  }

  lemma SignedExamined(re: Engine)
    ensures forall j :: 0 <= j < 3 ==> Examine(Signed, SignedPatterns, re, j) == Success(SignedSeen[j])
  {
    NumberLines(Signed, SignedPatterns, re, [2]);
    assert IsName("A") && IsName("+1") && "+1"[1..] == "1";
    assert ParseInt("+1") == Some(1) && ParseInt("2") == Some(2);
    assert Examine(Signed, SignedPatterns, re, 0) == Success(SignedSeen[0]);
    assert Examine(Signed, SignedPatterns, re, 1) == Success(SignedSeen[1]);
  }

  lemma SignedCollected()
    ensures Collect(SignedSeen) == SignedEntries
  {
    var e0, e1 := SignedEntries[0], SignedEntries[1];
    assert SignedSeen == [Some(e0), Some(e1), None];
    assert SignedSeen[..2] == [Some(e0), Some(e1)];
    assert SignedSeen[..2][..1] == [Some(e0)];
    assert SignedSeen[..2][..1][..0] == [];
    assert Collect(SignedSeen[..2][..1]) == [e0];
    assert Collect(SignedSeen[..2]) == [e0, e1];
  }

  lemma SignedLinked()
    ensures Link(SignedEntries) == [Node("A", 1, None), Node("+1", 2, None)]
  {
    var e0, e1 := SignedEntries[0], SignedEntries[1];
    LinkAppend([], e0);
    LinkAppend([e0], e1);
    assert [] + [e0] == [e0] && [e0] + [e1] == SignedEntries;
    assert Link([]) == [];
  }

  /** A title with no page line, and a title followed by text. */
  lemma MalformedExamples(re: Engine)
    ensures Outline(["Title"], SignedPatterns, re) == Failure(MissingPageLine)
    ensures Outline(["Title", "abc"], SignedPatterns, re) == Failure(InvalidPageNumber)
  {
    assert IsName("Title");
    assert Examine(["Title"], SignedPatterns, re, 0) == Failure(MissingPageLine);
    FirstFailureAborts(["Title"], SignedPatterns, re, 0);
    assert !IsNumeric("abc") && "abc"[0] == 'a';
    assert Examine(["Title", "abc"], SignedPatterns, re, 0) == Failure(InvalidPageNumber);
    FirstFailureAborts(["Title", "abc"], SignedPatterns, re, 0);
  }

  // ---------------------------------------------------------------------
  // Hierarchy
  // ---------------------------------------------------------------------

  const TwoLevel := Patterns(Some("Chapter .*"), Some("Section .*"), None)
  const ThreeLevel := Patterns(Some("Chapter .*"), Some("Section .*"), Some("Item .*"))

  /** Top- and sub-level patterns for chapters and sections. */
  predicate Hierarchical(pats: Patterns, re: Engine) {
    pats.toplevel == Some("Chapter .*") && pats.sublevel == Some("Section .*") && BookEngine(re)
  }

  lemma ChapterOneAt(lines: seq<string>, pats: Patterns, re: Engine)
    requires Hierarchical(pats, re) && |lines| >= 2 && lines[0] == "Chapter 1" && lines[1] == "1"
    ensures Examine(lines, pats, re, 0) == Success(Some(Entry(0, "Chapter 1", Top, 1)))
  {
    LetterLine("Chapter 1");
    assert ParseInt("1") == Some(1);
    assert Classify("Chapter 1", pats, re) == Success(Top);
    TitleAt(lines, pats, re, 0, Top, 1);
  }

  lemma SectionAt(lines: seq<string>, pats: Patterns, re: Engine)
    requires Hierarchical(pats, re) && |lines| >= 4 && lines[2] == "Section 1.1" && lines[3] == "2"
    ensures Examine(lines, pats, re, 2) == Success(Some(Entry(2, "Section 1.1", Sub, 2)))
  {
    LetterLine("Section 1.1");
    assert ParseInt("2") == Some(2);
    assert Classify("Section 1.1", pats, re) == Success(Sub);
    TitleAt(lines, pats, re, 2, Sub, 2);
  }

  lemma ChapterTwoAt(lines: seq<string>, pats: Patterns, re: Engine)
    requires Hierarchical(pats, re) && |lines| >= 6 && lines[4] == "Chapter 2" && lines[5] == "3"
    ensures Examine(lines, pats, re, 4) == Success(Some(Entry(4, "Chapter 2", Top, 3)))
  {
    LetterLine("Chapter 2");
    assert ParseInt("3") == Some(3);
    assert Classify("Chapter 2", pats, re) == Success(Top);
    TitleAt(lines, pats, re, 4, Top, 3);
  }

  lemma ItemAt(lines: seq<string>, re: Engine)
    requires BookEngine(re) && |lines| >= 8 && lines[6] == "Item a" && lines[7] == "4"
    ensures Examine(lines, ThreeLevel, re, 6) == Success(Some(Entry(6, "Item a", SubSub, 4)))
  {
    LetterLine("Item a");
    assert ParseInt("4") == Some(4);
    assert Classify("Item a", ThreeLevel, re) == Success(SubSub);
    TitleAt(lines, ThreeLevel, re, 6, SubSub, 4);
  }

  const Book := ["Chapter 1", "1", "Section 1.1", "2", "Chapter 2", "3"]
  const BookEntries := [Entry(0, "Chapter 1", Top, 1), Entry(2, "Section 1.1", Sub, 2), Entry(4, "Chapter 2", Top, 3)]
  const BookSeen := [Some(BookEntries[0]), None, Some(BookEntries[1]), None, Some(BookEntries[2]), None]

  /** Chapters and sections: a section hangs under the chapter before it. */
  lemma HierarchyExample(re: Engine)
    requires BookEngine(re)
    ensures Outline(Book, TwoLevel, re)
         == Success([Node("Chapter 1", 1, None), Node("Section 1.1", 2, Some(0)), Node("Chapter 2", 3, None)])
  {
    BookExamined(re);
    OutlineFromSteps(Book, TwoLevel, re, BookSeen);
    BookCollected();
    BookLinked();
  }

  /** Any contents that start with the lines of Book. */
  lemma OpensLikeBook(lines: seq<string>, pats: Patterns, re: Engine)
    requires Hierarchical(pats, re) && |lines| >= 6 && lines[..6] == Book
    ensures forall j :: 0 <= j < 6 ==> Examine(lines, pats, re, j) == Success(BookSeen[j])
  {
    forall j | 0 <= j < 6 ensures Examine(lines, pats, re, j) == Success(BookSeen[j]) {
      assert lines[j] == Book[j] by { assert lines[..6][j] == lines[j]; }
      if j in {1, 3, 5} {
        NumberLines(lines, pats, re, [j]);
      } else {
        assert lines[j + 1] == Book[j + 1] by { assert lines[..6][j + 1] == lines[j + 1]; }
        if j == 0 {
          ChapterOneAt(lines, pats, re);
        } else if j == 2 {
          SectionAt(lines, pats, re);
        } else {
          ChapterTwoAt(lines, pats, re);
        }
      }
    }
  }

  lemma BookExamined(re: Engine)
    requires BookEngine(re)
    ensures forall j :: 0 <= j < 6 ==> Examine(Book, TwoLevel, re, j) == Success(BookSeen[j])
  {
    OpensLikeBook(Book, TwoLevel, re);
  }

  lemma BookCollected()
    ensures Collect(BookSeen) == BookEntries
  {
    var e0, e2, e4 := BookEntries[0], BookEntries[1], BookEntries[2];
    var s1 := [] + [Some(e0)];
    var s2 := s1 + [None];
    var s3 := s2 + [Some(e2)];
    var s4 := s3 + [None];
    var s5 := s4 + [Some(e4)];
    assert BookSeen == s5 + [None];
    CollectAppend([], Some(e0));
    CollectAppend(s1, None);
    CollectAppend(s2, Some(e2));
    CollectAppend(s3, None);
    CollectAppend(s4, Some(e4));
    CollectAppend(s5, None);
  }

  lemma BookLinked()
    ensures Link(BookEntries) == [Node("Chapter 1", 1, None), Node("Section 1.1", 2, Some(0)), Node("Chapter 2", 3, None)]
  {
    var e0, e2, e4 := BookEntries[0], BookEntries[1], BookEntries[2];
    LinkAppend([], e0);
    LinkAppend([e0], e2);
    LinkAppend([e0, e2], e4);
    assert [] + [e0] == [e0] && [e0] + [e2] == [e0, e2] && [e0, e2] + [e4] == BookEntries;
    assert Link([]) == [];
    assert LastOf([e0], Top) == Some(0);
  }

  const Stale := Book + ["Item a", "4"]
  const StaleEntries := BookEntries + [Entry(6, "Item a", SubSub, 4)]
  const StaleSeen := BookSeen + [Some(StaleEntries[3]), None]

  /** `child` is not reset by a new chapter: an item after "Chapter 2"
      still hangs under "Section 1.1". */
  lemma StaleChildExample(re: Engine)
    requires BookEngine(re)
    ensures Outline(Stale, ThreeLevel, re)
         == Success([Node("Chapter 1", 1, None), Node("Section 1.1", 2, Some(0)),
                     Node("Chapter 2", 3, None), Node("Item a", 4, Some(1))])
  {
    StaleExamined(re);
    OutlineFromSteps(Stale, ThreeLevel, re, StaleSeen);
    StaleCollected();
    StaleLinked();
  }

  lemma StaleExamined(re: Engine)
    requires BookEngine(re)
    ensures forall j :: 0 <= j < 8 ==> Examine(Stale, ThreeLevel, re, j) == Success(StaleSeen[j])
  {
    assert Stale[..6] == Book;
    OpensLikeBook(Stale, ThreeLevel, re);
    NumberLines(Stale, ThreeLevel, re, [7]);
    ItemAt(Stale, re);
  }

  lemma StaleCollected()
    ensures Collect(StaleSeen) == StaleEntries
  {
    var e6 := StaleEntries[3];
    BookCollected();
    CollectAppend(BookSeen, Some(e6));
    CollectAppend(BookSeen + [Some(e6)], None);
    assert StaleSeen == BookSeen + [Some(e6)] + [None];
  }

  lemma StaleLinked()
    ensures Link(StaleEntries) == [Node("Chapter 1", 1, None), Node("Section 1.1", 2, Some(0)),
                                   Node("Chapter 2", 3, None), Node("Item a", 4, Some(1))]
  {
    var e0, e2, e4, e6 := BookEntries[0], BookEntries[1], BookEntries[2], StaleEntries[3];
    BookLinked();
    LinkAppend([e0], e2);
    LinkAppend([e0, e2], e4);
    LinkAppend(BookEntries, e6);
    assert [e0] + [e2] == [e0, e2] && [e0, e2] + [e4] == BookEntries;
    assert LastOf([e0, e2], Sub) == Some(1);
  }

  // ---------------------------------------------------------------------
  // Titles that match no pattern
  // ---------------------------------------------------------------------

  const Appendix := ["Chapter 1", "1", "Appendix"]
  const AppendixWithPage := Appendix + ["9"]
  const DroppedSeen := [Some(BookEntries[0]), None, None]
  const FallbackEntries := [BookEntries[0], Entry(2, "Appendix", Fallback, 9)]
  const FallbackSeen := [Some(FallbackEntries[0]), None, Some(FallbackEntries[1]), None]

  /** A title that matches no pattern, as the third line. */
  lemma AppendixAt(lines: seq<string>, re: Engine)
    requires BookEngine(re) && |lines| >= 3 && lines[2] == "Appendix"
    ensures Examine(lines, ThreeLevel, re, 2) == Success(None)
    ensures |lines| == 3 ==> Examine(lines, TwoLevel, re, 2) == Failure(MissingPageLine)
    ensures |lines| >= 4 && lines[3] == "9" ==>
              Examine(lines, TwoLevel, re, 2) == Success(Some(Entry(2, "Appendix", Fallback, 9)))
  {
    LetterLine("Appendix");
    assert Classify("Appendix", ThreeLevel, re) == Success(Dropped);
    assert Classify("Appendix", TwoLevel, re) == Success(Fallback);
    if |lines| >= 4 && lines[3] == "9" {
      assert ParseInt("9") == Some(9);
      TitleAt(lines, TwoLevel, re, 2, Fallback, 9);
    }
  }

  /** With a sub-sub-level pattern, a title that matches no pattern is
      dropped, and its missing page line is never read. */
  lemma DroppedTitleExample(re: Engine)
    requires BookEngine(re)
    ensures Outline(Appendix, ThreeLevel, re) == Success([Node("Chapter 1", 1, None)])
  {
    DroppedExamined(re);
    OutlineFromSteps(Appendix, ThreeLevel, re, DroppedSeen);
    DroppedLinked();
  }

  lemma DroppedExamined(re: Engine)
    requires BookEngine(re)
    ensures forall j :: 0 <= j < 3 ==> Examine(Appendix, ThreeLevel, re, j) == Success(DroppedSeen[j])
  {
    forall j | 0 <= j < 3 ensures Examine(Appendix, ThreeLevel, re, j) == Success(DroppedSeen[j]) {
      if j == 1 {
        NumberLines(Appendix, ThreeLevel, re, [j]);
      } else if j == 0 {
        ChapterOneAt(Appendix, ThreeLevel, re);
      } else {
        AppendixAt(Appendix, re);
      }
    }
  }

  lemma DroppedLinked()
    ensures Link(Collect(DroppedSeen)) == [Node("Chapter 1", 1, None)]
  {
    var e0 := BookEntries[0];
    var s1 := [] + [Some(e0)];
    var s2 := s1 + [None];
    assert DroppedSeen == s2 + [None];
    CollectAppend([], Some(e0));
    CollectAppend(s1, None);
    CollectAppend(s2, None);
    LinkAppend([], e0);
    assert [] + [e0] == [e0];
    assert Link([]) == [];
  }

  /** Without a sub-sub-level pattern the same title is a parentless item,
      and as the last line it raises IndexError. */
  lemma FallbackTitleExample(re: Engine)
    requires BookEngine(re)
    ensures Outline(AppendixWithPage, TwoLevel, re) == Success([Node("Chapter 1", 1, None), Node("Appendix", 9, None)])
    ensures Outline(Appendix, TwoLevel, re) == Failure(MissingPageLine)
  {
    FallbackExamined(re);
    OutlineFromSteps(AppendixWithPage, TwoLevel, re, FallbackSeen);
    FallbackLinked();
    FallbackFails(re);
  }

  lemma FallbackExamined(re: Engine)
    requires BookEngine(re)
    ensures forall j :: 0 <= j < 4 ==> Examine(AppendixWithPage, TwoLevel, re, j) == Success(FallbackSeen[j])
  {
    forall j | 0 <= j < 4 ensures Examine(AppendixWithPage, TwoLevel, re, j) == Success(FallbackSeen[j]) {
      if j in {1, 3} {
        NumberLines(AppendixWithPage, TwoLevel, re, [j]);
      } else if j == 0 {
        ChapterOneAt(AppendixWithPage, TwoLevel, re);
      } else {
        AppendixAt(AppendixWithPage, re);
      }
    }
  }

  lemma FallbackLinked()
    ensures Link(Collect(FallbackSeen)) == [Node("Chapter 1", 1, None), Node("Appendix", 9, None)]
  {
    var e0, e2 := FallbackEntries[0], FallbackEntries[1];
    var s1 := [] + [Some(e0)];
    var s2 := s1 + [None];
    var s3 := s2 + [Some(e2)];
    assert FallbackSeen == s3 + [None];
    CollectAppend([], Some(e0));
    CollectAppend(s1, None);
    CollectAppend(s2, Some(e2));
    CollectAppend(s3, None);
    LinkAppend([], e0);
    LinkAppend([e0], e2);
    assert [] + [e0] == [e0] && [e0] + [e2] == FallbackEntries;
    assert Link([]) == [];
  }

  lemma FallbackFails(re: Engine)
    requires BookEngine(re)
    ensures Outline(Appendix, TwoLevel, re) == Failure(MissingPageLine)
  {
    forall j | 0 <= j < 2 ensures Examine(Appendix, TwoLevel, re, j).Success? {
      if j == 0 {
        ChapterOneAt(Appendix, TwoLevel, re);
      } else {
        NumberLines(Appendix, TwoLevel, re, [j]);
      }
    }
    AppendixAt(Appendix, re);
    FirstFailureAborts(Appendix, TwoLevel, re, 2);
  }
}
