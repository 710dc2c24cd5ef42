# pdf_outline in Dafny

`pdf_outline.py` adds an outline (a clickable table of contents) to a copy of
a PDF document. The outline comes from a plain-text contents file in which
every title is followed by its page number on the next line. Up to three
regular expressions (top level, sub level, sub-sub level) say which titles
are chapters, sections and items. A section is attached under the most
recent chapter, and an item under the most recent section.

This project models and proves properties of:

- the line tests `isName` and `matchPattern`;
- the line loop of `writeTableOfContents`, with its `parent` and `child` handles and the exceptions that abort it;
- what one call of `writeTableOfContents` does to the destination file;
- the argument checks and pattern normalisation of `generateOutline`.

Files:

- `wrappers.dfy`: `Option` and `Result`. `Result.Failure` stands for a Python exception.
- `text.dfy`: the string built-ins the code relies on: `str.isspace`, `str.isnumeric`, `str.strip` and `int(str)`.
- `pdf_outline.dfy`: the model itself.
  - `IsName` and `MatchPattern`.
  - `Classify`: the if/elif chain of the loop body.
  - A reference definition of the outline a run builds, stated line by line: `Examine`, `FirstError`, `Entries`, `LastOf`, `ParentOf`, `Link` and `Outline`.
  - The loop as the method `BuildOutline`, proved to compute that reference outline.
  - `WriteTableOfContents` and `GenerateOutline`.
- `outline_properties.dfy`: what a run promises, stated over the reference outline.
- `outline_examples.dfy`: concrete runs, including those where the code does something other than its docstring says.

Modelling choices:

- **Regular expressions are a parameter.** `Engine(compiles, fullmatch)` gives which pattern strings `re.compile` accepts and the result of `fullmatch`.
- **The writer is an append-only list of nodes.** The handle `add_outline_item` returns is the index of the node in that list. A parent of `None` means the outline root.
- **Exceptions are `Failure` values:**
  - `MissingPageLine`: `IndexError` from `lines[i+1]`.
  - `InvalidPageNumber`: `ValueError` from `int`.
  - `NonePattern`: `TypeError` from `re.compile(None)`.
  - `BadPattern`: `re.error`.
  - `ContentsUnreadable`: the contents file cannot be opened.
- **Outside inputs are parameters.** `Env` gives whether `PdfReader` opens the source (`sourceOpens`), whether its header names "pdf" (`headerNamesPdf`), and the raw lines of the contents file.
- **Three outcomes for the destination file:**
  - `Untouched`: it is never opened.
  - `Aborted`: it is opened for writing, so emptied, and an exception is caught.
  - `Written`: the outline is written once the loop completes.

Where the docstrings and the code disagree, the model follows the code:

- **Flat mode.** The docstring (`pdf_outline.py:97-98`) says that setting both `toplevel_pattern` and `sublevel_pattern` defines a hierarchy, and that the same mechanism works for `subsublevel_pattern`. The code's test at `pdf_outline.py:64` is `not toplevel and sublevel`: with a sub-level pattern and no top-level one, every title is a parentless item and no pattern is consulted. The difference shows when a sub-level and a sub-sub-level pattern are given without a top-level one: the sub-sub-level pattern is then ignored, and so is the sub-level one (`FlatModeOutline`).
- **No patterns.** With neither a top-level nor a sub-level pattern, the first title calls `matchPattern(line, None)`, which raises `TypeError` (`NoLevelPatterns`, `NoPatternsExample`).
- **Unmatched titles.** The docstring says "any item that does not match any pattern is automatically a top level item". That holds only when no sub-sub-level pattern is set (`pdf_outline.py:80-83`). With one set, an unmatched title is dropped and its page line is never read (`UnmatchedTitle`, `DroppedTitleExample`).
- **Page lines are also examined.** The loop steps one line at a time, not two. A page line that is not all digits, such as "+1", is itself taken for a title (`PageLineAlsoTitleExample`).
- **The header check has no effect.** `reader` is assigned before the "Not a PDF file" exception is raised, and that exception is caught and only printed (`pdf_outline.py:44-52`). A source that `PdfReader` opens is used whatever its header says (`HeaderCheckIgnored`).
- **`child` is never reset.** `child` is set only by a sub-level node (`pdf_outline.py:72`), and a new top-level node does not clear it. A sub-sub-level item therefore hangs under the most recent sub-level node, whichever chapter that belongs to, or under the outline root if there has been none (`ParentLinkage`, `StaleChildExample`).

## Model

| member | source | states |
|---|---|---|
| Text.AllSpace | pdf_outline.py:10 | true exactly when every character is whitespace |
| Text.AllDigits | pdf_outline.py:10 | true exactly when every character is a decimal digit |
| Text.IsSpace | pdf_outline.py:10 | `str.isspace`: a non-empty string of whitespace (definition) |
| Text.IsNumeric | pdf_outline.py:10 | `str.isnumeric`: a non-empty string of decimal digits (definition) |
| Text.StripLeading | pdf_outline.py:59 | the result is a suffix of the line, what it drops is all whitespace, and it does not start with whitespace |
| Text.StripTrailing | pdf_outline.py:59 | the result is a prefix of the line, what it drops is all whitespace, and it does not end with whitespace |
| Text.Strip | pdf_outline.py:59 | the result is the line with an all-whitespace margin removed at each end, and has no whitespace at either end; it is empty exactly when the line is all whitespace; a line with no surrounding whitespace is returned unchanged |
| Text.StripIdempotent | pdf_outline.py:59 | stripping twice is stripping once |
| Text.ParseInt | pdf_outline.py:66 | accepts exactly a digit string, or a '+' or '-' followed by a digit string; the value is the digits' decimal value, negated after '-'; anything else is a ValueError |
| Text.ParseShowInt | pdf_outline.py:66 | every integer written in decimal reads back as itself |
| PdfOutline.Truthy | pdf_outline.py:127-132 | Python truthiness of an optional pattern, as tested here and at lines 64 and 75: neither None nor "" (definition) |
| PdfOutline.IsName | pdf_outline.py:5-12 | a line is a title exactly when it has a non-whitespace character and a non-digit character |
| PdfOutline.MatchPattern | pdf_outline.py:14-27 | a non-title gives false without touching the pattern; otherwise a None pattern raises TypeError, a pattern that does not compile raises re.error, and a pattern that compiles gives exactly whether it fully matches |
| PdfOutline.FlatMode | pdf_outline.py:64 | the test `not toplevel and sublevel` (definition; its consequences are FlatModeOutline) |
| PdfOutline.Classify | pdf_outline.py:63-83 | each branch of the if/elif chain, characterised by which matchPattern calls give true or false; flat mode exactly for a title under `not toplevel and sublevel`; it raises exactly when the first matchPattern call that does not give false raises, and with that call's TypeError or re.error |
| PdfOutline.PageNumber | pdf_outline.py:65-66 | a title on the last line raises IndexError; a next line int() rejects raises ValueError; it succeeds exactly otherwise, with int() of the next line |
| PdfOutline.Examine | pdf_outline.py:63-83 | the reference meaning of one loop iteration: the entry line j adds, or none, or the exception it raises (definition; its properties are ExamineSpec) |
| PdfOutline.ExamineSpec | pdf_outline.py:62-83 | a line adds a node exactly when it is a title that is not dropped; the node carries the line's text and the next line's integer; only the last line can raise IndexError |
| PdfOutline.FirstError | pdf_outline.py:62-88 | the exception that aborts the loop over the first n lines, or None (definition; its properties are FirstErrorSpec) |
| PdfOutline.FirstErrorSpec | pdf_outline.py:62-88 | None exactly when no line raises; otherwise the exception of the first line that raises |
| PdfOutline.Entries | pdf_outline.py:62-83 | the items the first n lines add, in line order (definition; its properties are EntriesSpec and EntriesComplete) |
| PdfOutline.EntriesSpec | pdf_outline.py:62-83 | the entries are in strictly increasing line order, and each one is the node its own line contributes |
| PdfOutline.EntriesComplete | pdf_outline.py:62-83 | every node a line contributes is among the entries |
| PdfOutline.EntriesGrow | pdf_outline.py:62-83 | a further line only appends to the entries |
| PdfOutline.LastOf | pdf_outline.py:69-73 | the index of the most recent entry of a level: that entry has the level, and no later entry does |
| PdfOutline.ParentOf | pdf_outline.py:72-79 | a node's parent handle always points to an earlier node |
| PdfOutline.Link | pdf_outline.py:65-83 | the writer's outline for a list of entries: one node per entry with its title, page and parent handle (definition; its properties are LinkAppend and LinkParents) |
| PdfOutline.Outline | pdf_outline.py:62-88 | the reference outline of a whole run: the first line's exception, or the linked entries (definition; BuildOutline is proved to compute it, and OutlineProperties states what it promises) |
| PdfOutline.FirstErrorPersists | pdf_outline.py:62-88 | once a line has raised, later lines do not change the run's exception |
| PdfOutline.OutlineFromSteps | pdf_outline.py:62-83 | when every line succeeds, the outline is read off the lines' contributions |
| PdfOutline.ExamineStep | pdf_outline.py:62-83 | one loop iteration: it either raises the run's exception, or extends the entries by at most the line's own entry |
| PdfOutline.ExamineFails | pdf_outline.py:62-88 | an exception on a line, with none before it, is the run's exception |
| PdfOutline.FirstErrorAt | pdf_outline.py:62-88 | an exception on a line, with none before it, is the first error up to that line |
| PdfOutline.OutlineOfError | pdf_outline.py:62-88 | a run with a first error fails with that exception |
| PdfOutline.LinkAppend | pdf_outline.py:65-83 | adding an entry appends one node whose parent is the current top-level or sub-level handle, and moves only the handle of its own level |
| PdfOutline.BuildOutline | pdf_outline.py:62-83 | the loop with its `parent` and `child` handles computes exactly the reference outline, or the exception that aborts it |
| PdfOutline.StrippedLines | pdf_outline.py:59 | `[line.strip() for line in c]`: one stripped line per raw line (definition) |
| PdfOutline.TableOfContents | pdf_outline.py:44-88 | the reference effect of one call on the destination: untouched without a source path, a source PdfReader opens, a destination or a contents path; emptied when reading the contents or the loop raises; otherwise written with the outline of the stripped lines (definition; RunOutcome states its cases) |
| PdfOutline.WriteTableOfContents | pdf_outline.py:29-88 | the method computes TableOfContents: the destination is left alone without a source path, a source PdfReader opens, a destination or a contents path, whatever the header check says; it is emptied when reading the contents or the loop raises; otherwise it is written with the loop's outline |
| PdfOutline.Normalise | pdf_outline.py:127-132 | a falsy pattern is stored as None and a truthy one unchanged |
| PdfOutline.GenerateOutline | pdf_outline.py:114-135 | returns true exactly when no path is empty; with an empty path nothing happens; otherwise the run is writeTableOfContents on the three paths and the normalised patterns |
| OutlineProperties.StrippedTitle | pdf_outline.py:59-63 | a stripped line is a title exactly when it is non-empty and not all digits |
| OutlineProperties.DecimalPageIsNotTitle | pdf_outline.py:63-66 | a page number written in decimal is never a title and reads back as itself |
| OutlineProperties.NonTitleNeverMatches | pdf_outline.py:20-21 | a non-title matches no pattern, even a missing one, and is skipped |
| OutlineProperties.OutlineFailsAtFirstError | pdf_outline.py:62-88 | the run fails exactly when some line raises, and then with the first such line's exception |
| OutlineProperties.FirstFailureAborts | pdf_outline.py:62-88 | a raising line after lines that do not raise aborts the run with its exception |
| OutlineProperties.FailingLineIsFirstError | pdf_outline.py:62-88 | such a line's exception is the first error up to and including that line |
| OutlineProperties.TitleOnLastLine | pdf_outline.py:66 | an emitted title on the last line aborts the run with IndexError |
| OutlineProperties.NonIntegerPage | pdf_outline.py:66 | an emitted title followed by a line int() rejects aborts the run with ValueError |
| OutlineProperties.NoLevelPatterns | pdf_outline.py:64-68 | with no top-level and no sub-level pattern, any title aborts the run with TypeError, and a contents with no title builds an empty outline |
| OutlineProperties.MissingSublevelPattern | pdf_outline.py:68-71 | with a top-level pattern but no sub-level one, a title the top-level pattern rejects aborts the run with TypeError |
| OutlineProperties.NodeProvenance | pdf_outline.py:62-83 | one node per entry, in line order; each node is a title line with the next line's integer as its page; the lines with nodes are exactly the titles that are not dropped |
| OutlineProperties.EntryLines | pdf_outline.py:62-83 | each entry is a title line classified as its level, followed by its page line |
| OutlineProperties.EmittingLines | pdf_outline.py:62-83 | when no line raises, the lines with entries are exactly the titles that are not dropped |
| OutlineProperties.EmittingLine | pdf_outline.py:62-83 | the same, for one line |
| OutlineProperties.FlatModeOutline | pdf_outline.py:64-66 | in flat mode the run succeeds exactly when every title has a page line with an integer; every title is then one parentless node, and neither handle is ever set |
| OutlineProperties.FlatModeFailure | pdf_outline.py:64-66 | in flat mode the run succeeds exactly when every title has a page line with an integer |
| OutlineProperties.FlatModeNodes | pdf_outline.py:64-66 | a successful flat-mode run has one parentless flat node per title and never sets either handle |
| OutlineProperties.UnmatchedTitle | pdf_outline.py:75-83 | a title no level pattern matches is a parentless node without a sub-sub-level pattern; with one that also fails, the title is dropped and its next line is not read |
| OutlineProperties.ParentLinkage | pdf_outline.py:68-79 | every parent is an earlier node; top-level, flat and fallback nodes have none; a sub-level node hangs under the most recent top-level node, and a sub-sub-level node under the most recent sub-level node |
| OutlineProperties.LinkParents | pdf_outline.py:68-79 | the same parent rules for any list of entries |
| OutlineProperties.RunOutcome | pdf_outline.py:44-88 | the destination is untouched exactly when PdfReader cannot open the source or a path is missing; once it is opened, an unreadable contents file aborts the run; it is written exactly when the contents read and the loop completes, with that loop's outline |
| OutlineProperties.HeaderCheckIgnored | pdf_outline.py:44-52 | whether the source's header names "pdf" never changes the outcome: a source PdfReader opens with a non-PDF header is still used |
| OutlineExamples.NumberLines | pdf_outline.py:63 | lines of digits add no node |
| OutlineExamples.LetterLine | pdf_outline.py:5-12 | a line that starts with a letter is a title |
| OutlineExamples.TitleAt | pdf_outline.py:62-83 | a classified, emitted title followed by an integer line is one entry on that page |
| OutlineExamples.FlatExample | pdf_outline.py:64-66 | "A","1","B","2" with only a sub-level pattern gives two parentless nodes on pages 1 and 2 |
| OutlineExamples.NoPatternsExample | pdf_outline.py:64-68 | the same contents with no patterns raises TypeError |
| OutlineExamples.PageLineAlsoTitleExample | pdf_outline.py:62-66 | "A","+1","2" in flat mode gives two nodes: "A" on page 1 and "+1" on page 2 |
| OutlineExamples.MalformedExamples | pdf_outline.py:66 | a lone title raises IndexError; a title followed by "abc" raises ValueError |
| OutlineExamples.HierarchyExample | pdf_outline.py:68-74 | chapter, section, chapter: the section hangs under the first chapter |
| OutlineExamples.StaleChildExample | pdf_outline.py:72-79 | an item after "Chapter 2" hangs under "Section 1.1" of chapter 1 |
| OutlineExamples.DroppedTitleExample | pdf_outline.py:75-79 | with a sub-sub-level pattern, an unmatched title on the last line is dropped without IndexError |
| OutlineExamples.FallbackTitleExample | pdf_outline.py:80-83 | without one, the same title is a parentless node, or IndexError on the last line |

## Left out

- The PDF library (`pypdf`) is not modelled: opening the source and its header check become `Env.sourceOpens` and `Env.headerNamesPdf`, and the cloned document and its pages become the node list. Whether a page number is within the document's pages is not checked; `add_outline_item` would raise or wrap for one that is not. Any outline already in the source is not modelled.
- Writing the file: `writer.write` is assumed to succeed, and the bytes written are not modelled.
- `open(d["dst"], "wb")` at `pdf_outline.py:53` is outside the `try`, so its `OSError` escapes to the caller. It is not modelled.
- An exception from `PdfWriter(clone_from=reader)` is not modelled: cloning is assumed to succeed once the source has opened.
- Reading the contents file and splitting it into lines is an input: `Env.contentsFile` holds the raw lines.
- `os.path.abspath` is not modelled: the paths are stored as given, because the model never resolves a path.
- The `print` calls only report caught exceptions and are not modelled.
- The regular-expression language is not modelled: `Engine` is a parameter, and only `compiles` and `fullmatch` are used.
- Text.IsSpace, Text.IsNumeric, Text.Strip, Text.StripLeading, Text.StripTrailing and Text.ParseInt: ASCII only. Unicode whitespace (such as U+00A0 and U+3000, which `str.strip` removes), Unicode numeric characters, and the underscores `int()` accepts between digits are not modelled.
- `grandchild` (`pdf_outline.py:42`, `77`) is assigned but never read, so it is not modelled.
- Concurrency and the file system's state between calls are not modelled.
