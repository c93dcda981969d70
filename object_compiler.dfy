/** The object compiler (`CreateCrossplaneObject`): every kept manifest of the
    working directory is classified, re-indented, wrapped in the object envelope
    and appended to exactly one of three output files, which are normalised at
    the end.

    RunFiles is the specification of one run, file by file in listing order;
    Collected is an independent per-stream description of the same output; the
    class PlatformPackage is the imperative run, proved against RunFiles. */
module ObjectCompiler {
  import opened Wrappers
  import opened Text
  import opened HookFilter
  import opened Kind
  import opened Indent
  import opened Normalize
  import opened Templates

  /** What ends a run early: a kept file whose name has no `_` (the kind
      computation indexes a missing segment), or a failed template execution. */
  datatype Fatal = MalformedName(file: string) | RenderFailed(file: string)

  /** What happens to one directory entry: skipped, rendered into one stream, or fatal. */
  datatype Fate = Skipped | Routed(stream: Stream, block: string) | Aborted(reason: Fatal)

  /** The contents of the three output files. */
  datatype Streams = Streams(objectOut: string, crdOut: string, secretOut: string)
  {
    function Get(s: Stream): string
    {
      match s
      case ObjectStream => objectOut
      case CrdStream => crdOut
      case SecretStream => secretOut
    }

    /** Appending a block changes the chosen stream and no other. */
    function Append(s: Stream, block: string): (r: Streams)
      ensures r.Get(s) == Get(s) + block
      ensures forall s' :: s' != s ==> r.Get(s') == Get(s')
    {
      match s
      case ObjectStream => this.(objectOut := objectOut + block)
      case CrdStream => this.(crdOut := crdOut + block)
      case SecretStream => this.(secretOut := secretOut + block)
    }

    /** Every stream passed through the blank-line normaliser. */
    function Normalized(): Streams
    {
      Streams(RemoveEmptyLines(objectOut), RemoveEmptyLines(crdOut), RemoveEmptyLines(secretOut))
    }
  }

  /** The three output files freshly truncated. */
  const NoOutput: Streams := Streams("", "", "")

  /** The fate of one entry; it depends on the package name, the templates and
      that entry alone. */
  function FileFate(pkg: string, t: TemplateSet, entry: DirEntry): Fate
  {
    if ShouldSkipFile(entry) then Skipped
    else match Classify(entry.name)
      case None => Aborted(MalformedName(entry.name))
      case Some(kind) =>
        match t.wrapper(pkg, kind, IndentContent(entry.read.content))
        case None => Aborted(RenderFailed(entry.name))
        case Some(block) => Routed(Route(kind), block)
  }

  /** The state of a run: the output written so far, and whether it was cut short. */
  datatype Run = Run(out: Streams, fatal: Option<Fatal>)

  /** A run over the entries in listing order, before normalisation: each
      routed block is appended to its stream; the first fatal entry ends the run. */
  function RunFiles(pkg: string, t: TemplateSet, entries: seq<DirEntry>): Run
    decreases |entries|
  {
    if |entries| == 0 then Run(NoOutput, None)
    else
      var prev := RunFiles(pkg, t, entries[..|entries| - 1]);
      if prev.fatal.Some? then prev
      else match FileFate(pkg, t, entries[|entries| - 1])
        case Skipped => prev
        case Aborted(reason) => Run(prev.out, Some(reason))
        case Routed(s, block) => Run(prev.out.Append(s, block), None)
  }

  /** What one entry adds to stream `s`. */
  function Contribution(pkg: string, t: TemplateSet, entry: DirEntry, s: Stream): string
  {
    match FileFate(pkg, t, entry)
    case Routed(s', block) => if s' == s then block else ""
    case _ => ""
  }

  /** Stream `s` described on its own: the blocks of the entries routed to it, in order. */
  function Collected(pkg: string, t: TemplateSet, entries: seq<DirEntry>, s: Stream): string
    decreases |entries|
  {
    if |entries| == 0 then ""
    else Contribution(pkg, t, entries[0], s) + Collected(pkg, t, entries[1..], s)
  }

  /** All rendered blocks, in order, whatever their stream. It serves only as
      the length bound of StreamsPartitionBlocks; RoutedToOneStream with
      CollectedAppend says more, block by block. */
  function AllBlocks(pkg: string, t: TemplateSet, entries: seq<DirEntry>): string
    decreases |entries|
  {
    if |entries| == 0 then ""
    else
      (match FileFate(pkg, t, entries[0]) case Routed(_, block) => block case _ => "") +
      AllBlocks(pkg, t, entries[1..])
  }

  /** Collecting a concatenation of directory listings. */
  lemma {:induction false} CollectedAppend(pkg: string, t: TemplateSet, a: seq<DirEntry>, b: seq<DirEntry>, s: Stream)
    ensures Collected(pkg, t, a + b, s) == Collected(pkg, t, a, s) + Collected(pkg, t, b, s)
    decreases |a|
  {
    if |a| == 0 {
      assert a + b == b;
    } else {
      assert (a + b)[1..] == a[1..] + b;
      CollectedAppend(pkg, t, a[1..], b, s);
    }
  }

  /** A run that is not cut short writes to each stream exactly the blocks of
      the entries routed to it, in listing order, and nothing else. */
  lemma {:induction false} RunFilesCollects(pkg: string, t: TemplateSet, entries: seq<DirEntry>)
    requires RunFiles(pkg, t, entries).fatal.None?
    ensures forall s :: RunFiles(pkg, t, entries).out.Get(s) == Collected(pkg, t, entries, s)
    decreases |entries|
  {
    if |entries| > 0 {
      var n := |entries|;
      var init := entries[..n - 1];
      assert entries == init + [entries[n - 1]];
      RunFilesCollects(pkg, t, init);
      forall s ensures RunFiles(pkg, t, entries).out.Get(s) == Collected(pkg, t, entries, s) {
        CollectedAppend(pkg, t, init, [entries[n - 1]], s);
        assert Collected(pkg, t, [entries[n - 1]], s) == Contribution(pkg, t, entries[n - 1], s);
      }
    }
  }

  /** A run completes exactly when no entry is fatal. */
  lemma {:induction false} RunFilesCompletes(pkg: string, t: TemplateSet, entries: seq<DirEntry>)
    ensures RunFiles(pkg, t, entries).fatal.None? <==>
      forall i :: 0 <= i < |entries| ==> !FileFate(pkg, t, entries[i]).Aborted?
    decreases |entries|
  {
    if |entries| > 0 {
      var n := |entries|;
      var init := entries[..n - 1];
      RunFilesCompletes(pkg, t, init);
      assert forall i :: 0 <= i < n - 1 ==> init[i] == entries[i];
    }
  }

  /** Once a run is cut short, later entries change nothing. */
  lemma {:induction false} FatalIsFinal(pkg: string, t: TemplateSet, entries: seq<DirEntry>, j: nat)
    requires j <= |entries|
    requires RunFiles(pkg, t, entries[..j]).fatal.Some?
    ensures RunFiles(pkg, t, entries) == RunFiles(pkg, t, entries[..j])
    decreases |entries| - j
  {
    if j < |entries| {
      assert entries[..j + 1][..j] == entries[..j];
      FatalIsFinal(pkg, t, entries, j + 1);
    } else {
      assert entries[..j] == entries;
    }
  }

  /** A run cut short holds the output of the entries before the first fatal
      one, and reports that entry's reason. */
  lemma {:induction false} RunFilesStopsAtFirstFatal(pkg: string, t: TemplateSet, entries: seq<DirEntry>)
    requires RunFiles(pkg, t, entries).fatal.Some?
    ensures exists j :: (0 <= j < |entries| &&
      FileFate(pkg, t, entries[j]).Aborted? &&
      RunFiles(pkg, t, entries[..j]).fatal.None? &&
      RunFiles(pkg, t, entries) == Run(RunFiles(pkg, t, entries[..j]).out, Some(FileFate(pkg, t, entries[j]).reason)))
    decreases |entries|
  {
    var n := |entries|;
    var init := entries[..n - 1];
    if RunFiles(pkg, t, init).fatal.Some? {
      RunFilesStopsAtFirstFatal(pkg, t, init);
      var j :| 0 <= j < |init| &&
        FileFate(pkg, t, init[j]).Aborted? &&
        RunFiles(pkg, t, init[..j]).fatal.None? &&
        RunFiles(pkg, t, init) == Run(RunFiles(pkg, t, init[..j]).out, Some(FileFate(pkg, t, init[j]).reason));
      assert init[..j] == entries[..j];
      assert RunFiles(pkg, t, entries) == RunFiles(pkg, t, init);
    } else {
      assert entries[..n - 1] == init;
    }
  }

  /** A skipped entry (a directory, an unreadable file or a hook manifest) adds
      nothing to any stream. */
  lemma SkippedAddsNothing(pkg: string, t: TemplateSet, a: seq<DirEntry>, entry: DirEntry, b: seq<DirEntry>, s: Stream)
    requires ShouldSkipFile(entry)
    ensures Collected(pkg, t, a + [entry] + b, s) == Collected(pkg, t, a + b, s)
  {
    CollectedAppend(pkg, t, a + [entry], b, s);
    CollectedAppend(pkg, t, a, [entry], s);
    CollectedAppend(pkg, t, a, b, s);
    assert FileFate(pkg, t, entry) == Skipped;
    assert Contribution(pkg, t, entry, s) == "";
    assert [entry][1..] == [];
    assert Collected(pkg, t, [entry], s) == Contribution(pkg, t, entry, s) + Collected(pkg, t, [], s);
  }

  /** A routed entry adds its block to its own stream and nothing to the other two. */
  lemma RoutedToOneStream(pkg: string, t: TemplateSet, entry: DirEntry, s: Stream, block: string)
    requires FileFate(pkg, t, entry) == Routed(s, block)
    ensures Contribution(pkg, t, entry, s) == block
    ensures forall s' :: s' != s ==> Contribution(pkg, t, entry, s') == ""
  {
  }

  /** The three streams together hold exactly as much text as all rendered blocks. */
  lemma {:induction false} StreamsPartitionBlocks(pkg: string, t: TemplateSet, entries: seq<DirEntry>)
    ensures |Collected(pkg, t, entries, ObjectStream)| + |Collected(pkg, t, entries, CrdStream)| +
            |Collected(pkg, t, entries, SecretStream)| == |AllBlocks(pkg, t, entries)|
    decreases |entries|
  {
    if |entries| > 0 {
      StreamsPartitionBlocks(pkg, t, entries[1..]);
    }
  }

  /** One compilation run: the package record (name, kind, content buffer) and
      the three output files it appends to. */
  class PlatformPackage {
    const name: string
    const templates: TemplateSet
    var kind: string
    var content: string
    var objectFile: string
    var crdFile: string
    var secretFile: string

    /** The three output files. */
    function Files(): Streams
      reads this
    {
      Streams(objectFile, crdFile, secretFile)
    }

    /** A new record with its three output files truncated. */
    constructor (name: string, templates: TemplateSet)
      ensures this.name == name && this.templates == templates
      ensures kind == "" && content == "" && Files() == NoOutput
    {
      this.name := name;
      this.templates := templates;
      kind := "";
      content := "";
      objectFile, crdFile, secretFile := "", "", "";
    }

    /** The indent loop: each line, padded and newline-terminated, is appended to the buffer. */
    method WriteIndented(lines: seq<string>)
      modifies this`content
      ensures content == old(content) + IndentLines(lines)
    {
      for i := 0 to |lines|
        invariant content == old(content) + IndentLines(lines[..i])
      {
        IndentLinesSnoc(lines[..i], lines[i]);
        assert lines[..i + 1] == lines[..i] + [lines[i]];
        content := content + Pad + lines[i] + "\n";
      }
      assert lines[..|lines|] == lines;
    }

    /** Appends a rendered block to the output file of stream `s`. */
    method WriteTo(s: Stream, block: string)
      modifies this`objectFile, this`crdFile, this`secretFile
      ensures Files() == old(Files()).Append(s, block)
    {
      match s
      case ObjectStream => objectFile := objectFile + block;
      case CrdStream => crdFile := crdFile + block;
      case SecretStream => secretFile := secretFile + block;
    }

    /** Processes the entries in listing order; on success the three files are
        normalised, on a fatal entry they keep what was written before it. */
    method Compile(entries: seq<DirEntry>) returns (fatal: Option<Fatal>)
      requires content == "" && Files() == NoOutput
      modifies this
      ensures var run := RunFiles(name, templates, entries);
        fatal == run.fatal &&
        Files() == (if fatal.None? then run.out.Normalized() else run.out)
    {
      var i := 0;
      while i < |entries|
        invariant 0 <= i <= |entries|
        invariant content == ""
        invariant RunFiles(name, templates, entries[..i]) == Run(Files(), None)
      {
        var entry := entries[i];
        assert entries[..i + 1][..i] == entries[..i];
        assert entries[..i + 1][i] == entry;
        if !ShouldSkipFile(entry) {
          var classified := Classify(entry.name);
          if classified.None? {
            fatal := Some(MalformedName(entry.name));
            FatalIsFinal(name, templates, entries, i + 1);
            return;
          }
          kind := classified.value;
          var lines := Split(entry.read.content, '\n');
          WriteIndented(lines);
          assert content == IndentContent(entry.read.content);
          var stream := Route(kind);
          var rendered := templates.wrapper(name, kind, content);
          if rendered.None? {
            assert FileFate(name, templates, entry) == Aborted(RenderFailed(entry.name));
            fatal := Some(RenderFailed(entry.name));
            FatalIsFinal(name, templates, entries, i + 1);
            return;
          }
          WriteTo(stream, rendered.value);
          content := "";
        }
        i := i + 1;
      }
      assert entries[..i] == entries;
      objectFile := RemoveEmptyLines(objectFile);
      crdFile := RemoveEmptyLines(crdFile);
      secretFile := RemoveEmptyLines(secretFile);
      fatal := None;
    }
  }

  /** A whole run of the object compiler for package `name` over the listed
      entries: the final contents of the object, CRD and secret files, and the
      fatal condition that ended the run early, if any. */
  method CreateCrossplaneObject(name: string, templates: TemplateSet, entries: seq<DirEntry>)
    returns (objectFile: string, crdFile: string, secretFile: string, fatal: Option<Fatal>)
    ensures var run := RunFiles(name, templates, entries);
      fatal == run.fatal &&
      Streams(objectFile, crdFile, secretFile) == (if fatal.None? then run.out.Normalized() else run.out)
  {
    var p := new PlatformPackage(name, templates);
    fatal := p.Compile(entries);
    objectFile, crdFile, secretFile := p.objectFile, p.crdFile, p.secretFile;
  }
}
