/**
 * Classification of watcher events by their tags, and the two event filters
 * built from the classifiers. An event is a list of tags; the tag alphabet
 * below is closed and keeps only the payload the classifiers look at.
 */
module Filters {
  import opened Strings
  import opened Wrappers

  /** Signals a process can receive or report. */
  datatype SignalName = Hangup | ForceStop | Interrupt | Quit | Terminate | User1 | User2 | Custom(number: int)

  /** How a supervised process ended. */
  datatype ProcessEnd =
    | Success
    | ExitError(code: int)
    | ExitSignal(signal: SignalName)
    | ExitStop(code: int)
    | Exception(code: int)
    | Continued

  /** The kind of a content modification; only `Data` counts as a change of the file. */
  datatype ModifyKind = AnyModify | Data | Metadata | Name | OtherModify

  /** The kind of a filesystem event. */
  datatype FileKind = AnyKind | Access | Create | Modify(change: ModifyKind) | Remove | OtherKind

  /** A path as the operating system hands it over: valid UTF-8 text or not. */
  datatype OsPath = Utf8(text: string) | NonUtf8

  datatype Tag =
    | Path(path: OsPath)
    | FileEventKind(kind: FileKind)
    | Source
    | Keyboard
    | Process(pid: nat)
    | Signal(signal: SignalName)
    | ProcessCompletion(end: Option<ProcessEnd>)
    | Unknown

  datatype Event = Event(tags: seq<Tag>)

  /** The early-return loop over an event's tags: does some tag satisfy `p`? */
  predicate AnyTag(tags: seq<Tag>, p: Tag -> bool)
    ensures AnyTag(tags, p) <==> exists i :: 0 <= i < |tags| && p(tags[i])
    decreases |tags|
  {
    if |tags| == 0 then false
    else if p(tags[0]) then true
    else
      assert forall i :: 1 <= i < |tags| ==> tags[i] == tags[1..][i - 1];
      AnyTag(tags[1..], p)
  }

  predicate IsCompletionTag(t: Tag) {
    t.ProcessCompletion?
  }

  predicate IsModificationTag(t: Tag) {
    t == FileEventKind(Create) || (t.FileEventKind? && t.kind.Modify? && t.kind.change == Data)
  }

  /** The source extensions the domain filter lets through (compared case-sensitively). */
  const CppExtensions: set<string> := {"c", "h", "cpp", "hpp", "cc", "hh"}

  /**
   * The last `.`-separated segment of a path's text; a non-UTF-8 path gives
   * the empty string.
   */
  function Extension(path: OsPath): (ext: string)
    ensures path.NonUtf8? ==> ext == ""
    ensures path.Utf8? ==>
      var s := path.text;
      && |ext| <= |s| && ext == s[|s| - |ext|..] && '.' !in ext
      && (|ext| < |s| ==> s[|s| - |ext| - 1] == '.')
  {
    match path
    case NonUtf8 => ""
    case Utf8(s) =>
      var parts := Split(s, '.');
      LastPart(s, '.');
      parts[|parts| - 1]
  }

  predicate IsCppPathTag(t: Tag) {
    t.Path? && Extension(t.path) in CppExtensions
  }

  predicate IsProcessReport(e: Event)
    ensures IsProcessReport(e) <==> exists i :: 0 <= i < |e.tags| && e.tags[i].ProcessCompletion?
  {
    AnyTag(e.tags, IsCompletionTag)
  }

  predicate IsFileModification(e: Event)
    ensures IsFileModification(e) <==>
      exists i :: 0 <= i < |e.tags| &&
        (e.tags[i] == FileEventKind(Create) || e.tags[i] == FileEventKind(Modify(Data)))
  {
    AnyTag(e.tags, IsModificationTag)
  }

  predicate IsCppFile(e: Event)
    ensures IsCppFile(e) <==>
      exists i :: 0 <= i < |e.tags| && e.tags[i].Path? && e.tags[i].path.Utf8? &&
        Extension(e.tags[i].path) in CppExtensions
  {
    AnyTag(e.tags, IsCppPathTag)
  }

  /** The signals that end the watcher: interrupt and terminate, and none of the others. */
  predicate IsStopSignal(s: SignalName)
    ensures IsStopSignal(s) <==> !(s.Hangup? || s.ForceStop? || s.Quit? || s.User1? || s.User2? || s.Custom?)
  {
    s == Interrupt || s == Terminate
  }

  /**
   * The filter the watcher installs: process reports, and modifications of
   * C/C++ sources; the modification and the path may be different tags.
   */
  predicate ExtensionsFilterAccepts(e: Event)
    ensures ExtensionsFilterAccepts(e) <==>
      (exists i :: 0 <= i < |e.tags| && e.tags[i].ProcessCompletion?)
      || ((exists i :: 0 <= i < |e.tags| && (e.tags[i] == FileEventKind(Create) || e.tags[i] == FileEventKind(Modify(Data))))
          && (exists j :: 0 <= j < |e.tags| && e.tags[j].Path? && e.tags[j].path.Utf8? &&
                Extension(e.tags[j].path) in CppExtensions))
  {
    IsProcessReport(e) || (IsFileModification(e) && IsCppFile(e))
  }

  /** The broader filter: process reports and any file modification. */
  predicate ModificationFilterAccepts(e: Event)
    ensures ModificationFilterAccepts(e) <==>
      exists i :: 0 <= i < |e.tags| &&
        (e.tags[i].ProcessCompletion? || (e.tags[i] == FileEventKind(Create) || e.tags[i] == FileEventKind(Modify(Data))))
  {
    IsProcessReport(e) || IsFileModification(e)
  }

  /** Whatever the extension filter lets through, the modification filter lets through too. */
  lemma ExtensionsFilterNarrower(e: Event)
    ensures ExtensionsFilterAccepts(e) ==> ModificationFilterAccepts(e)
  {
  }

  /** Whatever precedes the last dot, the extension is exactly the dot-free text after it. */
  lemma ExtensionAfterLastDot(stem: string, ext: string)
    requires '.' !in ext
    ensures Extension(Utf8(stem + "." + ext)) == ext
  {
    var s := stem + "." + ext;
    var l := Extension(Utf8(s));
    assert forall j :: |s| - |l| <= j < |s| ==> s[j] == l[j - (|s| - |l|)] != '.';
    assert s[|stem|] == '.';
    assert l == s[|s| - |ext|..] == ext;
  }

  lemma ExtensionExamples()
    ensures Extension(Utf8("src/main.cpp")) == "cpp"
    ensures Extension(Utf8("archive.tar.gz")) == "gz"
    ensures Extension(Utf8("notes.")) == ""
  {
    ExtensionAfterLastDot("src/main", "cpp");
    assert "src/main" + "." + "cpp" == "src/main.cpp";
    ExtensionAfterLastDot("archive.tar", "gz");
    assert "archive.tar" + "." + "gz" == "archive.tar.gz";
    ExtensionAfterLastDot("notes", "");
    assert "notes" + "." + "" == "notes.";
  }

  /** A path with no dot is a C/C++ path only when its whole text is one of the extensions. */
  lemma {:induction false} DotFreeExtension(s: string)
    requires '.' !in s
    ensures Extension(Utf8(s)) == s
  {
    SplitNoSeparator(s, '.');
  }

  /**
   * A single path tag is a C/C++ path exactly when the text after its last
   * dot is one of the extensions, compared case-sensitively.
   */
  lemma CppPathByExtension(stem: string, ext: string)
    requires '.' !in ext
    ensures IsCppFile(Event([Path(Utf8(stem + "." + ext))])) <==> ext in CppExtensions
    ensures ext == "CPP" ==> !IsCppFile(Event([Path(Utf8(stem + "." + ext))]))
  {
    ExtensionAfterLastDot(stem, ext);
    var e := Event([Path(Utf8(stem + "." + ext))]);
    assert e.tags[0] == Path(Utf8(stem + "." + ext));
  }

  /** A path that is not valid UTF-8 never matches. */
  lemma NonUtf8NeverMatches(e: Event)
    requires forall i :: 0 <= i < |e.tags| ==> e.tags[i].Path? ==> e.tags[i].path.NonUtf8?
    ensures !IsCppFile(e)
  {
  }

  /**
   * Only creations and data modifications count: an event whose kind tags
   * are all of other kinds (access, removal, metadata, rename, any, other),
   * whatever its other tags, is not a modification.
   */
  lemma OtherKindsAreNotModifications(e: Event)
    requires forall i :: 0 <= i < |e.tags| && e.tags[i].FileEventKind? ==>
      e.tags[i] != FileEventKind(Create) && e.tags[i] != FileEventKind(Modify(Data))
    ensures !IsFileModification(e)
    ensures forall k: FileKind :: k != Create && k != Modify(Data) ==> !IsFileModification(Event([FileEventKind(k)]))
  {
  }

  /** Example: the path tag and the modification tag that let an event through need not be the same tag. */
  lemma SeparateTagsSuffice()
    ensures ExtensionsFilterAccepts(Event([FileEventKind(Create), Path(Utf8("a.h"))]))
  {
    var e := Event([FileEventKind(Create), Path(Utf8("a.h"))]);
    assert e.tags[0] == FileEventKind(Create);
    ExtensionAfterLastDot("a", "h");
    assert "a" + "." + "h" == "a.h";
    assert e.tags[1].Path?;
  }
}
