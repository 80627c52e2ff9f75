/**
 * The decision rule of the save handler: which saved documents get the
 * cleanup command. Everything here is a pure function of the package's
 * flags, the command's availability and the saved document.
 */
module SaveFilter {
  import opened Wrappers
  import opened Host

  /** The name the IDE gives the pseudo-project that holds files opened outside any project. */
  const MiscellaneousFiles := "Miscellaneous Files"

  /** The extensions whose documents are cleaned up, in lower case. */
  const AllowedFileExtensions: seq<string> :=
    [".cs", ".xaml", ".vb", ".js", ".ts", ".css", ".html", ".xml", ".json", ".cpp", ".h", ".c"]

  /** The characters that end the file-name part of a path: directory, alternative directory and volume separators. */
  predicate IsSeparator(c: char) {
    c == '\\' || c == '/' || c == ':'
  }

  /** Position `i` of `path` holds a '.'. */
  predicate DotAt(path: string, i: int) {
    0 <= i < |path| && path[i] == '.'
  }

  /** ASCII lower-casing of one character. */
  function LowerChar(c: char): char {
    if 'A' <= c <= 'Z' then (c as int + 32) as char else c
  }

  /** ASCII lower-casing of a string, character by character. */
  function ToLower(s: string): (r: string)
    ensures |r| == |s|
    ensures forall i :: 0 <= i < |s| ==> r[i] == LowerChar(s[i])
  {
    seq(|s|, i requires 0 <= i < |s| => LowerChar(s[i]))
  }

  /**
   * Scans `path[..end]` from the back, as the framework's extension lookup
   * does: the index of the last '.' with no separator after it, or None when a
   * separator or the start of the path comes first.
   */
  function LastDot(path: string, end: nat): (r: Option<nat>)
    requires end <= |path|
    ensures r.Some? ==> r.value < end && path[r.value] == '.'
    ensures r.Some? ==> forall j :: r.value < j < end ==> path[j] != '.' && !IsSeparator(path[j])
    ensures r.None? ==> forall i :: 0 <= i < end && DotAt(path, i) ==> exists j :: i < j < end && IsSeparator(path[j])
    decreases end
  {
    if end == 0 then None
    else if path[end - 1] == '.' then Some(end - 1)
    else if IsSeparator(path[end - 1]) then None
    else LastDot(path, end - 1)
  }

  /** A proper extension of `path`: a suffix that is a '.' followed by at least one character, none of them a '.' or a separator. */
  ghost predicate IsExtensionOf(e: string, path: string) {
    2 <= |e| <= |path| && e == path[|path| - |e|..] && e[0] == '.' &&
    forall k :: 1 <= k < |e| ==> e[k] != '.' && !IsSeparator(e[k])
  }

  /**
   * The extension of a path, '.' included: the suffix from the last '.' of the
   * file name on, or empty when the file name has no '.' or ends with one.
   */
  function Extension(path: string): (r: string)
    ensures r != [] ==> IsExtensionOf(r, path)
    ensures r == [] <==>
      (|path| > 0 && path[|path| - 1] == '.') ||
      forall i :: 0 <= i < |path| && DotAt(path, i) ==> exists j :: i < j < |path| && IsSeparator(path[j])
  {
    match LastDot(path, |path|)
    case None => ""
    case Some(k) => if k == |path| - 1 then "" else assert DotAt(path, k); path[k..]
  }

  /** The extension test of the save handler: the lower-cased extension is in the allow-list. */
  function IsAllowedExtension(path: string): (r: bool)
    ensures r <==> exists e :: e in AllowedFileExtensions && EndsWith(ToLower(path), e)
  {
    AllowedExtensionIffSuffix(path);
    ToLower(Extension(path)) in AllowedFileExtensions
  }

  /**
   * A miscellaneous document: the name of its containing project, with a
   * missing project read as "Miscellaneous Files", is "Miscellaneous Files".
   */
  function IsMiscDoc(doc: Document): (r: bool)
    ensures r <==> doc.containingProject.None? || doc.containingProject.value.name == MiscellaneousFiles
  {
    ProjectName(doc).GetOr(MiscellaneousFiles) == MiscellaneousFiles
  }

  /** `doc.ProjectItem.ContainingProject?.Name`: the containing project's name, None when there is no project. */
  function ProjectName(doc: Document): Option<string> {
    match doc.containingProject
    case Some(p) => Some(p.name)
    case None => None
  }

  /**
   * The guard of the save handler: the save is ignored when the solution is
   * closing, a build runs, the command is missing (None) or unavailable, the
   * document is read-only or miscellaneous, or its extension is not allowed.
   * Its contract states the other side, each condition on its own: the save
   * is handled exactly when the solution is open, no build runs, the command
   * exists and is available, the document is writable, it belongs to a real
   * project, and its lower-cased path ends with an allowed extension.
   */
  function SkipsCleanup(solutionClosing: bool, building: bool, commandAvailable: Option<bool>, doc: Document): (r: bool)
    ensures !r <==>
      && !solutionClosing
      && !building
      && commandAvailable == Some(true)
      && !doc.readOnly
      && doc.containingProject.Some? && doc.containingProject.value.name != MiscellaneousFiles
      && exists e :: e in AllowedFileExtensions && EndsWith(ToLower(doc.fullName), e)
  {
    var available := commandAvailable.GetOr(false);
    assert available <==> commandAvailable == Some(true);
    solutionClosing
    || building
    || !available
    || doc.readOnly
    || IsMiscDoc(doc)
    || !IsAllowedExtension(doc.fullName)
  }

  predicate EndsWith(s: string, suffix: string) {
    |suffix| <= |s| && s[|s| - |suffix|..] == suffix
  }

  /** Every allowed extension is a '.' followed by lower-case letters. */
  lemma AllowedExtensionsAreLowerCaseWords()
    ensures forall e :: e in AllowedFileExtensions ==>
      2 <= |e| && e[0] == '.' && forall k :: 1 <= k < |e| ==> 'a' <= e[k] <= 'z'
  {
  }

  /** Lower-casing commutes with taking a suffix. */
  lemma ToLowerSuffix(s: string, n: nat)
    requires n <= |s|
    ensures ToLower(s)[n..] == ToLower(s[n..])
  {
    assert |ToLower(s)[n..]| == |ToLower(s[n..])|;
    forall k | 0 <= k < |s| - n
      ensures ToLower(s)[n..][k] == ToLower(s[n..])[k]
    {
    }
  }

  /** The lower-cased path ends with the lower-cased extension. */
  lemma ExtensionIsLowerSuffix(path: string)
    ensures EndsWith(ToLower(path), ToLower(Extension(path)))
  {
    var x := Extension(path);
    if x != [] {
      ToLowerSuffix(path, |path| - |x|);
    }
  }

  /** The backward scan stops at a '.' that only ordinary characters follow. */
  lemma {:induction false} LastDotFinds(path: string, end: nat, k: nat)
    requires k < end <= |path| && path[k] == '.'
    requires forall j :: k < j < end ==> path[j] != '.' && !IsSeparator(path[j])
    ensures LastDot(path, end) == Some(k)
    decreases end
  {
    if end - 1 != k {
      LastDotFinds(path, end - 1, k);
    }
  }

  /**
   * When the lower-cased path ends with a '.' followed by lower-case letters,
   * that suffix is the extension, whatever the case of the path.
   */
  lemma LowerWordSuffixIsExtension(path: string, e: string)
    requires 2 <= |e| && e[0] == '.' && forall k :: 1 <= k < |e| ==> 'a' <= e[k] <= 'z'
    requires EndsWith(ToLower(path), e)
    ensures ToLower(Extension(path)) == e
  {
    var k := |path| - |e|;
    LowerWordSuffixIsName(path, e);
    DotBeforeNameIsExtension(path, k);
    ToLowerSuffix(path, k);
    assert ToLower(path)[k..] == e;
  }

  /**
   * Under the same conditions, the suffix of the path itself is a '.'
   * followed by characters that are neither a '.' nor a separator.
   */
  lemma LowerWordSuffixIsName(path: string, e: string)
    requires 2 <= |e| && e[0] == '.' && forall k :: 1 <= k < |e| ==> 'a' <= e[k] <= 'z'
    requires EndsWith(ToLower(path), e)
    ensures path[|path| - |e|] == '.'
    ensures forall j :: |path| - |e| < j < |path| ==> path[j] != '.' && !IsSeparator(path[j])
  {
    EndsWithAt(ToLower(path), e, 0);
    LowerDotIsDot(path[|path| - |e|]);
    forall j | |path| - |e| < j < |path|
      ensures path[j] != '.' && !IsSeparator(path[j])
    {
      LowerWordCharIsOrdinary(path, e, j);
    }
  }

  /** A '.' followed by one or more characters, none a '.' or a separator, starts the extension. */
  lemma DotBeforeNameIsExtension(path: string, k: nat)
    requires k + 1 < |path| && path[k] == '.'
    requires forall j :: k < j < |path| ==> path[j] != '.' && !IsSeparator(path[j])
    ensures Extension(path) == path[k..]
  {
    LastDotFinds(path, |path|, k);
  }

  /** Under the same conditions, each character after the suffix's '.' is neither a '.' nor a separator. */
  lemma LowerWordCharIsOrdinary(path: string, e: string, j: int)
    requires 2 <= |e| && forall k :: 1 <= k < |e| ==> 'a' <= e[k] <= 'z'
    requires EndsWith(ToLower(path), e)
    requires |path| - |e| < j < |path|
    ensures path[j] != '.' && !IsSeparator(path[j])
  {
    var i := j - (|path| - |e|);
    EndsWithAt(ToLower(path), e, i);
    assert ToLower(path)[j] == e[i];
    assert 'a' <= LowerChar(path[j]) <= 'z';
    LowerLetterIsOrdinary(path[j]);
  }

  /** The characters of a suffix, read off the string that ends with it. */
  lemma EndsWithAt(s: string, suffix: string, i: nat)
    requires EndsWith(s, suffix) && i < |suffix|
    ensures s[|s| - |suffix| + i] == suffix[i]
  {
    assert s[|s| - |suffix|..][i] == suffix[i];
  }

  /** Only '.' lower-cases to '.'. */
  lemma LowerDotIsDot(c: char)
    requires LowerChar(c) == '.'
    ensures c == '.'
  {
  }

  /** A character that lower-cases to a letter is neither a '.' nor a separator. */
  lemma LowerLetterIsOrdinary(c: char)
    requires 'a' <= LowerChar(c) <= 'z'
    ensures c != '.' && !IsSeparator(c)
  {
  }

  /**
   * The extension test, stated without the extension lookup: a path passes
   * exactly when its lower-cased form ends with one of the allowed extensions.
   */
  lemma AllowedExtensionIffSuffix(path: string)
    ensures ToLower(Extension(path)) in AllowedFileExtensions <==> exists e :: e in AllowedFileExtensions && EndsWith(ToLower(path), e)
  {
    ExtensionIsLowerSuffix(path);
    if e :| e in AllowedFileExtensions && EndsWith(ToLower(path), e) {
      AllowedExtensionsAreLowerCaseWords();
      LowerWordSuffixIsExtension(path, e);
    }
  }

  /** The extension test ignores case: two paths that agree up to ASCII case pass or fail it together. */
  lemma ExtensionTestIgnoresCase(p: string, q: string)
    requires ToLower(p) == ToLower(q)
    ensures IsAllowedExtension(p) <==> IsAllowedExtension(q)
  {
  }

  /**
   * A path without an extension never passes the extension test: its file
   * name has no '.', or it ends with one.
   */
  lemma ExtensionlessPathRejected(path: string)
    requires (|path| > 0 && path[|path| - 1] == '.') || forall i :: 0 <= i < |path| && DotAt(path, i) ==> exists j :: i < j < |path| && IsSeparator(path[j])
    ensures !IsAllowedExtension(path)
  {
  }

  /**
   * Two of the conditions alone decide: while the solution closes, and when
   * no command was found, every save is skipped.
   */
  lemma ClosingOrMissingCommandSkips(solutionClosing: bool, building: bool, commandAvailable: Option<bool>, doc: Document)
    requires solutionClosing || commandAvailable.None?
    ensures SkipsCleanup(solutionClosing, building, commandAvailable, doc)
  {
  }
}
