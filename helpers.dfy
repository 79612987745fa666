/** The general helpers: truncating a text to a length with a suffix, the
    lower-cased extension of a path, and the text-file test built on a
    zero-byte check of the file's first kilobyte. */
module Helpers {
  import opened Wrappers
  import opened Text
  import opened Paths
  import FileTools

  /** `truncate_text`: the text itself when it fits, else its first
      `maxLength - |suffix|` characters (Python slice rules, so a negative
      bound counts from the end) followed by the suffix. */
  function TruncateText(text: string, maxLength: int, suffix: string): (r: string)
    ensures |text| <= maxLength ==> r == text
    ensures |text| > maxLength ==> EndsWith(r, suffix) && StartsWith(text, r[..|r| - |suffix|])
  {
    if |text| <= maxLength then text
    else
      var kept := PySlice(text, 0, maxLength - |suffix|);
      assert (kept + suffix)[..|kept|] == kept;
      assert (kept + suffix)[|kept|..] == suffix;
      kept + suffix
  }

  /** A limit that leaves room for the suffix gives a text of exactly that
      length. */
  lemma TruncateExactLength(text: string, maxLength: int, suffix: string)
    requires |text| > maxLength >= |suffix|
    ensures |TruncateText(text, maxLength, suffix)| == maxLength
    ensures TruncateText(text, maxLength, suffix) == text[..maxLength - |suffix|] + suffix
  {
  }

  /** A limit shorter than the suffix makes the slice bound negative: the
      kept part is the text without its last `|suffix| - maxLength`
      characters, so the result is longer than the limit. */
  lemma TruncateShortLimit(text: string, maxLength: int, suffix: string)
    requires |text| > maxLength && 0 <= maxLength < |suffix| <= |text| + maxLength
    ensures TruncateText(text, maxLength, suffix) == text[..|text| + maxLength - |suffix|] + suffix
    ensures |TruncateText(text, maxLength, suffix)| > maxLength
  {
  }

  /** `get_file_extension`: the path's suffix, lower-cased. */
  function GetFileExtension(path: string): (r: string)
    ensures |r| == |Suffix(path)|
    ensures r != [] ==> r[0] == '.'
  {
    SuffixShape(path);
    Lower(Suffix(path))
  }

  /** The extension of a file `stem + ext` is `ext` lower-cased. */
  lemma ExtensionOfFile(dir: string, stem: string, ext: string)
    requires dir == [] || dir[|dir| - 1] == '/'
    requires stem != [] && forall j :: 0 <= j < |stem| ==> stem[j] != '/'
    requires |ext| >= 2 && ext[0] == '.' && forall j :: 1 <= j < |ext| ==> ext[j] != '.' && ext[j] != '/'
    ensures GetFileExtension(dir + stem + ext) == Lower(ext)
  {
    SuffixOf(dir, stem, ext);
  }

  /** The size of the first read of `is_binary_file`. */
  const ProbeSize: nat := 1024

  /** `is_binary_file`: a zero byte among the first 1024 bytes, or a file
      that cannot be opened or read (`file` is None). */
  predicate IsBinaryFile(file: Option<seq<FileTools.Byte>>) {
    file.None? || 0 in file.value[..if |file.value| < ProbeSize then |file.value| else ProbeSize]
  }

  /** A zero byte past the first kilobyte is never looked at. */
  lemma LateZeroIgnored(head: seq<FileTools.Byte>, tail: seq<FileTools.Byte>)
    requires |head| == ProbeSize && 0 !in head
    ensures !IsBinaryFile(Some(head + tail))
  {
    assert (head + tail)[..ProbeSize] == head;
  }

  /** The extensions `is_text_file` accepts. */
  const TextExtensions: set<string> :=
    {".txt", ".py", ".js", ".ts", ".html", ".css", ".json", ".xml",
     ".md", ".rst", ".yml", ".yaml", ".toml", ".ini", ".cfg",
     ".sh", ".bash", ".bat", ".ps1", ".sql", ".go", ".rs", ".java",
     ".c", ".cpp", ".h", ".hpp", ".cs", ".php", ".rb", ".swift",
     ".kt", ".scala", ".clj", ".hs", ".elm", ".ml", ".pl", ".r"}

  /** `is_text_file`: not binary, and a listed extension. */
  function IsTextFile(path: string, file: Option<seq<FileTools.Byte>>): (r: bool)
    ensures r ==> !IsBinaryFile(file) && GetFileExtension(path) in TextExtensions
    ensures IsBinaryFile(file) ==> !r
    ensures !IsBinaryFile(file) && GetFileExtension(path) in TextExtensions ==> r
  {
    if IsBinaryFile(file) then false
    else GetFileExtension(path) in TextExtensions
  }

  /** A file that cannot be read is never a text file, whatever its name. */
  lemma UnreadableNotText(path: string)
    ensures !IsTextFile(path, None)
  {
  }

  /** A listed extension is never empty, so a path without a suffix is
      never a text file. */
  lemma NoSuffixNotText(path: string, file: Option<seq<FileTools.Byte>>)
    requires Suffix(path) == []
    ensures !IsTextFile(path, file)
  {
    assert GetFileExtension(path) == [];
  }
}
