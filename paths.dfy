/**
 * The two path helpers of the libretro frontend that split a content path
 * into the directory it lies in and the file name it ends with. A C string
 * is modelled by its characters up to, not including, the terminating NUL;
 * a buffer of `size` bytes holds at most `size - 1` of them.
 */
module LibretroPaths {

  datatype Option<T> = None | Some(value: T)

  /** The index of the last `c` in `s` (`strrchr`), or None. */
  function LastIndexOf(s: seq<char>, c: char): (r: Option<nat>)
    ensures r.None? <==> c !in s
    ensures r.Some? ==> r.value < |s| && s[r.value] == c && c !in s[r.value + 1..]
  {
    if |s| == 0 then None
    else if s[|s| - 1] == c then Some(|s| - 1)
    else
      var r := LastIndexOf(s[..|s| - 1], c);
      assert s == s[..|s| - 1] + [s[|s| - 1]];
      r
  }

  /** The first `n` characters of `s`, or all of them (`strncpy` into n + 1 bytes). */
  function Truncate(s: seq<char>, n: nat): (r: seq<char>)
    ensures |r| <= n && r <= s
    ensures |s| <= n ==> r == s
    ensures |s| > n ==> |r| == n
  {
    if |s| <= n then s else s[..n]
  }

  /**
   * The directory part of `path` copied into a buffer of `size` bytes
   * (`extract_directory`): the path is first cut to what the buffer holds,
   * then cut before its last '/', or when it has none before its last '\\';
   * with neither separator the result is empty.
   */
  function ExtractDirectory(path: seq<char>, size: nat): (r: seq<char>)
    requires size >= 1
    ensures |r| < size && r <= path
    ensures var t := Truncate(path, size - 1);
      && ('/' in t ==> |r| < |t| && t[|r|] == '/' && '/' !in t[|r| + 1..])
      && ('/' !in t && '\\' in t ==> |r| < |t| && t[|r|] == '\\' && '\\' !in t[|r| + 1..])
      && ('/' !in t && '\\' !in t ==> r == [])
  {
    var t := Truncate(path, size - 1);
    match LastIndexOf(t, '/')
    case Some(k) => t[..k]
    case None =>
      match LastIndexOf(t, '\\')
      case Some(k) => t[..k]
      case None => []
  }

  /**
   * `path[j..]` is the file name: no `slash` in it, and it starts the path
   * or follows a `slash`.
   */
  predicate FileNameAt(path: seq<char>, slash: char, j: nat)
    requires j <= |path|
  {
    slash !in path[j..] && (j == 0 || path[j - 1] == slash)
  }

  /** A path has one file name. */
  lemma FileNameUnique(path: seq<char>, slash: char, j1: nat, j2: nat)
    requires j1 <= |path| && j2 <= |path|
    requires FileNameAt(path, slash, j1) && FileNameAt(path, slash, j2)
    ensures j1 == j2
  {
  }

  /**
   * The file name of `path` copied into a buffer of `size` bytes
   * (`extract_basename`): the text after the last `slash` of the whole path,
   * or the whole path when it has none, cut to what the buffer holds.
   */
  function ExtractBasename(path: seq<char>, size: nat, slash: char): (r: seq<char>)
    requires size >= 1 && slash != '\0'
    ensures |r| < size && slash !in r
    ensures slash !in path ==> r == Truncate(path, size - 1)
    ensures exists j :: 0 <= j <= |path| && FileNameAt(path, slash, j) && r == Truncate(path[j..], size - 1)
  {
    match LastIndexOf(path, slash)
    case Some(k) =>
      assert FileNameAt(path, slash, k + 1);
      Truncate(path[k + 1..], size - 1)
    case None =>
      assert path[0..] == path && FileNameAt(path, slash, 0);
      Truncate(path, size - 1)
  }

  /**
   * When the path fits both buffers and uses '/', the directory, a '/' and
   * the file name put back together give the path again.
   */
  lemma DirectoryThenBasename(path: seq<char>, size: nat)
    requires size >= 1 && |path| < size && '/' in path
    ensures ExtractDirectory(path, size) + ['/'] + ExtractBasename(path, size, '/') == path
  {
    var k := LastIndexOf(path, '/').value;
    assert Truncate(path, size - 1) == path;
    assert ExtractDirectory(path, size) == path[..k];
    assert ExtractBasename(path, size, '/') == path[k + 1..];
    assert path == path[..k] + [path[k]] + path[k + 1..];
  }

  /**
   * A '/' anywhere wins over later '\\' separators: text without '/' after
   * the last '/' of a path that fits the buffer never changes its directory,
   * whatever '\\' it holds.
   */
  lemma ForwardSlashWins(p: seq<char>, q: seq<char>, size: nat)
    requires size >= 1 && |p + q| < size && '/' in p && '/' !in q
    ensures ExtractDirectory(p + q, size) == ExtractDirectory(p, size)
  {
    var k := LastIndexOf(p, '/').value;
    assert Truncate(p + q, size - 1) == p + q && Truncate(p, size - 1) == p;
    assert (p + q)[k] == '/';
    assert (p + q)[k + 1..] == p[k + 1..] + q;
    assert (p + q)[..k] == p[..k];
  }

  /**
   * The directory is cut from the path as the buffer holds it: truncating
   * the path first changes nothing, so a separator beyond the buffer is
   * never seen.
   */
  lemma DirectoryOfTruncatedPath(path: seq<char>, size: nat)
    requires size >= 1
    ensures ExtractDirectory(path, size) == ExtractDirectory(Truncate(path, size - 1), size)
    ensures var t := Truncate(path, size - 1);
      '/' !in t && '\\' !in t ==> ExtractDirectory(path, size) == []
  {
    assert Truncate(Truncate(path, size - 1), size - 1) == Truncate(path, size - 1);
  }

  /** Examples: "ab/cd" in a 1024-byte buffer, and in a 3-byte one that drops the '/'. */
  lemma DirectoryExamples()
    ensures ExtractDirectory("ab/cd", 1024) == "ab"
    ensures ExtractDirectory("ab/cd", 3) == ""
    ensures ExtractDirectory("a\\b/c\\d", 1024) == "a\\b"
  {
    assert Truncate("ab/cd", 1023) == "ab/cd";
    assert "ab/cd"[..4] == "ab/c" && "ab/cd"[..3] == "ab/";
    assert LastIndexOf("ab/cd", '/') == Some(2);
    assert Truncate("ab/cd", 2) == "ab";
    assert "ab"[..1] == "a";
    assert LastIndexOf("ab", '/') == None && LastIndexOf("ab", '\\') == None;
    ForwardSlashWins("a\\b/", "c\\d", 1024);
    assert "a\\b/" + "c\\d" == "a\\b/c\\d";
    assert Truncate("a\\b/", 1023) == "a\\b/";
    assert LastIndexOf("a\\b/", '/') == Some(3);
    assert "a\\b/"[..3] == "a\\b";
  }
}
