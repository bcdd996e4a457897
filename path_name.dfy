/** The name an "up next" row shows for a queued file path: the text
    between the last backslash and the last dot. The computation is done
    with std::string::find_last_of and substr on std::size_t, so the model
    spells out size_t wrap-around (arithmetic modulo 2^64) and npos, the
    "not found" answer, which is the largest size_t. */
module PathName {

  const SizeModulus: int := 0x1_0000_0000_0000_0000
  const NPos: int := SizeModulus - 1

  /** A std::string: never as long as npos (its max_size is smaller). */
  type StdString = s: string | |s| < NPos

  /** Adding one modulus does not change the residue. */
  lemma ModShift(x: int)
    ensures (x + SizeModulus) % SizeModulus == x % SizeModulus
  {
  }

  /** An integer result stored in a std::size_t: reduced modulo 2^64. */
  function SizeT(x: int): (r: int)
    ensures 0 <= r < SizeModulus
    ensures r == x % SizeModulus
    decreases if x < 0 then SizeModulus - x else x
  {
    if x < 0 then
      ModShift(x);
      SizeT(x + SizeModulus)
    else if x < SizeModulus then x
    else
      ModShift(x - SizeModulus);
      SizeT(x - SizeModulus)
  }

  lemma SizeTInRange(x: int)
    requires -2 * SizeModulus <= x < 2 * SizeModulus
    ensures SizeT(x) ==
      if x >= SizeModulus then x - SizeModulus
      else if x >= 0 then x
      else if x >= -SizeModulus then x + SizeModulus
      else x + 2 * SizeModulus
  {
    if x < -SizeModulus {
      assert SizeT(x) == SizeT(x + SizeModulus) == SizeT(x + 2 * SizeModulus);
    }
  }

  /** std::string::find_last_of for a single character: the index of its
      last occurrence, or npos when it does not occur. */
  function FindLastOf(s: StdString, c: char): (r: int)
    ensures r == NPos <==> c !in s
    ensures r != NPos ==> 0 <= r < |s| && s[r] == c && forall j :: r < j < |s| ==> s[j] != c
    decreases |s|
  {
    if |s| == 0 then NPos
    else if s[|s| - 1] == c then |s| - 1
    else
      var r := FindLastOf(s[..|s| - 1], c);
      assert s == s[..|s| - 1] + [s[|s| - 1]];
      r
  }

  /** std::string::substr(pos, count): at most `count` characters from
      `pos` on; a `pos` past the end would throw, so it is required. */
  function Substr(s: string, pos: int, count: int): (r: string)
    requires 0 <= pos <= |s|
    requires 0 <= count
    ensures |r| <= count && pos + |r| <= |s| && r == s[pos..pos + |r|]
    ensures |r| == count || pos + |r| == |s|
  {
    s[pos..if count < |s| - pos then pos + count else |s|]
  }

  /** The start index `find_last_of(c) + 1` as a size_t: 0 when `c` is
      missing, since npos + 1 wraps around; never past the end. */
  function StartAfterLast(s: StdString, c: char): (r: int)
    ensures 0 <= r <= |s|
  {
    var i := FindLastOf(s, c);
    SizeTInRange(i + 1);
    SizeT(i + 1)
  }

  lemma StartAfterLastCases(s: StdString, c: char)
    ensures StartAfterLast(s, c) == if FindLastOf(s, c) == NPos then 0 else FindLastOf(s, c) + 1
  {
    SizeTInRange(FindLastOf(s, c) + 1);
  }

  /** The extension: substr from the wrapped index after the last dot, of
      length |path| - dot as a size_t. It is the text after the last dot,
      or the whole path when there is no dot (npos + 1 wraps to 0). */
  function Extension(path: StdString): (ext: string)
    ensures var dot := FindLastOf(path, '.');
      ext == if dot == NPos then path else path[dot + 1..]
  {
    StartAfterLastCases(path, '.');
    SizeTInRange(|path| - FindLastOf(path, '.'));
    Substr(path, StartAfterLast(path, '.'), SizeT(|path| - FindLastOf(path, '.')))
  }

  /** The size_t arithmetic of the name's length, on its own: with the
      indices find_last_of can return, the wrapped length is exactly the
      distance to the dot when the dot follows the start, and otherwise
      reaches at least to the end of the path. */
  lemma NameLength(len: int, sep: int, dot: int)
    requires 0 <= len < NPos
    requires sep == NPos || 0 <= sep < len
    requires dot == NPos || 0 <= dot < len
    requires sep == NPos || sep != dot
    ensures var start := if sep == NPos then 0 else sep + 1;
      var extLen := if dot == NPos then len else len - dot - 1;
      var n := SizeT(len - sep - extLen - 2);
      if dot != NPos && (sep == NPos || sep < dot) then n == dot - start else n >= len - start
  {
    var extLen := if dot == NPos then len else len - dot - 1;
    SizeTInRange(len - sep - extLen - 2);
  }

  /** Where the name intends to start: just after the last backslash, or
      at the beginning when there is none. */
  function NameStart(path: StdString): (i: int)
    ensures 0 <= i <= |path|
    ensures i == 0 || path[i - 1] == '\\'
    ensures forall j :: i <= j < |path| ==> path[j] != '\\'
  {
    var sep := FindLastOf(path, '\\');
    if sep == NPos then
      assert forall j :: 0 <= j < |path| ==> path[j] in path;
      0
    else sep + 1
  }

  /** Where the name intends to end: at the last dot when it comes after
      the start, and otherwise at the end of the path. */
  function NameEnd(path: StdString): (i: int)
    ensures NameStart(path) <= i <= |path|
    ensures i < |path| ==> path[i] == '.' && forall j :: i < j < |path| ==> path[j] != '.'
    ensures i == |path| ==> forall j :: NameStart(path) <= j < |path| ==> path[j] != '.'
  {
    var dot := FindLastOf(path, '.');
    if dot != NPos && NameStart(path) <= dot then dot else |path|
  }

  lemma StartAfterLastSeparator(path: StdString)
    ensures StartAfterLast(path, '\\') == NameStart(path)
  {
    StartAfterLastCases(path, '\\');
  }

  /** The name's length as a size_t, resolved by NameLength. */
  lemma NameCount(path: StdString)
    ensures var n := SizeT(|path| - FindLastOf(path, '\\') - |Extension(path)| - 2);
      if NameEnd(path) < |path| then n == NameEnd(path) - NameStart(path)
      else n >= |path| - NameStart(path)
  {
    var sep := FindLastOf(path, '\\');
    var dot := FindLastOf(path, '.');
    assert |Extension(path)| == if dot == NPos then |path| else |path| - dot - 1;
    assert sep != NPos && dot != NPos ==> sep != dot;
    NameLength(|path|, sep, dot);
  }

  /** The name drawn in the row: substr from the wrapped index after the
      last backslash, of length |path| - sep - |extension| - 2 as a size_t.
      In every case, npos and wrap-around included, this is the text from
      NameStart to NameEnd, so it never holds a backslash. */
  function DisplayName(path: StdString): (name: string)
    ensures name == path[NameStart(path)..NameEnd(path)]
    ensures forall i :: 0 <= i < |name| ==> name[i] != '\\'
  {
    var ext := Extension(path);
    StartAfterLastSeparator(path);
    NameCount(path);
    Substr(path, StartAfterLast(path, '\\'), SizeT(|path| - FindLastOf(path, '\\') - |ext| - 2))
  }

  /** find_last_of finds the occurrence that has none after it. */
  lemma FindLastOfIsLast(s: StdString, c: char, i: int)
    requires 0 <= i < |s| && s[i] == c
    requires forall j :: i < j < |s| ==> s[j] != c
    ensures FindLastOf(s, c) == i
  {
    assert s[i] in s;
  }

  /** For a path with its last backslash at `sep` and its last dot at
      `dot` after it, the name is exactly the text between them, the
      extension the text after the dot, and the path is rebuilt from its
      directory part, the name, the dot and the extension. */
  lemma DisplayNameRoundTrip(path: StdString, sep: int, dot: int)
    requires 0 <= sep < dot < |path|
    requires path[sep] == '\\' && forall j :: sep < j < |path| ==> path[j] != '\\'
    requires path[dot] == '.' && forall j :: dot < j < |path| ==> path[j] != '.'
    ensures DisplayName(path) == path[sep + 1..dot]
    ensures Extension(path) == path[dot + 1..]
    ensures path[..sep + 1] + DisplayName(path) + "." + Extension(path) == path
  {
    FindLastOfIsLast(path, '\\', sep);
    FindLastOfIsLast(path, '.', dot);
    assert NameStart(path) == sep + 1;
    assert NameEnd(path) == dot;
    var name := DisplayName(path);
    var ext := Extension(path);
    assert name == path[sep + 1..dot];
    assert ext == path[dot + 1..];
    assert "." == [path[dot]];
    SplitAround(path, sep + 1, dot);
  }

  lemma SplitAround(s: string, i: int, j: int)
    requires 0 <= i <= j < |s|
    ensures s[..i] + s[i..j] + [s[j]] + s[j + 1..] == s
  {
    assert s == s[..i] + s[i..j] + s[j..];
    assert s[j..] == [s[j]] + s[j + 1..];
  }
}
