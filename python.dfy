/**
 * The few pieces of Python's built-in behaviour that both scripts rely on,
 * stated over Dafny sequences: optional values and their truthiness, the
 * slice `s[:k]` for any integer `k`, `str.replace` of one character, and
 * POSIX `os.path.join` together with the split at the last '/'.
 */
module Python {

  datatype Option<T> = None | Some(value: T)

  /** What a call out to the network gives: a response status, or an exception. */
  datatype Fetch = Status(code: int) | Raised

  /** Python truthiness of an optional string: both `None` and `""` are false. */
  predicate Truthy(o: Option<string>)
  {
    o.Some? && o.value != ""
  }

  function Min(a: int, b: int): int
  {
    if a <= b then a else b
  }

  function Max(a: int, b: int): int
  {
    if a <= b then b else a
  }

  /**
   * Python's `s[:k]`. A non-negative `k` keeps the first `k` elements (all of
   * them when `k` is past the end); a negative `k` drops `-k` elements from the
   * end, and nothing is left once it reaches the front.
   */
  function SliceTo<T>(s: seq<T>, k: int): (r: seq<T>)
    ensures |r| == if k >= 0 then Min(k, |s|) else Max(0, |s| + k)
    ensures r == s[..|r|]
  {
    if k >= |s| then s
    else if k >= 0 then s[..k]
    else if |s| + k > 0 then s[..|s| + k]
    else []
  }

  /** Python's `s.replace(old, new)` where both are single characters. */
  function ReplaceChar(s: string, from: char, to: char): (r: string)
    ensures |r| == |s|
    ensures forall i :: 0 <= i < |s| ==> r[i] == if s[i] == from then to else s[i]
  {
    if s == [] then []
    else [if s[0] == from then to else s[0]] + ReplaceChar(s[1..], from, to)
  }

  /**
   * `os.path.join(a, b)` on POSIX: an absolute `b` replaces `a`; otherwise a
   * single '/' is put between them unless `a` is empty or already ends in '/'.
   */
  function PathJoin(a: string, b: string): string
  {
    if |b| > 0 && b[0] == '/' then b
    else if a == [] || a[|a| - 1] == '/' then a + b
    else a + "/" + b
  }

  /** The last component of a path: what follows its last '/'. */
  function FileName(p: string): (r: string)
    ensures '/' !in r
    ensures |r| <= |p| && r == p[|p| - |r|..]
  {
    if p == [] || p[|p| - 1] == '/' then []
    else FileName(p[..|p| - 1]) + [p[|p| - 1]]
  }

  /** The folder part of a path: what precedes its last '/', or "" when it has none. */
  function Parent(p: string): (r: string)
    ensures |r| < |p| || r == p == []
    ensures r == p[..|r|]
  {
    if p == [] then []
    else if p[|p| - 1] == '/' then p[..|p| - 1]
    else Parent(p[..|p| - 1])
  }

  lemma LastCharKept(p: string, c: char)
    requires c != '/'
    ensures FileName(p + [c]) == FileName(p) + [c]
    ensures Parent(p + [c]) == Parent(p)
  {
    assert (p + [c])[..|p|] == p;
  }

  lemma LastCharSlash(p: string)
    ensures FileName(p + ['/']) == []
    ensures Parent(p + ['/']) == p
  {
    assert (p + ['/'])[..|p|] == p;
  }

  /**
   * Splitting `head + "/" + tail` at its last '/', when `tail` holds no '/',
   * gives back `head` and `tail`.
   */
  lemma {:induction false} SplitAtLastSlash(head: string, tail: string)
    requires '/' !in tail
    ensures FileName(head + "/" + tail) == tail
    ensures Parent(head + "/" + tail) == head
  {
    if tail == [] {
      assert head + "/" + tail == head + ['/'];
      LastCharSlash(head);
    } else {
      var init, last := tail[..|tail| - 1], tail[|tail| - 1];
      assert tail == init + [last];
      assert '/' !in init;
      assert last != '/';
      SplitAtLastSlash(head, init);
      assert head + "/" + tail == (head + "/" + init) + [last];
      LastCharKept(head + "/" + init, last);
    }
  }

  /**
   * Joining a folder with a name that holds no '/' and splitting the result at
   * its last '/' gives back the folder and the name: the file lies directly in
   * that folder.
   */
  lemma JoinSplit(dir: string, name: string)
    requires dir != [] && dir[|dir| - 1] != '/'
    requires '/' !in name
    ensures PathJoin(dir, name) == dir + "/" + name
    ensures Parent(PathJoin(dir, name)) == dir
    ensures FileName(PathJoin(dir, name)) == name
  {
    assert !(|name| > 0 && name[0] == '/') by {
      if |name| > 0 { assert name[0] in name; }
    }
    SplitAtLastSlash(dir, name);
  }

  /** An absolute second argument discards the folder altogether. */
  lemma JoinAbsolute(dir: string, name: string)
    requires |name| > 0 && name[0] == '/'
    ensures PathJoin(dir, name) == name
  {
  }
}
