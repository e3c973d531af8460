/**
 * POSIX path composition as the plugin uses it (`os.path.join`) and the
 * protocol's `extra` directory conventions.
 */
module Paths {
  import Text

  /** A single path component: non-empty and free of separators. */
  predicate IsName(s: string) {
    |s| > 0 && '/' !in s
  }

  /** A directory path that `join` extends with one separator. */
  predicate IsDir(s: string) {
    |s| > 0 && s[|s| - 1] != '/'
  }

  /**
   * `os.path.join(a, b)`: an absolute `b` replaces `a`; otherwise `b` is
   * appended, with a `/` inserted unless `a` is empty or already ends in one.
   */
  function Join(a: string, b: string): (r: string)
    ensures |b| > 0 && b[0] == '/' ==> r == b
    ensures IsDir(a) && !(|b| > 0 && b[0] == '/') ==> r == a + "/" + b
    ensures |b| <= |r|
    ensures r[|r| - |b|..] == b
  {
    if |b| > 0 && b[0] == '/' then b
    else if a == [] || a[|a| - 1] == '/' then a + b
    else a + "/" + b
  }

  /** `os.path.join(base, *parts)`, folding `Join` from the left. */
  function JoinAll(base: string, parts: seq<string>): (r: string)
    decreases |parts|
  {
    if parts == [] then base else JoinAll(Join(base, parts[0]), parts[1..])
  }

  /** Joining one more part onto a join of several joins it onto their result. */
  lemma {:induction false} JoinAllSnoc(base: string, parts: seq<string>, last: string)
    ensures JoinAll(base, parts + [last]) == Join(JoinAll(base, parts), last)
    decreases |parts|
  {
    if parts == [] {
      assert [last][1..] == [];
    } else {
      assert (parts + [last])[1..] == parts[1..] + [last];
      JoinAllSnoc(Join(base, parts[0]), parts[1..], last);
    }
  }

  /**
   * Joining plain names onto a directory lays them out after it, one `/`
   * between each two, and gives a directory again.
   */
  lemma {:induction false} JoinAllNames(base: string, parts: seq<string>)
    requires IsDir(base)
    requires forall i :: 0 <= i < |parts| ==> IsName(parts[i])
    ensures IsDir(JoinAll(base, parts))
    ensures JoinAll(base, parts) == Text.JoinWith("/", [base] + parts)
    decreases |parts|
  {
    if parts == [] {
      assert [base] + parts == [base];
    } else {
      var n := |parts| - 1;
      var init := parts[..n];
      var last := parts[n];
      assert parts == init + [last];
      JoinAllNames(base, init);
      JoinAllSnoc(base, init, last);
      var dir := JoinAll(base, init);
      assert last[0] != '/' by { assert last[0] in last; }
      assert Join(dir, last) == dir + "/" + last;
      Text.JoinWithAppend("/", [base] + init, last);
      assert [base] + parts == [base] + init + [last];
      assert last[|last| - 1] != '/' by { assert last[|last| - 1] in last; }
      assert (dir + "/" + last)[|dir + "/" + last| - 1] == last[|last| - 1];
    }
  }

  /** `self._getExtraPath(*parts)`: the protocol's `extra` directory joined with `parts`. */
  function ExtraPath(extra: string, parts: seq<string>): string {
    JoinAll(extra, parts)
  }
}
