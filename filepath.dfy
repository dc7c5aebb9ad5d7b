/**
 * A simplified model of Go's `path/filepath` on a POSIX host: the separator
 * is '/', Join drops empty elements and glues the rest with the separator
 * (without the lexical Clean that Go applies afterwards), Dir strips the last
 * component, and Abs resolves a relative path against the working directory,
 * which is passed in as the result of os.Getwd.
 */
module FilePath {
  import opened Wrappers

  const Sep: char := '/'

  predicate IsAbs(p: string) {
    |p| > 0 && p[0] == Sep
  }

  /**
   * filepath.Join without Clean: the non-empty elements glued by Sep. The
   * join is empty exactly when every element is, and otherwise it begins
   * with the first element when that one is non-empty.
   */
  function Join(parts: seq<string>): (r: string)
    ensures r == "" <==> forall i :: 0 <= i < |parts| ==> parts[i] == ""
    ensures |parts| > 0 && parts[0] != "" ==> parts[0] <= r
  {
    if parts == [] then ""
    else if parts[0] == "" then Join(parts[1..])
    else
      var rest := Join(parts[1..]);
      if rest == "" then parts[0] else parts[0] + [Sep] + rest
  }

  /** The components of `s` between separators (an independent reading of Join). */
  function Split(s: string): (r: seq<string>)
    ensures |r| >= 1
  {
    if s == [] then [""]
    else
      var t := Split(s[1..]);
      if s[0] == Sep then [""] + t else [[s[0]] + t[0]] + t[1..]
  }

  /** A component Join keeps as it is: non-empty and without a separator. */
  predicate IsComponent(p: string) {
    p != "" && Sep !in p
  }

  lemma {:induction false} SplitComponent(p: string)
    requires Sep !in p
    ensures Split(p) == [p]
  {
    if p != [] {
      SplitComponent(p[1..]);
      assert [p[0]] + p[1..] == p;
    }
  }

  lemma {:induction false} SplitCons(p: string, q: string)
    requires Sep !in p
    ensures Split(p + [Sep] + q) == [p] + Split(q)
  {
    var s := p + [Sep] + q;
    if p == [] {
      assert s[1..] == q;
    } else {
      assert s[1..] == p[1..] + [Sep] + q;
      SplitCons(p[1..], q);
      assert [p[0]] + p[1..] == p;
    }
  }

  /** Splitting a join of components gives the components back. */
  lemma {:induction false} SplitJoin(parts: seq<string>)
    requires |parts| > 0
    requires forall i :: 0 <= i < |parts| ==> IsComponent(parts[i])
    ensures Split(Join(parts)) == parts
  {
    var rest := parts[1..];
    if rest == [] {
      SplitComponent(parts[0]);
      assert parts == [parts[0]];
    } else {
      SplitJoin(rest);
      SplitCons(parts[0], Join(rest));
      assert parts == [parts[0]] + rest;
    }
  }

  /** Joining one more element onto a list is joining it onto the list's join. */
  lemma {:induction false} JoinAppend(ps: seq<string>, q: string)
    ensures Join(ps + [q]) == Join([Join(ps), q])
  {
    if ps == [] {
      assert ps + [q] == [q];
      assert [Join(ps), q][1..] == [q];
    } else {
      var qs := ps + [q];
      assert qs[0] == ps[0] && qs[1..] == ps[1..] + [q];
      JoinAppend(ps[1..], q);
      assert [Join(ps), q][1..] == [q];
      assert [Join(ps[1..]), q][1..] == [q];
    }
  }

  /** A character that is not the separator and occurs in no element does not occur in the join. */
  lemma {:induction false} JoinAvoids(parts: seq<string>, c: char)
    requires c != Sep
    requires forall i :: 0 <= i < |parts| ==> c !in parts[i]
    ensures c !in Join(parts)
  {
    if parts != [] {
      JoinAvoids(parts[1..], c);
    }
  }

  /** The index of the last separator in `p`, or -1 when there is none. */
  function LastSep(p: string): (k: int)
    ensures -1 <= k < |p|
    ensures k >= 0 ==> p[k] == Sep
    ensures forall j :: k < j < |p| ==> p[j] != Sep
  {
    if p == [] then -1
    else if p[|p| - 1] == Sep then |p| - 1
    else LastSep(p[..|p| - 1])
  }

  /** filepath.Dir without Clean: everything before the last separator. */
  function Dir(p: string): (r: string)
    ensures IsAbs(p) ==> IsAbs(r)
    ensures p != "" ==> |r| <= |p|
  {
    var k := LastSep(p);
    if k < 0 then "." else if k == 0 then [Sep] else p[..k]
  }

  /** The text after the last separator (the whole path when there is none); a helper for characterising Dir. */
  function Base(p: string): (r: string)
    ensures Sep !in r
  {
    p[LastSep(p) + 1..]
  }

  /** Dir and Base split a path at its last separator, and Dir names a proper prefix. */
  lemma DirBase(p: string)
    requires Sep in p
    ensures LastSep(p) > 0 ==> Dir(p) + [Sep] + Base(p) == p
    ensures LastSep(p) == 0 ==> Dir(p) + Base(p) == p
    ensures Dir(p) <= p
  {
    var k := LastSep(p);
    assert k >= 0;
    assert p == p[..k] + [p[k]] + p[k + 1..];
  }

  /**
   * filepath.Abs: an absolute path is returned as it is; otherwise the
   * working directory (the result of os.Getwd) is joined in front of it, and
   * a failure to learn the working directory is the error.
   */
  function Abs(p: string, wd: Result<string, string>): (r: Result<string, string>)
    ensures IsAbs(p) ==> r == Success(p)
    ensures !IsAbs(p) ==> (r.Failure? <==> wd.Failure?)
    ensures !IsAbs(p) && wd.Failure? ==> r.error == wd.error
    ensures r.Success? && wd.Success? && IsAbs(wd.value) ==> IsAbs(r.value)
  {
    if IsAbs(p) then Success(p)
    else if wd.Failure? then Failure(wd.error)
    else
      var a := Join([wd.value, p]);
      Success(a)
  }
}
