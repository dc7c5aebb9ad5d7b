/**
 * The `Dot` command of the cd helper: a command named by NumRecurs+1 dots
 * that climbs NumRecurs directories, optionally descends into a PATH given
 * as a list of tokens, and hands the shell exactly one `cd ...` line.
 *
 * The file system (os.Stat), the working directory (the part of
 * filepath.Abs that calls os.Getwd) and JSON decoding are parameters.
 */
module Cd {
  import opened Wrappers
  import opened Strs
  import opened FilePath

  /** Alias type -> alias -> stored argument list. */
  type AliasTable = map<string, map<string, seq<string>>>

  /** What os.Stat reports for a path: its kind, or an error. */
  datatype StatResult = StatOk(isDir: bool) | StatErr(msg: string)

  predicate IsFile(s: StatResult) {
    s.StatOk? && !s.isDir
  }

  /** The exported fields of a Dot, the only ones JSON decoding can reach. */
  datatype Fields = Fields(aliases: Option<AliasTable>, numRecurs: int)

  /** What json.Unmarshal leaves in the exported fields, and the error it returns. */
  datatype Unmarshalled = Unmarshalled(fields: Fields, error: Option<string>)

  const UnmarshalErrorPrefix := "failed to unmarshal dot json: "
  const TransformErrorPrefix := "failed to transform file path: "
  const ParentToken := ".."
  const Backslash: char := '\\'

  // ---------------------------------------------------------------------
  // fp: backslash doubling for msys2

  /**
   * Every backslash becomes two backslashes: a path without backslashes
   * passes through unchanged, and each backslash adds exactly one character.
   */
  function Fp(path: string): (r: string)
    ensures Backslash !in path ==> r == path
    ensures |r| == |path| + Count(path, Backslash)
  {
    if path == [] then []
    else (if path[0] == Backslash then [Backslash, Backslash] else [path[0]]) + Fp(path[1..])
  }

  /** The shell's reading of a doubled backslash: two become one. */
  function Unescape(s: string): string
  {
    if s == [] then []
    else if |s| >= 2 && s[0] == Backslash && s[1] == Backslash then [Backslash] + Unescape(s[2..])
    else [s[0]] + Unescape(s[1..])
  }

  /** Fp works character by character: it distributes over concatenation. */
  lemma {:induction false} FpConcat(a: string, b: string)
    ensures Fp(a + b) == Fp(a) + Fp(b)
  {
    if a != [] {
      assert (a + b)[1..] == a[1..] + b;
      FpConcat(a[1..], b);
    } else {
      assert a + b == b;
    }
  }

  /** Undoing the doubling gives the original path back, so Fp loses nothing. */
  lemma {:induction false} UnescapeFp(s: string)
    ensures Unescape(Fp(s)) == s
  {
    if s != [] {
      var t := Fp(s[1..]);
      UnescapeFp(s[1..]);
      if s[0] == Backslash {
        assert Fp(s) == [Backslash, Backslash] + t;
        assert Fp(s)[2..] == t;
      } else {
        assert Fp(s) == [s[0]] + t;
        assert Fp(s)[1..] == t;
      }
      assert [s[0]] + s[1..] == s;
    }
  }

  // ---------------------------------------------------------------------
  // The parent prefix and the cd line

  /** The list of ".." tokens for climbing `n` directories (none when n <= 0). */
  function ParentPrefix(n: int): (r: seq<string>)
    ensures |r| == (if n > 0 then n else 0)
    ensures forall i :: 0 <= i < |r| ==> r[i] == ParentToken
  {
    if n <= 0 then [] else ParentPrefix(n - 1) + [ParentToken]
  }

  /** What `directory()` returns: the parent prefix joined into one path. */
  function ParentDirectory(n: nat): string
  {
    Join(ParentPrefix(n))
  }

  /** The parent directory is empty at depth 0, otherwise exactly n ".." components. */
  lemma ParentDirectoryComponents(n: nat)
    ensures n == 0 ==> ParentDirectory(n) == ""
    ensures n > 0 ==> Split(ParentDirectory(n)) == ParentPrefix(n)
  {
    if n > 0 {
      SplitJoin(ParentPrefix(n));
    }
  }

  /** The parent directory has no backslash, so Fp leaves it alone. */
  lemma ParentDirectoryUnescaped(n: nat)
    ensures Fp(ParentDirectory(n)) == ParentDirectory(n)
  {
    JoinAvoids(ParentPrefix(n), Backslash);
  }

  /** File substitution: a path that stats as a non-directory is replaced by its directory. */
  function Substituted(p: seq<string>, stat: string -> StatResult): (r: seq<string>)
    requires |p| > 0
    ensures |r| == |p| && r[1..] == p[1..]
    ensures IsFile(stat(p[0])) ==> r[0] == Dir(p[0])
    ensures !IsFile(stat(p[0])) ==> r == p
  {
    if IsFile(stat(p[0])) then p[0 := Dir(p[0])] else p
  }

  /** Substituting again is a no-op when the containing directory stats as a directory or fails. */
  lemma SubstitutedIdempotent(p: seq<string>, stat: string -> StatResult)
    requires |p| > 0
    requires !IsFile(stat(Dir(p[0])))
    ensures Substituted(Substituted(p, stat), stat) == Substituted(p, stat)
  {
  }

  /** The path the cd line names: the parent directory without PATH, else the joined PATH after substitution. */
  function CdTarget(n: int, path: Option<seq<string>>, stat: string -> StatResult): string
    requires path.None? ==> n >= 0
    requires path.Some? ==> |path.value| > 0
  {
    match path
    case None => ParentDirectory(n)
    case Some(p) => Join(Substituted(p, stat))
  }

  /** The one line `cd` emits. */
  function CdCommand(n: int, path: Option<seq<string>>, stat: string -> StatResult): string
    requires path.None? ==> n >= 0
    requires path.Some? ==> |path.value| > 0
  {
    "cd " + Fp(CdTarget(n, path, stat))
  }

  /**
   * The line starts with "cd ", and undoing the backslash doubling on the
   * rest gives the target path. Nothing but backslashes is escaped: the
   * path is not quoted, so spaces, `$`, `*`, `;` or quotes in it are left
   * for the shell to split or expand.
   */
  lemma CdCommandNamesTarget(n: int, path: Option<seq<string>>, stat: string -> StatResult)
    requires path.None? ==> n >= 0
    requires path.Some? ==> |path.value| > 0
    ensures "cd " <= CdCommand(n, path, stat)
    ensures Unescape(CdCommand(n, path, stat)[3..]) == CdTarget(n, path, stat)
  {
    var line := CdCommand(n, path, stat);
    assert line[3..] == Fp(CdTarget(n, path, stat));
    UnescapeFp(CdTarget(n, path, stat));
  }

  /** Without PATH the line is "cd " + the parent directory; at depth 0 it is "cd " with a trailing space. */
  lemma CdWithoutPath(n: nat, stat: string -> StatResult)
    ensures CdCommand(n, None, stat) == "cd " + ParentDirectory(n)
    ensures n == 0 ==> CdCommand(n, None, stat) == "cd "
  {
    ParentDirectoryUnescaped(n);
  }

  // ---------------------------------------------------------------------
  // The PATH transformer

  /** The new first PATH token: the absolute form of the parent prefix joined with the old one. */
  function TransformedHead(n: int, first: string, wd: Result<string, string>): Result<string, string>
  {
    Abs(Join(ParentPrefix(n) + [first]), wd)
  }

  /**
   * The token is placed behind `directory()`, comes out absolute when the
   * working directory is absolute, and is kept as it is when it is already
   * absolute and no directory is climbed.
   */
  lemma TransformedHeadBehindPrefix(n: nat, first: string, wd: Result<string, string>)
    ensures TransformedHead(n, first, wd) == Abs(Join([ParentDirectory(n), first]), wd)
    ensures (TransformedHead(n, first, wd).Success? && wd.Success? && IsAbs(wd.value))
              ==> IsAbs(TransformedHead(n, first, wd).value)
    ensures n == 0 && IsAbs(first) ==> TransformedHead(n, first, wd) == Success(first)
  {
    JoinAppend(ParentPrefix(n), first);
    if n == 0 {
      assert ParentPrefix(n) + [first] == [first];
    }
  }

  // ---------------------------------------------------------------------
  // Objects

  /** The framework's execute data: the shell lines to run afterwards. */
  class ExecuteData {
    var executable: seq<string>

    constructor ()
      ensures executable == []
    {
      executable := [];
    }
  }

  class Dot {
    /** nil (None) until AliasMap or decoding allocates it. */
    var aliases: Option<AliasTable>
    var numRecurs: int
    var changed: bool

    /** DotCLI: a Dot that climbs `numRecurs` directories. */
    constructor (numRecurs: int)
      ensures this.numRecurs == numRecurs && aliases == None && !changed
    {
      this.numRecurs := numRecurs;
      aliases := None;
      changed := false;
    }

    /** The alias table, allocated empty on first use and kept from then on. */
    method AliasMap() returns (m: AliasTable)
      modifies this`aliases
      ensures aliases == Some(m)
      ensures old(aliases).Some? ==> m == old(aliases).value
      ensures old(aliases).None? ==> m == map[]
    {
      if aliases.None? {
        aliases := Some(map[]);
      }
      m := aliases.value;
    }

    /**
     * Load decodes `jsn` into the receiver with `unmarshal`, which stands for
     * json.Unmarshal: from the text and the current exported fields it gives
     * the new exported fields and the decoder's error. NumRecurs is restored
     * afterwards on every path, the unexported `changed` is never touched,
     * and an empty string leaves the receiver alone.
     */
    method Load(jsn: string, unmarshal: (string, Fields) -> Unmarshalled) returns (err: Option<string>)
      modifies this
      ensures numRecurs == old(numRecurs) && changed == old(changed)
      ensures jsn == "" ==> err == None && aliases == old(aliases)
      ensures jsn != "" ==>
                var u := unmarshal(jsn, Fields(old(aliases), old(numRecurs)));
                && aliases == u.fields.aliases
                && (u.error.None? ==> err == None)
                && (u.error.Some? ==> err == Some(UnmarshalErrorPrefix + u.error.value))
    {
      var r := numRecurs;
      if jsn == "" {
        // `d = &Dot{}` rebinds only the local variable: the receiver is not
        // touched, and the deferred restore writes to the new, local Dot.
        return None;
      }
      var u := unmarshal(jsn, Fields(aliases, numRecurs));
      aliases, numRecurs := u.fields.aliases, u.fields.numRecurs;
      if u.error.Some? {
        err := Some(UnmarshalErrorPrefix + u.error.value);
      } else {
        err := None;
      }
      // the deferred restore
      numRecurs := r;
    }

    /** Whether the Dot was marked as changed: the `changed` field. */
    function Changed(): (r: bool)
      reads this
      ensures r == changed
    {
      changed
    }

    method MarkChanged()
      modifies this`changed
      ensures Changed()
    {
      changed := true;
    }

    /** The command name: NumRecurs+1 dots (strings.Repeat panics on a negative count). */
    function Name(): (r: string)
      reads this
      requires numRecurs >= -1
      ensures |r| == numRecurs + 1
      ensures forall i :: 0 <= i < |r| ==> r[i] == '.'
    {
      Repeat('.', numRecurs + 1)
    }

    /** `directory()`: NumRecurs ".." tokens in a fresh slice, joined (make panics on a negative size). */
    method Directory() returns (r: string)
      requires numRecurs >= 0
      ensures r == ParentDirectory(numRecurs)
    {
      var path := new string[numRecurs];
      for i := 0 to numRecurs
        invariant forall j :: 0 <= j < i ==> path[j] == ParentToken
      {
        path[i] := ParentToken;
      }
      assert path[..] == ParentPrefix(numRecurs);
      r := Join(path[..]);
    }

    /**
     * `cd`: with no PATH (`path == null`) the line names `directory()`;
     * otherwise element 0 of the PATH list is replaced in place by its
     * containing directory when it stats as a non-directory, and the line
     * names the joined list. Exactly one line is appended and nil returned.
     */
    method Cd(path: array?<string>, stat: string -> StatResult, eData: ExecuteData) returns (err: Option<string>)
      requires path == null ==> numRecurs >= 0
      requires path != null ==> path.Length > 0
      modifies eData, path
      ensures err == None
      ensures path != null ==> path[..] == Substituted(old(path[..]), stat)
      ensures eData.executable
                == old(eData.executable) + [CdCommand(numRecurs, if path == null then None else Some(old(path[..])), stat)]
    {
      if path == null {
        var dir := Directory();
        eData.executable := eData.executable + ["cd " + Fp(dir)];
        return None;
      }
      ghost var before := path[..];
      var s := stat(path[0]);
      if s.StatOk? && !s.isDir {
        path[0] := Dir(path[0]);
      }
      assert path[..] == Substituted(before, stat);
      eData.executable := eData.executable + ["cd " + Fp(Join(path[..]))];
      err := None;
    }

    /**
     * The PATH transformer: builds NumRecurs ".." tokens by appending, then
     * the first PATH token, makes the join absolute and overwrites element 0
     * of the list in place; on failure the list is left alone and the error
     * is wrapped. A negative NumRecurs climbs nothing.
     */
    method TransformPath(list: array<string>, wd: Result<string, string>) returns (r: Result<array<string>, string>)
      requires list.Length > 0
      modifies list
      ensures var t := TransformedHead(numRecurs, old(list[0]), wd);
              && (t.Failure? ==> r == Failure(TransformErrorPrefix + t.error) && list[..] == old(list[..]))
              && (t.Success? ==> r == Success(list) && list[..] == old(list[..])[0 := t.value])
    {
      var path: seq<string> := [];
      var i := 0;
      while i < numRecurs
        invariant 0 <= i && (i == 0 || i <= numRecurs)
        invariant path == ParentPrefix(i)
      {
        path := path + [ParentToken];
        i := i + 1;
      }
      assert path == ParentPrefix(numRecurs);
      path := path + [list[0]];
      var a := Abs(Join(path), wd);
      if a.Failure? {
        return Failure(TransformErrorPrefix + a.error);
      }
      list[0] := a.value;
      return Success(list);
    }
  }
}
