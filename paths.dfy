/**
 * File-system paths and the string operations the sync engine applies to them
 * (`Path::file_name`, `file_stem`, `extension`, `with_file_name`, `join`, `PathBuf::pop`,
 * `str::strip_suffix`, `str::replace`).
 */
module Paths {
  import opened Wrappers

  /** A path as its list of components: `["src", "Foo.lua"]` is `src/Foo.lua`. */
  type Path = seq<string>

  /** The final component, or "" for the empty path. */
  function FileName(p: Path): string
  {
    if p == [] then "" else p[|p| - 1]
  }

  /** `PathBuf::pop`: drops the final component; the empty path stays empty. */
  function Pop(p: Path): (r: Path)
    ensures p != [] ==> r + [FileName(p)] == p
    ensures p == [] ==> r == []
  {
    if p == [] then [] else p[..|p| - 1]
  }

  /** `Path::join` with a single component. */
  function Join(p: Path, name: string): Path
  {
    p + [name]
  }

  /** `Path::with_file_name`: replaces the final component (or appends to the empty path). */
  function WithFileName(p: Path, name: string): (r: Path)
    ensures FileName(r) == name && Pop(r) == Pop(p)
    ensures |r| == if p == [] then 1 else |p|
  {
    Join(Pop(p), name)
  }

  /** True when `q` lies at or below `p`. */
  predicate Under(p: Path, q: Path)
  {
    |p| <= |q| && q[..|p|] == p
  }

  /** What lies under `b` lies under any prefix `a` of `b`. */
  lemma UnderShorter(a: Path, b: Path, c: Path)
    requires Under(a, b) && !Under(a, c)
    ensures !Under(b, c)
  {
    if |b| <= |c| {
      assert c[..|b|][..|a|] == c[..|a|];
    }
  }

  /** The index of the last '.', or -1 when there is none. */
  function LastDot(s: string): (r: int)
    ensures -1 <= r < |s|
    ensures r >= 0 ==> s[r] == '.' && forall i | r < i < |s| :: s[i] != '.'
    ensures r == -1 ==> forall i | 0 <= i < |s| :: s[i] != '.'
    decreases |s|
  {
    if s == [] then -1
    else if s[|s| - 1] == '.' then |s| - 1
    else LastDot(s[..|s| - 1])
  }

  /** `file_stem` of a file name: everything before the last dot, unless that dot leads the name. */
  function Stem(name: string): string
  {
    var d := LastDot(name);
    if d <= 0 then name else name[..d]
  }

  /** `extension` of a file name, "" when there is none. */
  function Ext(name: string): string
  {
    var d := LastDot(name);
    if d <= 0 then "" else name[d + 1..]
  }

  /** `util::get_file_stem`: the stem of the final component. */
  function FileStem(p: Path): string
  {
    Stem(FileName(p))
  }

  /** `util::get_file_ext`: the extension of the final component, "" when there is none. */
  function FileExt(p: Path): string
  {
    Ext(FileName(p))
  }

  /** A name with an extension splits into stem, dot and extension, and the extension has no dot. */
  lemma StemAndExt(name: string)
    requires LastDot(name) > 0
    ensures Stem(name) + "." + Ext(name) == name
    ensures forall i | 0 <= i < |Ext(name)| :: Ext(name)[i] != '.'
  {
    var d := LastDot(name);
    assert name == name[..d] + [name[d]] + name[d + 1..];
  }

  predicate StartsWith(s: string, prefix: string)
  {
    |prefix| <= |s| && s[..|prefix|] == prefix
  }

  predicate EndsWith(s: string, suffix: string)
  {
    |suffix| <= |s| && s[|s| - |suffix|..] == suffix
  }

  /** A string ending in `a + b` ends in `b`. */
  lemma EndsWithTail(s: string, a: string, b: string)
    requires EndsWith(s, a + b)
    ensures EndsWith(s, b)
  {
    var k := |s| - |a + b|;
    assert s[|s| - |b|..] == s[k..][|a|..];
    assert s[k..][|a|..] == (a + b)[|a|..];
  }

  /** `str::strip_suffix`. */
  function StripSuffix(s: string, suffix: string): (r: Option<string>)
    ensures r.Some? <==> EndsWith(s, suffix)
    ensures r.Some? ==> r.value + suffix == s
  {
    if EndsWith(s, suffix) then Some(s[..|s| - |suffix|]) else None
  }

  /** `f` occurs in `s` starting at index `i`. */
  predicate OccursAt(s: string, f: string, i: int)
  {
    0 <= i && i + |f| <= |s| && s[i..i + |f|] == f
  }

  /** `f` occurs somewhere in `s`. */
  predicate Occurs(s: string, f: string)
  {
    exists i | 0 <= i <= |s| :: OccursAt(s, f, i)
  }

  /** `to` inserted before every character and at the end: `str::replace` with an empty pattern. */
  function Interleave(s: string, to: string): string
  {
    if s == [] then to else to + [s[0]] + Interleave(s[1..], to)
  }

  /**
   * `str::replace`: every non-overlapping occurrence of `from`, scanned left to right,
   * is replaced by `to`.
   */
  function Replace(s: string, from: string, to: string): string
    decreases |s|
  {
    if |from| == 0 then Interleave(s, to)
    else if |s| < |from| then s
    else if s[..|from|] == from then to + Replace(s[|from|..], from, to)
    else [s[0]] + Replace(s[1..], from, to)
  }

  /** Without an occurrence of a non-empty pattern, replacing changes nothing. */
  lemma {:induction false} ReplaceAbsent(s: string, from: string, to: string)
    requires |from| > 0 && !Occurs(s, from)
    ensures Replace(s, from, to) == s
    decreases |s|
  {
    if |s| >= |from| {
      assert s[0..|from|] == s[..|from|];
      assert !OccursAt(s, from, 0);
      if Occurs(s[1..], from) {
        var i :| 0 <= i <= |s[1..]| && OccursAt(s[1..], from, i);
        assert i + 1 + |from| <= |s|;
        assert s[i + 1..i + 1 + |from|] == s[1..][i..i + |from|];
        assert OccursAt(s, from, i + 1);
        assert false;
      }
      ReplaceAbsent(s[1..], from, to);
      assert s == [s[0]] + s[1..];
    }
  }

  /** Replacing a pattern by itself changes nothing. */
  lemma {:induction false} ReplaceIdentity(s: string, from: string)
    ensures Replace(s, from, from) == s
    decreases |s|
  {
    if |from| == 0 {
      InterleaveEmpty(s);
    } else if |s| >= |from| {
      if s[..|from|] == from {
        ReplaceIdentity(s[|from|..], from);
        assert s == s[..|from|] + s[|from|..];
      } else {
        ReplaceIdentity(s[1..], from);
        assert s == [s[0]] + s[1..];
      }
    }
  }

  lemma {:induction false} InterleaveEmpty(s: string)
    ensures Interleave(s, "") == s
  {
    if s != [] {
      InterleaveEmpty(s[1..]);
      assert s == [s[0]] + s[1..];
    }
  }

  /**
   * A name that starts with the old name, and has no further occurrence of it, gets exactly
   * its leading old name swapped: `Old.server.lua` becomes `New.server.lua`.
   */
  lemma ReplaceLeading(before: string, rest: string, after: string)
    requires |before| > 0 && !Occurs(rest, before)
    ensures Replace(before + rest, before, after) == after + rest
  {
    assert (before + rest)[..|before|] == before;
    assert (before + rest)[|before|..] == rest;
    ReplaceAbsent(rest, before, after);
  }
}
