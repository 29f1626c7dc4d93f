/** The string operations the bootstrap relies on: substring search, character search, extension stripping. */
module Text {
  import opened Wrappers

  /** `t` occurs in `s` starting at position `i`. */
  predicate OccursAt(s: string, t: string, i: int) {
    0 <= i <= |s| - |t| && s[i..i + |t|] == t
  }

  /** `t` occurs in `s` as a contiguous substring: `s.find(t) != std::string::npos`. */
  predicate Contains(s: string, t: string) {
    exists i | 0 <= i <= |s| :: OccursAt(s, t, i)
  }

  /** Occurrence is transitive: a string containing `t` contains everything `t` contains. */
  lemma ContainsTransitive(s: string, t: string, u: string)
    requires Contains(s, t) && Contains(t, u)
    ensures Contains(s, u)
  {
    var i :| 0 <= i <= |s| && OccursAt(s, t, i);
    var j :| 0 <= j <= |t| && OccursAt(t, u, j);
    assert 0 <= i <= |s| - |t| && s[i..i + |t|] == t;
    assert 0 <= j <= |t| - |u| && t[j..j + |u|] == u;
    forall k | 0 <= k < |u|
      ensures s[i + j..i + j + |u|][k] == u[k]
    {
      assert s[i + j + k] == s[i..i + |t|][j + k] == t[j + k] == t[j..j + |u|][k];
    }
    assert OccursAt(s, u, i + j);
  }

  /** Position of the first `c` in `s`: `s.find(c)`, with `None` for `npos`. */
  function IndexOf(s: string, c: char): (r: Option<nat>)
    ensures r.None? <==> c !in s
    ensures r.Some? ==> r.value < |s| && s[r.value] == c && c !in s[..r.value]
  {
    if |s| == 0 then None
    else if s[0] == c then Some(0)
    else match IndexOf(s[1..], c)
      case None => None
      case Some(k) =>
        assert s[1..][..k] == s[1..k + 1];
        Some(k + 1)
  }

  /** Position of the last `c` in `s`: `s.rfind(c)`, with `None` for `npos`. */
  function LastIndexOf(s: string, c: char): (r: Option<nat>)
    ensures r.None? <==> c !in s
    ensures r.Some? ==> r.value < |s| && s[r.value] == c && c !in s[r.value + 1..]
  {
    if |s| == 0 then None
    else if s[|s| - 1] == c then Some(|s| - 1)
    else
      assert s == s[..|s| - 1] + [s[|s| - 1]];
      LastIndexOf(s[..|s| - 1], c)
  }

  /**
    A file name with its extension removed: `path(name).replace_extension("")`. The extension is
    the text from the last '.' on; the names "." and ".." have none.
  */
  function StripExtension(name: string): (r: string)
    ensures r <= name
    ensures '.' !in name || name == "." || name == ".." ==> r == name
    ensures '.' in name && name != "." && name != ".." ==>
              |r| < |name| && name[|r|] == '.' && '.' !in name[|r| + 1..]
  {
    if name == "." || name == ".." then name
    else match LastIndexOf(name, '.')
      case None => name
      case Some(k) => name[..k]
  }

  /** Only the final extension goes: a backup of a track file keeps its track extension. */
  lemma StripExtensionOfBackup()
    ensures StripExtension("A.TRK.bak") == "A.TRK"
  {
    assert "A.TRK.bak"[..5] == "A.TRK";
  }

  /** A plain track file name loses its extension. */
  lemma StripExtensionOfTrack()
    ensures StripExtension("TR00.TRK") == "TR00"
  {
    assert "TR00.TRK"[..4] == "TR00";
  }
}
