/**
 * The output directory of the service: where a job's artifact is staged and
 * where it is published, and the abstract file store that holds them.
 */
module Artifacts {

  newtype byte = x: int | 0 <= x < 256

  /** The file system as seen by the service: a path is present iff the file exists. */
  type FileStore = map<string, seq<byte>>

  /** The service's output directory, `out_dir`. */
  const OutDir: string := "../shared/out"

  /** The prefix every path in the output directory starts with. */
  const DirPrefix: string := OutDir + "/"

  /** `out_dir / f"{job_id}.glb"`: where a finished artifact is visible to readers. */
  function CanonicalPath(id: string): string {
    DirPrefix + id + ".glb"
  }

  /** `out_dir / f"{job_id}.tmp.glb"`: where the export writes before publication. */
  function StagingPath(id: string): string {
    DirPrefix + id + ".tmp.glb"
  }

  /** A path that names an entry directly inside the output directory. */
  predicate DirectlyInOutDir(p: string) {
    |p| > |DirPrefix| && p[..|DirPrefix|] == DirPrefix && '/' !in p[|DirPrefix|..]
  }

  predicate IsHexDigitOrDash(c: char) {
    '0' <= c <= '9' || 'a' <= c <= 'f' || c == '-'
  }

  /**
   * The shape a `str(uuid.uuid4())` id is taken to have: 36 characters, each
   * a lower-case hex digit or a dash. This is looser than the 8-4-4-4-12
   * layout of a uuid; it is all the path lemmas need.
   */
  predicate IsUuidText(id: string) {
    |id| == 36 && forall i | 0 <= i < |id| :: IsHexDigitOrDash(id[i])
  }

  /** File `p` is in the same state in `f` and in `g`: absent from both, or present with the same bytes. */
  predicate SameAt(f: FileStore, g: FileStore, p: string) {
    (p in f <==> p in g) && (p in f && p in g ==> f[p] == g[p])
  }

  /** A uuid's text has neither a dot nor a slash, so it is a plain file-name stem. */
  lemma UuidTextIsPlain(id: string)
    requires IsUuidText(id)
    ensures '.' !in id && '/' !in id
  {
  }

  /** For one id the staging file and the published file are two different files. */
  lemma StagingIsNotCanonical(id: string)
    ensures StagingPath(id) != CanonicalPath(id)
  {
    assert |StagingPath(id)| == |CanonicalPath(id)| + 4;
  }

  /** Two ids publish to the same file only when they are the same id. */
  lemma CanonicalInjective(a: string, b: string)
    ensures CanonicalPath(a) == CanonicalPath(b) <==> a == b
  {
    if CanonicalPath(a) == CanonicalPath(b) {
      var n := |DirPrefix|;
      assert |a| == |b|;
      assert a == CanonicalPath(a)[n..n + |a|];
      assert b == CanonicalPath(b)[n..n + |b|];
    }
  }

  /** Two ids stage into the same file only when they are the same id. */
  lemma StagingInjective(a: string, b: string)
    ensures StagingPath(a) == StagingPath(b) <==> a == b
  {
    if StagingPath(a) == StagingPath(b) {
      var n := |DirPrefix|;
      assert |a| == |b|;
      assert a == StagingPath(a)[n..n + |a|];
      assert b == StagingPath(b)[n..n + |b|];
    }
  }

  /**
   * The staging file of `a` is the published file of `b` exactly when `b` is
   * `a` followed by ".tmp": the naming scheme alone does not keep the two
   * apart, the shape of the ids does.
   */
  lemma StagingMeetsCanonical(a: string, b: string)
    ensures StagingPath(a) == CanonicalPath(b) <==> b == a + ".tmp"
  {
    var n := |DirPrefix|;
    if StagingPath(a) == CanonicalPath(b) {
      assert |b| == |a| + 4;
      assert b == CanonicalPath(b)[n..n + |b|];
      assert a + ".tmp" == StagingPath(a)[n..n + |a| + 4];
    }
    if b == a + ".tmp" {
      calc {
        CanonicalPath(b);
        DirPrefix + (a + ".tmp") + ".glb";
        { assert (a + ".tmp") + ".glb" == a + ".tmp.glb"; }
        DirPrefix + a + ".tmp.glb";
      }
    }
  }

  /** No id without a dot has its published file overwritten by another job's staging file. */
  lemma StagingNeverCanonical(a: string, b: string)
    requires '.' !in b
    ensures StagingPath(a) != CanonicalPath(b)
  {
    StagingMeetsCanonical(a, b);
  }

  /** Both files of a slash-free id live directly in the output directory, the same volume. */
  lemma PathsInOutDir(id: string)
    requires '/' !in id
    ensures DirectlyInOutDir(StagingPath(id)) && DirectlyInOutDir(CanonicalPath(id))
  {
    var n := |DirPrefix|;
    assert StagingPath(id)[..n] == DirPrefix;
    assert CanonicalPath(id)[..n] == DirPrefix;
    assert StagingPath(id)[n..] == id + ".tmp.glb";
    assert CanonicalPath(id)[n..] == id + ".glb";
    assert '/' !in ".tmp.glb" && '/' !in ".glb";
  }
}
