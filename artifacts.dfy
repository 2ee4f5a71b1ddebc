/** The optional-value wrapper used across the model. */
module Wrappers {
  datatype Option<+T> = None | Some(value: T)
}

/**
 * Artifact references as main.py writes them: `path:qualifier`, where the
 * path is `entity/project/artifact_name` and the qualifier selects a version
 * (`latest`, `reference`, ...). The driver only composes such strings; whether
 * the artifact exists is found out by the stage that fetches it.
 */
module ArtifactRefs {
  import opened Wrappers

  datatype ArtifactRef = ArtifactRef(path: string, qualifier: string)

  const QualifierMark: char := ':'
  const PathMark: char := '/'

  /** The reference string handed to a stage. */
  function Render(r: ArtifactRef): string
  {
    r.path + [QualifierMark] + r.qualifier
  }

  /** Position of the last `c` in `s`, if any. */
  function LastIndex(s: string, c: char): (i: Option<nat>)
    ensures i.None? <==> c !in s
    ensures i.Some? ==> i.value < |s| && s[i.value] == c && c !in s[i.value + 1..]
    decreases |s|
  {
    if |s| == 0 then None
    else if s[|s| - 1] == c then Some(|s| - 1)
    else
      var i := LastIndex(s[..|s| - 1], c);
      assert i.Some? ==> s[i.value + 1..] == s[..|s| - 1][i.value + 1..] + [s[|s| - 1]];
      i
  }

  /**
   * Reads a reference string back: the qualifier is what follows the last
   * ':'. A string without ':' names no qualified version.
   */
  function Parse(s: string): (r: Option<ArtifactRef>)
    ensures r.None? <==> QualifierMark !in s
    ensures r.Some? ==> Render(r.value) == s && QualifierMark !in r.value.qualifier
  {
    match LastIndex(s, QualifierMark)
    case None => None
    case Some(i) =>
      assert s == s[..i] + [QualifierMark] + s[i + 1..];
      Some(ArtifactRef(s[..i], s[i + 1..]))
  }

  /** Rendering then parsing gives the reference back when its qualifier has no ':'. */
  lemma ParseRender(r: ArtifactRef)
    requires QualifierMark !in r.qualifier
    ensures Parse(Render(r)) == Some(r)
  {
    var s := Render(r);
    var i := |r.path|;
    assert s[i] == QualifierMark && s[i + 1..] == r.qualifier;
    assert s[..i] == r.path;
  }

  /** The artifact name of a path: what follows its last '/'. */
  function BaseName(path: string): (name: string)
    ensures PathMark !in name
    ensures |name| <= |path| && name == path[|path| - |name|..]
  {
    match LastIndex(path, PathMark)
    case None => path
    case Some(i) => path[i + 1..]
  }

  /** The name of `dir/name` is `name` when `name` holds no '/'. */
  lemma BaseNameOf(dir: string, name: string)
    requires PathMark !in name
    ensures BaseName(dir + [PathMark] + name) == name
  {
    var path := dir + [PathMark] + name;
    var i := |dir|;
    assert path[i] == PathMark && path[i + 1..] == name;
  }

  /** The W&B entity and project of the raw sample (download's output). */
  const RawProject: string := "adam6-western-governors-university/nyc_airbnb"

  /** The W&B entity and project the cleaned sample is read from. */
  const CleanProject: string :=
    "adam6-western-governors-university/Project-Build-an-ML-Pipeline-Starter-src_basic_cleaning"

  /** The raw sample download writes, at version `qualifier`. */
  function RawSample(qualifier: string): ArtifactRef
  {
    ArtifactRef(RawProject + [PathMark] + "sample.csv", qualifier)
  }

  /** The cleaned sample basic_cleaning writes, at version `qualifier`. */
  function CleanSample(qualifier: string): ArtifactRef
  {
    ArtifactRef(CleanProject + [PathMark] + "clean_sample.csv", qualifier)
  }

  /** Input of basic_cleaning: ".../nyc_airbnb/sample.csv:latest". */
  const SampleLatest: string := Render(RawSample("latest"))

  /** `csv` of data_check and `input` of data_split: ".../clean_sample.csv:latest". */
  const CleanSampleLatest: string := Render(CleanSample("latest"))

  /** `ref` of data_check: ".../clean_sample.csv:reference". */
  const CleanSampleReference: string := Render(CleanSample("reference"))
}
