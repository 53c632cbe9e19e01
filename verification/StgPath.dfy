/** Relative paths and the absolute paths made of them. */
module StgPath {
  import opened Common
  import opened StgFormat

  const MAX_PATH: nat := 128
  const TMP_NAME: string := "UTSTG.TMP"

  type Path = string

  predicate HasDotDot(s: string) {
    exists i :: 0 <= i < |s| - 1 && s[i] == '.' && s[i + 1] == '.'
  }

  /** stg_is_safe_relpath: not empty, not absolute, no "..", no backslash. */
  predicate SafeRelpath(s: string) {
    s != "" && s[0] != '/' && !HasDotDot(s) && '\\' !in s
  }

  datatype PathResult = Path(path: Path) | NoPath(status: Status)

  function Join(base: string, rel: string): string {
    base + "/" + rel
  }

  function MakeAbspath(base: string, defaultRel: string, rel: Option<string>): PathResult {
    var rp := if rel.Some? then rel.value else defaultRel;
    if !SafeRelpath(rp) then NoPath(InvalidArg)
    else if |Join(base, rp)| >= MAX_PATH then NoPath(InvalidSize)
    else Path(Join(base, rp))
  }

  function MakeTmpAbspath(base: string): PathResult {
    if |Join(base, TMP_NAME)| >= MAX_PATH then NoPath(InvalidSize) else Path(Join(base, TMP_NAME))
  }

  /** Exactly these names resolve, and to exactly this path: not empty, no '/' in front, no ".." and no backslash
    * anywhere, short enough for 128 characters with the terminator. */
  lemma ResolvesIff(base: string, defaultRel: string, rel: Option<string>)
    ensures var rp := if rel.Some? then rel.value else defaultRel;
      var good := rp != "" && rp[0] != '/' && (forall i :: 0 <= i < |rp| ==> rp[i] != '\\')
                  && (forall i, j :: 0 <= i < j < |rp| && j == i + 1 ==> !(rp[i] == '.' && rp[j] == '.'));
      MakeAbspath(base, defaultRel, rel) ==
        if !good then NoPath(InvalidArg)
        else if |base| + 1 + |rp| > 127 then NoPath(InvalidSize)
        else Path(base + "/" + rp)
  {
  }

  /** No name that leaves the volume's directory, and no other bad one, gets past the check. */
  lemma BadNamesAreRefused(base: string, defaultRel: string, rel: string, i: nat)
    ensures rel == "" || rel[0] == '/' ==> MakeAbspath(base, defaultRel, Some(rel)) == NoPath(InvalidArg)
    ensures i < |rel| && rel[i] == '\\' ==> MakeAbspath(base, defaultRel, Some(rel)) == NoPath(InvalidArg)
    ensures i + 2 <= |rel| && rel[i..i + 2] == ".." ==>
      MakeAbspath(base, defaultRel, Some(rel)) == NoPath(InvalidArg)
  {
    ResolvesIff(base, defaultRel, Some(rel));
    if i + 2 <= |rel| && rel[i..i + 2] == ".." {
      assert rel[i] == rel[i..i + 2][0] && rel[i + 1] == rel[i..i + 2][1];
    }
  }

  lemma TmpPathIs(base: string)
    ensures MakeTmpAbspath(base) ==
      if |base| + 10 > 127 then NoPath(InvalidSize) else Path(base + "/UTSTG.TMP")
  {
    assert |TMP_NAME| == 9;
  }

  /** Different relative paths never meet under one base. */
  lemma JoinIsInjective(base: string, a: string, b: string)
    ensures Join(base, a) == Join(base, b) <==> a == b
  {
    assert Join(base, a)[|base| + 1..] == a;
    assert Join(base, b)[|base| + 1..] == b;
  }

  /** The name of the temporary file passes the safety test, so a caller can name it: it is then, and only
    * then, that a target collides with the temporary file. */
  lemma TmpNameIsReachable(base: string, defaultRel: string, rel: Option<string>)
    requires MakeAbspath(base, defaultRel, rel).Path?
    ensures SafeRelpath(TMP_NAME)
    ensures MakeAbspath(base, defaultRel, rel) == MakeTmpAbspath(base)
       <==> (if rel.Some? then rel.value else defaultRel) == TMP_NAME
  {
    JoinIsInjective(base, if rel.Some? then rel.value else defaultRel, TMP_NAME);
    assert |TMP_NAME| == 9;
    assert !HasDotDot(TMP_NAME) by {
      assert TMP_NAME[5] == '.' && forall i :: 0 <= i < 9 && i != 5 ==> TMP_NAME[i] != '.';
    }
  }
}
