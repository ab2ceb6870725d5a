/** The object-store key builders of the service configuration: pure functions of
    a (user id, case id) pair. */
module Config {
  import opened Wrappers
  import Paths

  /** A key builder as the configuration stores it: a function of `(uid, cid)`. */
  type PrefixBuilder = (string, string) -> string

  const GetObjPrefixName := "get_obj_prefix"
  const PutObjPrefixName := "put_obj_prefix"

  const Root := "doctor/"
  const CaseSegment := "/ct/"
  const ModelsSegment := "/models/"
  const ImagesLeaf := "images"
  const CustomLeaf := "custom"

  /** `obsConfig['get_obj_prefix']`: the prefix of a case's input images, the
      case stem followed by `images`; with a '/'-free user id the case can be
      read back from it. */
  function GetObjPrefix(uid: string, cid: string): (p: string)
    ensures p == CaseStem(uid, cid) + ImagesLeaf
    ensures Paths.SlashFree(uid) ==> ParseCasePrefix(p, ImagesLeaf) == Some((uid, cid))
  {
    var p := "doctor/" + uid + "/ct/" + cid + "/models/images";
    assert p == CaseStem(uid, cid) + ImagesLeaf;
    assert Paths.SlashFree(uid) ==> ParseCasePrefix(p, ImagesLeaf) == Some((uid, cid)) by {
      if Paths.SlashFree(uid) {
        ParseCasePrefixRoundTrip(uid, cid, ImagesLeaf);
      }
    }
    p
  }

  /** `obsConfig['put_obj_prefix']`: the prefix a case's results are written
      under, the case stem followed by `custom`; with a '/'-free user id the
      case can be read back from it. */
  function PutObjPrefix(uid: string, cid: string): (p: string)
    ensures p == CaseStem(uid, cid) + CustomLeaf
    ensures Paths.SlashFree(uid) ==> ParseCasePrefix(p, CustomLeaf) == Some((uid, cid))
  {
    var p := "doctor/" + uid + "/ct/" + cid + "/models/custom";
    assert p == CaseStem(uid, cid) + CustomLeaf;
    assert Paths.SlashFree(uid) ==> ParseCasePrefix(p, CustomLeaf) == Some((uid, cid)) by {
      if Paths.SlashFree(uid) {
        ParseCasePrefixRoundTrip(uid, cid, CustomLeaf);
      }
    }
    p
  }

  /** The builders the configuration defines, by key. The remaining entry,
      `bucket`, is a plain string taken from the environment. */
  function PrefixBuilders(): (m: map<string, PrefixBuilder>)
    ensures m.Keys == {GetObjPrefixName, PutObjPrefixName}
    ensures m[GetObjPrefixName] == GetObjPrefix && m[PutObjPrefixName] == PutObjPrefix
  {
    map[GetObjPrefixName := GetObjPrefix, PutObjPrefixName := PutObjPrefix]
  }

  /** The part both builders share: everything up to and including `/models/`. */
  function CaseStem(uid: string, cid: string): string
  {
    Root + uid + CaseSegment + cid + ModelsSegment
  }

  /** `s` without its leading `pre`, when it starts with `pre`. */
  function StripPrefix(s: string, pre: string): (r: Option<string>)
    ensures r.Some? <==> |pre| <= |s| && s[..|pre|] == pre
    ensures r.Some? ==> s == pre + r.value
  {
    if |pre| <= |s| && s[..|pre|] == pre then
      assert s == s[..|pre|] + s[|pre|..];
      Some(s[|pre|..])
    else None
  }

  /** `s` without its trailing `suf`, when it ends with `suf`. */
  function StripSuffix(s: string, suf: string): (r: Option<string>)
    ensures r.Some? <==> |suf| <= |s| && s[|s| - |suf|..] == suf
    ensures r.Some? ==> s == r.value + suf
  {
    if |suf| <= |s| && s[|s| - |suf|..] == suf then
      assert s == s[..|s| - |suf|] + s[|s| - |suf|..];
      Some(s[..|s| - |suf|])
    else None
  }

  /** Length of the leading run of `s` that holds no '/'. */
  function SegmentEnd(s: string): (n: nat)
    ensures n <= |s|
    ensures forall i :: 0 <= i < n ==> s[i] != '/'
    ensures n < |s| ==> s[n] == '/'
  {
    if |s| == 0 || s[0] == '/' then 0 else 1 + SegmentEnd(s[1..])
  }

  /** Reads `(uid, cid)` back from a key of the form
      `doctor/{uid}/ct/{cid}/models/{leaf}`, taking `uid` up to the first '/'. */
  function ParseCasePrefix(key: string, leaf: string): (r: Option<(string, string)>)
    ensures r.Some? ==> Paths.SlashFree(r.value.0) && CaseStem(r.value.0, r.value.1) + leaf == key
  {
    match StripPrefix(key, Root)
    case None => None
    case Some(rest) =>
      var n := SegmentEnd(rest);
      var uid := rest[..n];
      assert Paths.SlashFree(uid) by {
        assert forall i :: 0 <= i < |uid| ==> uid[i] == rest[i];
      }
      assert rest == uid + rest[n..];
      match StripPrefix(rest[n..], CaseSegment)
      case None => None
      case Some(middle) =>
        match StripSuffix(middle, ModelsSegment + leaf)
        case None => None
        case Some(cid) =>
          Reassemble(uid, cid, leaf);
          Some((uid, cid))
  }

  /** The case stem followed by a leaf, regrouped from the right. */
  lemma Reassemble(uid: string, cid: string, leaf: string)
    ensures CaseStem(uid, cid) + leaf
         == Root + (uid + (CaseSegment + (cid + (ModelsSegment + leaf))))
  {
  }

  /** The two prefixes of one case agree up to the end of the case stem and
      differ at the very next character. */
  lemma PrefixesShareStem(uid: string, cid: string)
    ensures |CaseStem(uid, cid)| < |GetObjPrefix(uid, cid)| && |CaseStem(uid, cid)| < |PutObjPrefix(uid, cid)|
    ensures GetObjPrefix(uid, cid)[..|CaseStem(uid, cid)|] == PutObjPrefix(uid, cid)[..|CaseStem(uid, cid)|]
    ensures GetObjPrefix(uid, cid)[|CaseStem(uid, cid)|] != PutObjPrefix(uid, cid)[|CaseStem(uid, cid)|]
  {
    var n := |CaseStem(uid, cid)|;
    assert GetObjPrefix(uid, cid)[..n] == CaseStem(uid, cid);
    assert PutObjPrefix(uid, cid)[..n] == CaseStem(uid, cid);
    assert GetObjPrefix(uid, cid)[n] == 'i';
    assert PutObjPrefix(uid, cid)[n] == 'c';
  }

  /** No input prefix is ever an output prefix, whatever the two cases are:
      the keys end in `images` and `custom` respectively. */
  lemma PrefixesNeverCollide(uid: string, cid: string, uid': string, cid': string)
    ensures GetObjPrefix(uid, cid) != PutObjPrefix(uid', cid')
  {
    var g := GetObjPrefix(uid, cid);
    var p := PutObjPrefix(uid', cid');
    assert g[|g| - 1] == 's';
    assert p[|p| - 1] == 'm';
  }

  /** With a '/'-free user id, a case prefix can be parsed back into the pair it
      was built from. */
  lemma ParseCasePrefixRoundTrip(uid: string, cid: string, leaf: string)
    requires Paths.SlashFree(uid)
    ensures ParseCasePrefix(CaseStem(uid, cid) + leaf, leaf) == Some((uid, cid))
  {
    var tail := ModelsSegment + leaf;
    var middle := cid + tail;
    var after := CaseSegment + middle;
    var rest := uid + after;
    Reassemble(uid, cid, leaf);
    StripPrefixOfConcat(Root, rest);
    assert rest[|uid|] == '/';
    var n := SegmentEnd(rest);
    assert n == |uid|;
    assert rest[..n] == uid;
    assert rest[n..] == after;
    StripPrefixOfConcat(CaseSegment, middle);
    StripSuffixOfConcat(cid, tail);
  }

  lemma StripPrefixOfConcat(pre: string, s: string)
    ensures StripPrefix(pre + s, pre) == Some(s)
  {
  }

  lemma StripSuffixOfConcat(s: string, suf: string)
    ensures StripSuffix(s + suf, suf) == Some(s)
  {
  }

  /** The input-prefix builder is injective on '/'-free user ids. */
  lemma GetObjPrefixInjective(uid: string, cid: string, uid': string, cid': string)
    requires Paths.SlashFree(uid) && Paths.SlashFree(uid')
    requires GetObjPrefix(uid, cid) == GetObjPrefix(uid', cid')
    ensures uid == uid' && cid == cid'
  {
    ParseCasePrefixRoundTrip(uid, cid, ImagesLeaf);
    ParseCasePrefixRoundTrip(uid', cid', ImagesLeaf);
  }

  /** Without the '/'-free condition two different cases share a prefix: the
      builders insert ids verbatim. */
  lemma SlashInUserIdAliases()
    ensures GetObjPrefix("a/ct/b", "c") == GetObjPrefix("a", "b/ct/c")
  {
    assert "a/ct/b" + CaseSegment + "c" == "a" + CaseSegment + "b/ct/c";
  }
}
