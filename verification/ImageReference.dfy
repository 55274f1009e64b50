/** When an image reference determines the repository, image and tag it was built from. */
module ImageReference {
  import opened Policy

  predicate CleanImage(image: string) {
    '/' !in image && ':' !in image && '@' !in image
  }

  /** Two splits at a separator that the right-hand parts do not contain are the same split. */
  lemma LastSeparator(a: string, b: string, a': string, b': string, c: char)
    requires c !in b && c !in b'
    requires a + [c] + b == a' + [c] + b'
    ensures a == a' && b == b'
  {
    var s := a + [c] + b;
    assert s[|a|] == c && s[|a'|] == c;
    assert forall k | |a| < k < |s| :: s[k] == b[k - |a| - 1] && s[k] != c;
    assert forall k | |a'| < k < |s| :: s[k] == b'[k - |a'| - 1] && s[k] != c;
    assert s[..|a|] == a && s[..|a'|] == a';
    assert s[|a| + 1..] == b && s[|a'| + 1..] == b';
  }

  /** Two splits at the first character that is a separator are the same split. */
  lemma FirstSeparator(a: string, c: char, b: string, a': string, c': char, b': string)
    requires CleanImage(a) && CleanImage(a')
    requires c in ":@" && c' in ":@"
    requires a + [c] + b == a' + [c'] + b'
    ensures a == a' && c == c' && b == b'
  {
    var s := a + [c] + b;
    assert s[|a|] == c && s[|a'|] == c';
    assert forall k | 0 <= k < |a| :: s[k] == a[k] && s[k] !in ":@";
    assert forall k | 0 <= k < |a'| :: s[k] == a'[k] && s[k] !in ":@";
    assert s[..|a|] == a && s[..|a'|] == a';
    assert s[|a| + 1..] == b && s[|a'| + 1..] == b';
  }

  /** The character between the image and the tag. */
  function Separator(tag: string): char {
    if IsDigest(tag) then '@' else ':'
  }

  lemma PathShape(repository: string, image: string, tag: string)
    requires repository != "" || tag != ""
    ensures ImagePath(repository, image, tag) == repository + ['/'] + (image + [Separator(tag)] + tag)
    ensures '/' in ImagePath(repository, image, tag)
  {
    assert repository + "/" + image + "@" + tag == repository + ['/'] + (image + ['@'] + tag);
    assert repository + "/" + image + ":" + tag == repository + ['/'] + (image + [':'] + tag);
    assert ImagePath(repository, image, tag)[|repository|] == '/';
  }

  /** Different triples never share an image reference. */
  lemma ImagePathInjective(r: string, i: string, t: string, r': string, i': string, t': string)
    requires CleanImage(i) && CleanImage(i') && '/' !in t && '/' !in t'
    requires ImagePath(r, i, t) == ImagePath(r', i', t')
    ensures r == r' && i == i' && t == t'
  {
    var bare := r == "" && t == "";
    var bare' := r' == "" && t' == "";
    if !bare { PathShape(r, i, t); }
    if !bare' { PathShape(r', i', t'); }
    assert bare == bare';
    if !bare {
      LastSeparator(r, i + [Separator(t)] + t, r', i' + [Separator(t')] + t', '/');
      FirstSeparator(i, Separator(t), t, i', Separator(t'), t');
    }
  }

  /** With a colon allowed in image names, every image shares a reference with another one: the colon may
      belong to the name or to the tag. */
  lemma ImagePathAmbiguous(r: string, i: string) returns (t: string, i': string, t': string)
    ensures i != i' && '/' !in t && '/' !in t' && t != "" && t' != ""
    ensures ImagePath(r, i, t) == ImagePath(r, i', t')
  {
    i', t, t' := i + ":a", "a:b", "b";
    PathShape(r, i, t);
    PathShape(r, i', t');
    assert i + [Separator(t)] + t == i' + [Separator(t')] + t';
  }

  /** A tag that is a digest, or becomes one behind a separator, is told by its first seven characters. */
  lemma DigestBehind(b: string, c: char, t: string)
    requires c in ":@"
    ensures IsDigest(b + [c] + t) <==> IsDigest(b) || (b == "sha256" && c == ':')
  {
    var s := b + [c] + t;
    assert s[..|b|] == b && s[|b|] == c;
    assert "sha256:"[..6] == "sha256" && "sha256:"[6] == ':';
    assert |b| >= 7 ==> s[..7] == b[..7];
    if b == "sha256" && c == ':' {
      assert s[..7] == "sha256:";
    }
  }

  /** The same reference under two names, the second longer by a separator and `b`. */
  lemma SharedIff(r: string, a: string, t: string, c: char, b: string, t': string)
    requires t != "" && t' != ""
    ensures ImagePath(r, a, t) == ImagePath(r, a + [c] + b, t') <==>
            c == Separator(t) && t == b + [Separator(t')] + t'
  {
    var x, y := [Separator(t)] + t, [c] + (b + [Separator(t')] + t');
    LongerShape(r, a, t);
    LongerShape(r, a + [c] + b, t');
    assert (a + [c] + b) + ([Separator(t')] + t') == a + y;
    if ImagePath(r, a, t) == ImagePath(r, a + [c] + b, t') {
      SamePrefix(r + ['/'], a + x, a + y);
      SamePrefix(a, x, y);
    }
    SameHead(Separator(t), t, c, b + [Separator(t')] + t');
  }

  lemma LongerShape(r: string, i: string, t: string)
    requires t != ""
    ensures ImagePath(r, i, t) == (r + ['/']) + (i + ([Separator(t)] + t))
  {
    PathShape(r, i, t);
    assert i + [Separator(t)] + t == i + ([Separator(t)] + t);
  }

  lemma SameHead(c: char, s: string, c': char, s': string)
    ensures [c] + s == [c'] + s' <==> c == c' && s == s'
  {
    assert ([c] + s)[0] == c && ([c] + s)[1..] == s;
    assert ([c'] + s')[0] == c' && ([c'] + s')[1..] == s';
  }

  lemma SamePrefix(a: string, b: string, b': string)
    requires a + b == a + b'
    ensures b == b'
  {
    assert (a + b)[|a|..] == b && (a + b')[|a|..] == b';
  }

  ghost predicate Shares(r: string, a: string, i: string, t: string, t': string) {
    t != "" && t' != "" && ImagePath(r, a, t) == ImagePath(r, i, t')
  }

  /** In particular a name with a colon shares references with the part before that colon exactly if what follows
      the colon does not announce a digest. */
  lemma ColonAmbiguousIff(r: string, a: string, b: string)
    ensures (exists t, t' :: Shares(r, a, a + ":" + b, t, t')) <==> !IsDigest(b)
    ensures !IsDigest(b) && '/' !in b ==> exists t, t' :: '/' !in t && '/' !in t' && Shares(r, a, a + ":" + b, t, t')
  {
    if !IsDigest(b) {
      var t' := if b == "sha256" then "sha256:c" else "c";
      var t := b + [Separator(t')] + t';
      DigestBehind(b, Separator(t'), t');
      SharedIff(r, a, t, ':', b, t');
      assert Shares(r, a, a + ":" + b, t, t');
    }
    if t, t' :| Shares(r, a, a + ":" + b, t, t') {
      SharedIff(r, a, t, ':', b, t');
      DigestBehind(b, Separator(t'), t');
    }
  }

  /** And a name with an at sign with the part before it exactly if what follows does announce one, or is the mere
      name of the digest's algorithm. */
  lemma AtSignAmbiguousIff(r: string, a: string, b: string)
    ensures (exists t, t' :: Shares(r, a, a + "@" + b, t, t')) <==> IsDigest(b) || b == "sha256"
    ensures IsDigest(b) && '/' !in b ==> exists t, t' :: '/' !in t && '/' !in t' && Shares(r, a, a + "@" + b, t, t')
  {
    if IsDigest(b) || b == "sha256" {
      var t' := "c";
      var t := b + [':'] + t';
      DigestBehind(b, ':', t');
      SharedIff(r, a, t, '@', b, t');
      assert Shares(r, a, a + "@" + b, t, t');
    }
    if t, t' :| Shares(r, a, a + "@" + b, t, t') {
      SharedIff(r, a, t, '@', b, t');
      DigestBehind(b, Separator(t'), t');
    }
  }
}
